/** The rewrite as the code performs it: removing, clearing and inserting the fields of each item
    in place, and rebuilding the input and content lists in loops. */
module HistoryRewrite {
  import opened Wrappers
  import opened Text
  import opened HistoryTypes
  import opened History

  datatype Verdict = Kept | Dropped | Rejected

  /** The verdict and the fields left behind are what the outcome says. */
  predicate Became(v: Verdict, fields: Fields, o: Outcome) {
    match v
    case Kept => o == Keep(Obj(fields))
    case Dropped => o == Drop
    case Rejected => o == Reject
  }

  lemma {:induction false} StillThere(fields: Fields, gone: set<string>, name: string, default: Json)
    requires name !in gone
    ensures FieldOr(fields - gone, name, default) == FieldOr(fields, name, default)
  {}

  class HistoryItem {
    var fields: Fields

    constructor (fields: Fields)
      ensures this.fields == fields
    {
      this.fields := fields;
    }

    method Take(name: string, default: Json) returns (v: Json)
      modifies this
      ensures v == FieldOr(old(fields), name, default) && fields == old(fields) - {name}
    {
      v := FieldOr(fields, name, default);
      fields := fields - {name};
    }

    method RebuildFunctionCall(callId: Json, name: Json, arguments: Json, show: Json -> string)
      modifies this
      ensures fields == FunctionCall(callId, name, ArgumentsText(arguments, show))
    {
      fields := map[];
      fields := fields["type" := Str("function_call")];
      fields := fields["call_id" := callId];
      fields := fields["name" := name];
      fields := fields["arguments" := Str(ArgumentsText(arguments, show))];
    }

    method RebuildFunctionOutput(callId: Json, output: string)
      modifies this
      ensures fields == FunctionOutput(callId, output)
    {
      fields := map[];
      fields := fields["type" := Str("function_call_output")];
      fields := fields["call_id" := callId];
      fields := fields["output" := Str(output)];
    }

    /** Fall back on the item's id where it has no call id of its own. */
    method EnsureCallId() returns (found: bool)
      modifies this
      ensures found <==> EnsuredCallId(old(fields)).Some?
      ensures found ==> fields == old(fields)["call_id" := EnsuredCallId(old(fields)).value]
      ensures !found ==> fields == old(fields)
    {
      if HasText(fields, "call_id") {
        assert fields == fields["call_id" := fields["call_id"]];
        return true;
      }
      if !HasText(fields, "id") {
        return false;
      }
      fields := fields["call_id" := Str(Trim(fields["id"].s))];
      return true;
    }

    /** Move everything that describes the call into an object of its own. */
    method TakeRest() returns (rest: Fields)
      modifies this
      ensures rest == old(fields) - NOT_ARGUMENTS
    {
      rest := map[];
      var pending := fields.Keys;
      while pending != {}
        invariant pending <= old(fields).Keys
        invariant rest.Keys == old(fields).Keys - pending - NOT_ARGUMENTS
        invariant forall k :: k in rest ==> rest[k] == old(fields)[k]
        invariant forall k :: k in pending ==> k in fields && fields[k] == old(fields)[k]
        decreases |pending|
      {
        var key :| key in pending;
        pending := pending - {key};
        if key !in NOT_ARGUMENTS {
          rest := rest[key := fields[key]];
          fields := fields - {key};
        }
      }
    }

    method ConvertHostedToolCall(name: string, orRest: bool, show: Json -> string) returns (v: Verdict)
      modifies this
      ensures Became(v, fields, CallOr(EnsuredCallId(old(fields)), Str(name), ArgumentsText(HostedArguments(old(fields), orRest), show), Drop))
    {
      ghost var f := fields;
      var found := EnsureCallId();
      if !found {
        return Dropped;
      }
      var callId := Take("call_id", Null);
      assert fields == f - {"call_id"};
      SkipsCallId(f, orRest);
      var arguments := Null;
      if "action" in fields || !orRest {
        arguments := Take("action", Null);
      } else {
        var rest := TakeRest();
        arguments := Obj(rest);
      }
      RebuildFunctionCall(callId, Str(name), arguments, show);
      return Kept;
    }

    method ConvertHostedToolOutput(show: Json -> string) returns (v: Verdict)
      modifies this
      ensures Became(v, fields, OutputOr(EnsuredCallId(old(fields)), OutputText(FieldOr(old(fields), "output", Null), show), Drop))
    {
      ghost var f := fields;
      var found := EnsureCallId();
      if !found {
        return Dropped;
      }
      var callId := Take("call_id", Null);
      assert fields == f - {"call_id"};
      StillThere(f, {"call_id"}, "output", Null);
      var output := Take("output", Null);
      RebuildFunctionOutput(callId, OutputText(output, show));
      return Kept;
    }

    /** Calls that bring their own call id. */
    method NormalizeOwnCall(kind: ItemType, show: Json -> string) returns (v: Verdict)
      requires kind.CustomToolCall? || kind.ToolSearchCall? || kind.ApplyPatchCall? || kind.Program?
      modifies this
      ensures Became(v, fields, NormalizedCall(kind, old(fields), show))
    {
      ghost var f := fields;
      if !HasText(fields, "call_id") || (kind.CustomToolCall? && !HasText(fields, "name")) {
        return if kind.ToolSearchCall? then Rejected else Dropped;
      }
      var callId := Take("call_id", Null);
      match kind {
        case CustomToolCall =>
          StillThere(f, {"call_id"}, "name", Null);
          var name := Take("name", Null);
          assert fields == f - {"call_id", "name"};
          StillThere(f, {"call_id", "name"}, "input", Null);
          var input := Take("input", Null);
          fields := FunctionCall(callId, name, show(Obj(map["input" := Str(OutputText(input, show))])));
        case ToolSearchCall =>
          StillThere(f, {"call_id"}, "arguments", Null);
          var arguments := Take("arguments", Null);
          RebuildFunctionCall(callId, Str("tool_search"), arguments, show);
        case ApplyPatchCall =>
          StillThere(f, {"call_id"}, "operation", Null);
          var operation := Take("operation", Null);
          RebuildFunctionCall(callId, Str("apply_patch"), operation, show);
        case Program =>
          StillThere(f, {"call_id"}, "code", Null);
          var code := Take("code", Null);
          assert fields == f - {"call_id", "code"};
          StillThere(f, {"call_id", "code"}, "fingerprint", Null);
          var fingerprint := Take("fingerprint", Null);
          RebuildFunctionCall(callId, Str("program"), Obj(map["code" := code, "fingerprint" := fingerprint]), show);
      }
      return Kept;
    }

    /** Outputs that bring their own call id. */
    method NormalizeOwnOutput(kind: ItemType, show: Json -> string) returns (v: Verdict)
      requires IsOutput(kind) && NeedsOwnCallId(kind)
      modifies this
      ensures Became(v, fields, NormalizedOutput(kind, old(fields), show))
    {
      ghost var f := fields;
      if !HasText(fields, "call_id") {
        return if kind.ToolSearchOutput? || kind.McpToolCallOutput? then Rejected else Dropped;
      }
      var callId := Take("call_id", Null);
      if kind.ToolSearchOutput? {
        StillThere(f, {"call_id"}, "tools", Arr([]));
        var tools := Take("tools", Arr([]));
        RebuildFunctionOutput(callId, OutputText(tools, show));
      } else if kind.ApplyPatchCallOutput? || kind.ProgramOutput? {
        var name := if kind.ProgramOutput? then "result" else "output";
        var text := TakeStatusAnd(name, show);
        StillThere(f, {"call_id"}, name, Null);
        StillThere(f, {"call_id"}, "status", Null);
        RebuildFunctionOutput(callId, text);
      } else {
        StillThere(f, {"call_id"}, "output", Null);
        var output := Take("output", Null);
        RebuildFunctionOutput(callId, OutputText(output, show));
      }
      return Kept;
    }

    method TakeStatusAnd(name: string, show: Json -> string) returns (text: string)
      requires name == "output" || name == "result"
      modifies this
      ensures text == StatusAnd(old(fields), name, show)
    {
      ghost var f := fields;
      assert name != "status" by { assert name[0] != 's'; }
      var status := Take("status", Null);
      StillThere(f, {"status"}, name, Null);
      var value := Take(name, Null);
      return show(Obj(map["status" := status, name := value]));
    }

    method NormalizeMcpToolCall(show: Json -> string) returns (v: Verdict)
      modifies this
      ensures Became(v, fields, NormalizedCall(McpToolCall, old(fields), show))
    {
      ghost var f := fields;
      var found := EnsureCallId();
      assert HasText(fields, "name") <==> HasText(f, "name") by { assert "name" != "call_id"; }
      if !found || !HasText(fields, "name") {
        return Rejected;
      }
      var callId := Take("call_id", Null);
      assert fields == f - {"call_id"};
      StillThere(f, {"call_id"}, "name", Null);
      var name := Take("name", Null);
      assert fields == f - {"call_id", "name"};
      StillThere(f, {"call_id", "name"}, "arguments", Null);
      var arguments := Take("arguments", Null);
      RebuildFunctionCall(callId, name, arguments, show);
      return Kept;
    }

    /** Hosted tools; a result that cannot be carried over rejects the history. */
    method NormalizeHostedCall(kind: ItemType, show: Json -> string) returns (v: Verdict)
      requires IsCall(kind) && !NeedsOwnCallId(kind) && !kind.McpToolCall?
      modifies this
      ensures Became(v, fields, NormalizedCall(kind, old(fields), show))
    {
      match kind {
        case WebSearchCall => v := ConvertHostedToolCall("web_search", false, show);
        case ComputerCall => v := ConvertHostedToolCall("computer", false, show);
        case ShellCall => v := ConvertHostedToolCall("local_shell", false, show);
        case FileSearchCall =>
          if Carries(fields, "results") { return Rejected; }
          v := ConvertHostedToolCall("file_search", true, show);
        case CodeInterpreterCall =>
          if Carries(fields, "outputs") { return Rejected; }
          v := ConvertHostedToolCall("code_interpreter", true, show);
        case ImageGenerationCall =>
          if Carries(fields, "result") { return Rejected; }
          v := ConvertHostedToolCall("image_generation", true, show);
      }
    }

    method NormalizeAgentMessage() returns (v: Verdict)
      modifies this
      ensures Became(v, fields, NormalizedAgent(old(fields)))
    {
      if "content" !in fields || !fields["content"].Arr? {
        return Rejected;
      }
      var parts := fields["content"].items;
      var normalized: seq<Json> := [];
      for i := 0 to |parts|
        invariant fields == old(fields)
        invariant NormalizedParts(parts[..i]) == Some(normalized)
      {
        assert parts[..i + 1][..i] == parts[..i];
        var part := NormalizePart(parts[i]);
        if part.BadPart? {
          BadPartStays(parts, i + 1);
          return Rejected;
        }
        if part.KeepPart? {
          normalized := normalized + [part.part];
        }
      }
      assert parts[..|parts|] == parts;
      fields := fields["content" := Arr(normalized)];
      if normalized == [] {
        return Dropped;
      }
      fields := fields["type" := Str("message")];
      fields := fields["role" := Str("user")];
      return Kept;
    }

    /** The whole rewrite of one object. */
    method Normalize(rules: Rules) returns (v: Verdict)
      modifies this
      ensures Became(v, fields, Normalized(Obj(old(fields)), rules))
    {
      var name := StringField(fields, "type");
      if name.None? {
        fields := fields - INTERNAL;
        return Kept;
      }
      v := NormalizeTyped(rules.kind(name.value), rules.show);
    }

    method NormalizeTyped(kind: ItemType, show: Json -> string) returns (v: Verdict)
      modifies this
      ensures Became(v, fields, NormalizedTyped(kind, old(fields), show))
    {
      if kind.CompactionTrigger? {
        return Dropped;
      } else if kind.AgentMessage? {
        v := NormalizeAgentMessage();
      } else if IsCall(kind) {
        if NeedsOwnCallId(kind) {
          v := NormalizeOwnCall(kind, show);
        } else if kind.McpToolCall? {
          v := NormalizeMcpToolCall(show);
        } else {
          v := NormalizeHostedCall(kind, show);
        }
      } else if IsOutput(kind) {
        if NeedsOwnCallId(kind) {
          v := NormalizeOwnOutput(kind, show);
        } else {
          v := ConvertHostedToolOutput(show);
        }
      } else if kind.Unsupported? {
        return Rejected;
      } else {
        fields := fields - INTERNAL;
        return Kept;
      }
    }
  }

  lemma {:induction false} SkipsCallId(f: Fields, orRest: bool)
    ensures HostedArguments(f - {"call_id"}, orRest) == HostedArguments(f, orRest)
  {
    assert "action" != "call_id" && "call_id" in NOT_ARGUMENTS;
    assert (f - {"call_id"}) - NOT_ARGUMENTS == f - NOT_ARGUMENTS;
  }

  lemma {:induction false} BadPartStays(parts: seq<Json>, k: nat)
    requires k <= |parts| && NormalizedParts(parts[..k]).None?
    ensures NormalizedParts(parts).None?
    decreases |parts| - k
  {
    if k == |parts| {
      assert parts[..k] == parts;
    } else {
      assert parts[..k + 1][..k] == parts[..k];
      BadPartStays(parts, k + 1);
    }
  }

  method NormalizePart(part: Json) returns (o: PartOutcome)
    ensures o == NormalizedPart(part)
  {
    if !part.Obj? {
      return BadPart;
    }
    var fields := part.fields;
    var name := StringField(fields, "type");
    if name == Some("input_text") {
      return if StringField(fields, "text").Some? then KeepPart(part) else BadPart;
    }
    if name == Some("encrypted_content") {
      var text := StringField(fields, "encrypted_content");
      if text.None? {
        return if "text" in fields && fields["text"].Null? then SkipPart else BadPart;
      }
      fields := fields["type" := Str("input_text")];
      fields := fields["text" := Str(text.value)];
      fields := fields - {"encrypted_content"};
      return KeepPart(Obj(fields));
    }
    return BadPart;
  }

  /** The JSON body of a request. */
  class RequestBody {
    var fields: Fields

    constructor (fields: Fields)
      ensures this.fields == fields
    {
      this.fields := fields;
    }

    /** Rewrite the input list. The items are taken out before they are rewritten, so a rejected
        history leaves an empty input behind. */
    method NormalizeInput(rules: Rules) returns (ok: bool)
      modifies this
      ensures "input" !in old(fields) || !old(fields)["input"].Arr? ==> ok && fields == old(fields)
      ensures "input" in old(fields) && old(fields)["input"].Arr? ==>
                var r := NormalizedAll(old(fields)["input"].items, rules);
                && (ok <==> r.Some?)
                && fields == old(fields)["input" := Arr(if r.Some? then r.value else [])]
    {
      if "input" !in fields || !fields["input"].Arr? {
        return true;
      }
      var items := fields["input"].items;
      fields := fields["input" := Arr([])];
      var normalized: seq<Json> := [];
      for i := 0 to |items|
        invariant fields == old(fields)["input" := Arr([])]
        invariant NormalizedAll(items[..i], rules) == Some(normalized)
      {
        assert items[..i + 1][..i] == items[..i];
        var outcome := NormalizeItem(items[i], rules);
        if outcome.Reject? {
          RejectionStays(items, rules, i + 1);
          return false;
        }
        if outcome.Keep? {
          normalized := normalized + [outcome.item];
        }
      }
      assert items[..|items|] == items;
      fields := fields["input" := Arr(normalized)];
      return true;
    }
  }

  method NormalizeItem(item: Json, rules: Rules) returns (o: Outcome)
    ensures o == Normalized(item, rules)
  {
    if !item.Obj? {
      return Keep(item);
    }
    var entry := new HistoryItem(item.fields);
    var v := entry.Normalize(rules);
    match v {
      case Kept => return Keep(Obj(entry.fields));
      case Dropped => return Drop;
      case Rejected => return Reject;
    }
  }

  lemma {:induction false} RejectionStays(items: seq<Json>, rules: Rules, k: nat)
    requires k <= |items| && NormalizedAll(items[..k], rules).None?
    ensures NormalizedAll(items, rules).None?
    decreases |items| - k
  {
    if k == |items| {
      assert items[..k] == items;
    } else {
      assert items[..k + 1][..k] == items[..k];
      RejectionStays(items, rules, k + 1);
    }
  }
}
