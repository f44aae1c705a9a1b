/** Rewriting a Responses history for providers that only understand function calls, function
    outputs and plain messages. How types are recognised and how values are printed are
    parameters, so the argument does not depend on the spelling of either. */
module History {
  import opened Wrappers
  import opened Text
  import opened HistoryTypes

  datatype Rules = Rules(kind: string -> ItemType, show: Json -> string)

  /** The produced types are none of the rewritten or rejected ones. */
  predicate Sensible(rules: Rules) {
    && rules.kind("message") == OtherType
    && rules.kind("function_call") == OtherType
    && rules.kind("function_call_output") == OtherType
  }

  datatype Outcome = Keep(item: Json) | Drop | Reject

  // ----- Building blocks -----

  const INTERNAL: set<string> := {"phase", "encrypted_function_args", "internal_chat_message_metadata_passthrough"}

  predicate HasInternal(fields: Fields) { exists name :: name in INTERNAL && name in fields }

  function Stripped(fields: Fields): (r: Fields) { fields - INTERNAL }

  function FunctionCall(callId: Json, name: Json, arguments: string): (f: Fields) {
    map["type" := Str("function_call"), "call_id" := callId, "name" := name, "arguments" := Str(arguments)]
  }

  function FunctionOutput(callId: Json, output: string): (f: Fields) {
    map["type" := Str("function_call_output"), "call_id" := callId, "output" := Str(output)]
  }

  /** A string as it is, nothing for null, anything else printed. */
  function OutputText(v: Json, show: Json -> string): (s: string) {
    if v.Str? then v.s else if v.Null? then "" else show(v)
  }

  function ArgumentsText(v: Json, show: Json -> string): (s: string) {
    if v.Str? then v.s else if v.Null? then "{}" else show(v)
  }

  function OwnCallId(fields: Fields): (r: Option<Json>) {
    if HasText(fields, "call_id") then Some(fields["call_id"]) else None
  }

  /** The item's own call id, or its id, trimmed, in its place. */
  function EnsuredCallId(fields: Fields): (r: Option<Json>) {
    if HasText(fields, "call_id") then Some(fields["call_id"])
    else if HasText(fields, "id") then Some(Str(Trim(fields["id"].s)))
    else None
  }

  const NOT_ARGUMENTS: set<string> := {"type", "id", "call_id", "status", "name", "arguments"}

  /** The explicit action, else for some tools everything that describes the call. */
  function HostedArguments(fields: Fields, orRest: bool): (v: Json) {
    if "action" in fields then fields["action"]
    else if orRest then Obj(fields - NOT_ARGUMENTS)
    else Null
  }

  function CallOr(callId: Option<Json>, name: Json, arguments: string, otherwise: Outcome): (o: Outcome) {
    if callId.None? then otherwise else Keep(Obj(FunctionCall(callId.value, name, arguments)))
  }

  function OutputOr(callId: Option<Json>, output: string, otherwise: Outcome): (o: Outcome) {
    if callId.None? then otherwise else Keep(Obj(FunctionOutput(callId.value, output)))
  }

  /** A result the rewrite could not carry over. */
  predicate Carries(fields: Fields, name: string) { name in fields && !fields[name].Null? }

  // ----- Agent messages -----

  datatype PartOutcome = KeepPart(part: Json) | SkipPart | BadPart

  function NormalizedPart(part: Json): (o: PartOutcome) {
    if !part.Obj? then BadPart
    else
      var f := part.fields;
      match StringField(f, "type")
      case None => BadPart
      case Some(t) =>
        if t == "input_text" then (if StringField(f, "text").Some? then KeepPart(part) else BadPart)
        else if t == "encrypted_content" then
          (match StringField(f, "encrypted_content")
           case None => if "text" in f && f["text"].Null? then SkipPart else BadPart
           case Some(text) => KeepPart(Obj(f["type" := Str("input_text")]["text" := Str(text)] - {"encrypted_content"})))
        else BadPart
  }

  function NormalizedParts(parts: seq<Json>): (r: Option<seq<Json>>) {
    if parts == [] then Some([])
    else
      var before, last := NormalizedParts(parts[..|parts| - 1]), NormalizedPart(parts[|parts| - 1]);
      if before.None? || last.BadPart? then None
      else Some(if last.KeepPart? then before.value + [last.part] else before.value)
  }

  function NormalizedAgent(fields: Fields): (o: Outcome) {
    if "content" !in fields || !fields["content"].Arr? then Reject
    else
      match NormalizedParts(fields["content"].items)
      case None => Reject
      case Some(parts) =>
        if parts == [] then Drop
        else Keep(Obj(fields["content" := Arr(parts)]["type" := Str("message")]["role" := Str("user")]))
  }

  predicate IsTextPart(part: Json) {
    part.Obj? && StringField(part.fields, "type") == Some("input_text") && StringField(part.fields, "text").Some?
  }

  /** What is left of an agent message is text parts only. */
  lemma {:induction false} PartsAreText(parts: seq<Json>)
    requires NormalizedParts(parts).Some?
    ensures forall i :: 0 <= i < |NormalizedParts(parts).value| ==> IsTextPart(NormalizedParts(parts).value[i])
  {
    if parts != [] {
      PartsAreText(parts[..|parts| - 1]);
      if NormalizedPart(parts[|parts| - 1]).KeepPart? {
        PartIsText(parts[|parts| - 1]);
      }
    }
  }

  lemma {:induction false} PartIsText(part: Json)
    requires NormalizedPart(part).KeepPart?
    ensures IsTextPart(NormalizedPart(part).part)
  {
    assert "type" != "text" && "encrypted_content" != "type" && "encrypted_content" != "text";
  }

  // ----- One item -----

  /** Calls and outputs that must bring a call id of their own; the others may fall back on id. */
  predicate NeedsOwnCallId(kind: ItemType) {
    || kind.CustomToolCall? || kind.ToolSearchCall? || kind.ApplyPatchCall? || kind.Program?
    || kind.CustomToolCallOutput? || kind.ToolSearchOutput? || kind.ApplyPatchCallOutput? || kind.ProgramOutput?
    || kind.McpToolCallOutput?
  }

  function CallIdFor(kind: ItemType, f: Fields): (r: Option<Json>) {
    if NeedsOwnCallId(kind) then OwnCallId(f) else EnsuredCallId(f)
  }

  /** What happens without a call id: the search and MCP items are rejected, the others dropped. */
  function WithoutCallId(kind: ItemType): (o: Outcome) {
    if kind.ToolSearchCall? || kind.ToolSearchOutput? || kind.McpToolCall? || kind.McpToolCallOutput? then Reject else Drop
  }

  /** What else keeps a call from being rewritten. */
  function Refusal(kind: ItemType, f: Fields): (r: Option<Outcome>) {
    match kind
    case CustomToolCall => if HasText(f, "name") then None else Some(Drop)
    case McpToolCall => if HasText(f, "name") then None else Some(Reject)
    case FileSearchCall => if Carries(f, "results") then Some(Reject) else None
    case CodeInterpreterCall => if Carries(f, "outputs") then Some(Reject) else None
    case ImageGenerationCall => if Carries(f, "result") then Some(Reject) else None
    case _ => None
  }

  function CallName(kind: ItemType, f: Fields): (v: Json) {
    match kind
    case CustomToolCall => FieldOr(f, "name", Null)
    case McpToolCall => FieldOr(f, "name", Null)
    case ToolSearchCall => Str("tool_search")
    case ApplyPatchCall => Str("apply_patch")
    case Program => Str("program")
    case WebSearchCall => Str("web_search")
    case FileSearchCall => Str("file_search")
    case ComputerCall => Str("computer")
    case CodeInterpreterCall => Str("code_interpreter")
    case ImageGenerationCall => Str("image_generation")
    case _ => Str("local_shell")
  }

  function CallArguments(kind: ItemType, f: Fields, show: Json -> string): (s: string) {
    match kind
    case CustomToolCall => show(Obj(map["input" := Str(OutputText(FieldOr(f, "input", Null), show))]))
    case ToolSearchCall => ArgumentsText(FieldOr(f, "arguments", Null), show)
    case McpToolCall => ArgumentsText(FieldOr(f, "arguments", Null), show)
    case ApplyPatchCall => ArgumentsText(FieldOr(f, "operation", Null), show)
    case Program => show(Obj(map["code" := FieldOr(f, "code", Null), "fingerprint" := FieldOr(f, "fingerprint", Null)]))
    case FileSearchCall => ArgumentsText(HostedArguments(f, true), show)
    case CodeInterpreterCall => ArgumentsText(HostedArguments(f, true), show)
    case ImageGenerationCall => ArgumentsText(HostedArguments(f, true), show)
    case _ => ArgumentsText(HostedArguments(f, false), show)
  }

  function NormalizedCall(kind: ItemType, f: Fields, show: Json -> string): (o: Outcome) {
    var refusal := Refusal(kind, f);
    if refusal.Some? then refusal.value
    else CallOr(CallIdFor(kind, f), CallName(kind, f), CallArguments(kind, f, show), WithoutCallId(kind))
  }

  function StatusAnd(f: Fields, name: string, show: Json -> string): (s: string) {
    show(Obj(map["status" := FieldOr(f, "status", Null), name := FieldOr(f, name, Null)]))
  }

  function OutputOf(kind: ItemType, f: Fields, show: Json -> string): (s: string) {
    match kind
    case ToolSearchOutput => OutputText(FieldOr(f, "tools", Arr([])), show)
    case ApplyPatchCallOutput => StatusAnd(f, "output", show)
    case ProgramOutput => StatusAnd(f, "result", show)
    case _ => OutputText(FieldOr(f, "output", Null), show)
  }

  function NormalizedOutput(kind: ItemType, f: Fields, show: Json -> string): (o: Outcome) {
    OutputOr(CallIdFor(kind, f), OutputOf(kind, f, show), WithoutCallId(kind))
  }

  predicate IsCall(kind: ItemType) {
    || kind.CustomToolCall? || kind.ToolSearchCall? || kind.ApplyPatchCall? || kind.Program? || kind.McpToolCall?
    || kind.WebSearchCall? || kind.ComputerCall? || kind.ShellCall? || kind.FileSearchCall?
    || kind.CodeInterpreterCall? || kind.ImageGenerationCall?
  }

  predicate IsOutput(kind: ItemType) {
    || kind.CustomToolCallOutput? || kind.ToolSearchOutput? || kind.ApplyPatchCallOutput? || kind.ProgramOutput?
    || kind.McpToolCallOutput? || kind.ComputerCallOutput? || kind.CodeInterpreterCallOutput? || kind.ShellCallOutput?
  }

  /** The type an item declares, if it is an object with a string type. */
  function KindOf(item: Json, rules: Rules): (k: Option<ItemType>) {
    if item.Obj? && StringField(item.fields, "type").Some?
    then Some(rules.kind(StringField(item.fields, "type").value)) else None
  }

  function NormalizedTyped(kind: ItemType, f: Fields, show: Json -> string): (o: Outcome) {
    if kind.CompactionTrigger? then Drop
    else if kind.AgentMessage? then NormalizedAgent(f)
    else if IsCall(kind) then NormalizedCall(kind, f, show)
    else if IsOutput(kind) then NormalizedOutput(kind, f, show)
    else if kind.Unsupported? then Reject
    else Keep(Obj(Stripped(f)))
  }

  function Normalized(item: Json, rules: Rules): (o: Outcome) {
    if !item.Obj? then Keep(item)
    else
      match KindOf(item, rules)
      case None => Keep(Obj(Stripped(item.fields)))
      case Some(kind) => NormalizedTyped(kind, item.fields, rules.show)
  }

  // ----- The whole input -----

  /** None when some item is rejected. */
  function NormalizedAll(items: seq<Json>, rules: Rules): (r: Option<seq<Json>>) {
    if items == [] then Some([])
    else
      var before, last := NormalizedAll(items[..|items| - 1], rules), Normalized(items[|items| - 1], rules);
      if before.None? || last.Reject? then None
      else Some(if last.Keep? then before.value + [last.item] else before.value)
  }

  // ----- What a kept item looks like -----

  /** Not a type the rewrite handles: nothing left to rewrite or reject. */
  predicate Settled(item: Json, rules: Rules) {
    var k := KindOf(item, rules); k.Some? ==> k.value.OtherType?
  }

  /** A call id that is a string and not blank. */
  predicate Usable(callId: Option<Json>) {
    callId.Some? ==> callId.value.Str? && Trim(callId.value.s) != []
  }

  lemma {:induction false} CallIdIsUsable(kind: ItemType, f: Fields)
    ensures Usable(CallIdFor(kind, f))
  {
    if !HasText(f, "call_id") && HasText(f, "id") {
      TrimTrim(f["id"].s);
    }
  }

  /** A kept call is a function call with a usable call id. */
  predicate IsFunctionItem(item: Json) {
    && item.Obj?
    && (StringField(item.fields, "type") == Some("function_call") || StringField(item.fields, "type") == Some("function_call_output"))
    && HasText(item.fields, "call_id")
    && !HasInternal(item.fields)
  }

  lemma {:induction false} CallIsFunctionItem(callId: Json, name: Json, arguments: string)
    requires callId.Str? && Trim(callId.s) != []
    ensures IsFunctionItem(Obj(FunctionCall(callId, name, arguments)))
  {
    var f := FunctionCall(callId, name, arguments);
    assert "call_id" != "type" && "name" != "type" && "arguments" != "type" && "name" != "call_id" && "arguments" != "call_id";
    assert f["type"] == Str("function_call") && f["call_id"] == callId;
    NoInternalNames();
  }

  lemma {:induction false} OutputIsFunctionItem(callId: Json, output: string)
    requires callId.Str? && Trim(callId.s) != []
    ensures IsFunctionItem(Obj(FunctionOutput(callId, output)))
  {
    var f := FunctionOutput(callId, output);
    assert "call_id" != "type" && "output" != "type" && "output" != "call_id";
    assert f["type"] == Str("function_call_output") && f["call_id"] == callId;
    NoInternalNames();
  }

  lemma {:induction false} NoInternalNames()
    ensures INTERNAL !! {"type", "call_id", "name", "arguments", "output"}
  {
    assert |"phase"| == 5 && |"encrypted_function_args"| == 23 && |"internal_chat_message_metadata_passthrough"| == 42;
  }

  /** Every rewritten call or output that survives is a function item with a usable call id. */
  lemma {:induction false} KeptCallIsFunctionItem(kind: ItemType, f: Fields, show: Json -> string)
    ensures var o := NormalizedCall(kind, f, show); o.Keep? ==> IsFunctionItem(o.item)
    ensures var o := NormalizedOutput(kind, f, show); o.Keep? ==> IsFunctionItem(o.item)
  {
    var callId := CallIdFor(kind, f);
    CallIdIsUsable(kind, f);
    if callId.Some? {
      CallIsFunctionItem(callId.value, CallName(kind, f), CallArguments(kind, f, show));
      OutputIsFunctionItem(callId.value, OutputOf(kind, f, show));
    }
  }

  // ----- A second pass -----

  /** An item of another type is only stripped. */
  lemma {:induction false} SettledIsStripped(item: Json, rules: Rules)
    requires Settled(item, rules)
    ensures Normalized(item, rules) == Keep(if item.Obj? then Obj(Stripped(item.fields)) else item)
  {}

  lemma {:induction false} StrippedIsSettled(fields: Fields, rules: Rules)
    requires Settled(Obj(fields), rules)
    ensures Settled(Obj(Stripped(fields)), rules) && !HasInternal(Stripped(fields))
  {
    NoInternalNames();
    assert "type" !in INTERNAL;
  }

  lemma {:induction false} StrippedSameIff(fields: Fields)
    ensures Stripped(fields) == fields <==> !HasInternal(fields)
  {
    if HasInternal(fields) {
      var name :| name in INTERNAL && name in fields;
      assert name !in Stripped(fields);
    }
  }

  lemma {:induction false} FunctionItemIsSettled(item: Json, rules: Rules)
    requires Sensible(rules) && IsFunctionItem(item)
    ensures Settled(item, rules)
  {}

  lemma {:induction false} AgentBecomesMessage(fields: Fields, rules: Rules)
    requires Sensible(rules) && NormalizedAgent(fields).Keep?
    ensures var item := NormalizedAgent(fields).item;
            && item.Obj? && Settled(item, rules)
            && (HasInternal(item.fields) <==> HasInternal(fields))
  {
    var item := NormalizedAgent(fields).item;
    var parts := item.fields["content"];
    assert "role" != "type" && "content" != "type" && "content" != "role";
    assert StringField(item.fields, "type") == Some("message");
    NoInternalNames();
    assert INTERNAL !! {"content", "role", "type"} by {
      assert |"phase"| == 5 && |"encrypted_function_args"| == 23 && |"internal_chat_message_metadata_passthrough"| == 42;
    }
    forall name | name in INTERNAL
      ensures name in item.fields <==> name in fields
    {}
  }

  /** An encrypted part without any content, which is left out. */
  predicate Skipped(part: Json) {
    && part.Obj? && StringField(part.fields, "type") == Some("encrypted_content")
    && StringField(part.fields, "encrypted_content").None?
    && "text" in part.fields && part.fields["text"].Null?
  }

  predicate AllSkipped(parts: seq<Json>) { forall i :: 0 <= i < |parts| ==> Skipped(parts[i]) }

  /** At least one content part is not left out. */
  predicate HasContent(fields: Fields) {
    "content" in fields && fields["content"].Arr? && !AllSkipped(fields["content"].items)
  }

  lemma {:induction false} NothingKeptIff(parts: seq<Json>)
    requires NormalizedParts(parts).Some?
    ensures NormalizedParts(parts).value == [] <==> AllSkipped(parts)
  {
    if parts != [] {
      NothingKeptIff(parts[..|parts| - 1]);
      assert parts == parts[..|parts| - 1] + [parts[|parts| - 1]];
      SkippedIff(parts[|parts| - 1]);
    }
  }

  lemma {:induction false} SkippedIff(part: Json)
    ensures NormalizedPart(part).SkipPart? <==> Skipped(part)
  {
    assert "input_text" != "encrypted_content";
  }

  /** An agent message that is not rejected survives exactly when it has content. */
  lemma {:induction false} AgentSurvivesIff(fields: Fields)
    requires !NormalizedAgent(fields).Reject?
    ensures NormalizedAgent(fields).Keep? <==> HasContent(fields)
  {
    NothingKeptIff(fields["content"].items);
  }

  /** An agent message with an internal field and some content: the only item a second pass
      changes. */
  predicate Unstable(item: Json, rules: Rules) {
    KindOf(item, rules) == Some(AgentMessage) && HasInternal(item.fields) && HasContent(item.fields)
  }

  /** Whatever survives has no type left to rewrite or reject; a rewritten call or output is a
      function item with a usable call id; and a second pass keeps the item, unchanged unless it
      came from an agent message with an internal field. */
  lemma {:induction false} KeptItem(item: Json, rules: Rules)
    requires Sensible(rules) && Normalized(item, rules).Keep?
    ensures var o, k := Normalized(item, rules).item, KindOf(item, rules);
            && Settled(o, rules)
            && (k.Some? && (IsCall(k.value) || IsOutput(k.value)) ==> IsFunctionItem(o))
            && Normalized(o, rules).Keep?
            && (Normalized(o, rules) == Keep(o) <==> !Unstable(item, rules))
  {
    var o, k := Normalized(item, rules).item, KindOf(item, rules);
    if item.Obj? {
      StrippedSameIff(o.fields);
      if k.None? || !(k.value.AgentMessage? || IsCall(k.value) || IsOutput(k.value)) {
        StrippedIsSettled(item.fields, rules);
      } else if k.value.AgentMessage? {
        AgentBecomesMessage(item.fields, rules);
        AgentSurvivesIff(item.fields);
      } else {
        KeptCallIsFunctionItem(k.value, item.fields, rules.show);
        FunctionItemIsSettled(o, rules);
      }
      SettledIsStripped(o, rules);
    }
  }

  // ----- The input as a whole -----

  /** The positions of the items that survive. */
  function Survivors(items: seq<Json>, rules: Rules): (s: seq<nat>) {
    if items == [] then []
    else
      var n := |items| - 1;
      Survivors(items[..n], rules) + if Normalized(items[n], rules).Keep? then [n] else []
  }

  predicate Rising(s: seq<nat>, bound: nat) {
    && (forall i, j :: 0 <= i < j < |s| ==> s[i] < s[j])
    && (forall i :: 0 <= i < |s| ==> s[i] < bound)
  }

  lemma {:induction false} SurvivorsRise(items: seq<Json>, rules: Rules)
    ensures Rising(Survivors(items, rules), |items|)
    ensures forall i :: 0 <= i < |items| ==> (i in Survivors(items, rules) <==> Normalized(items[i], rules).Keep?)
  {
    if items != [] {
      var n := |items| - 1;
      SurvivorsRise(items[..n], rules);
      assert forall i :: 0 <= i < n ==> items[..n][i] == items[i];
    }
  }

  /** The input is refused exactly when some item is rejected; otherwise the output is the
      rewritten survivors, in their order. */
  lemma {:induction false} OutputIsSurvivors(items: seq<Json>, rules: Rules)
    ensures NormalizedAll(items, rules).None? <==> exists i :: 0 <= i < |items| && Normalized(items[i], rules).Reject?
    ensures var r, s := NormalizedAll(items, rules), Survivors(items, rules);
            r.Some? ==>
              && |r.value| == |s| && Rising(s, |items|)
              && forall i :: 0 <= i < |s| ==> Normalized(items[s[i]], rules) == Keep(r.value[i])
  {
    SurvivorsRise(items, rules);
    if items != [] {
      var n := |items| - 1;
      OutputIsSurvivors(items[..n], rules);
      SurvivorsRise(items[..n], rules);
      assert forall i :: 0 <= i < n ==> items[..n][i] == items[i];
      assert NormalizedAll(items, rules).None? <==> NormalizedAll(items[..n], rules).None? || Normalized(items[n], rules).Reject?;
    }
  }

  /** No item of the output has a type the rewrite handles. */
  lemma {:induction false} OutputIsSettled(items: seq<Json>, rules: Rules)
    requires Sensible(rules) && NormalizedAll(items, rules).Some?
    ensures forall i :: 0 <= i < |NormalizedAll(items, rules).value| ==> Settled(NormalizedAll(items, rules).value[i], rules)
  {
    if items != [] {
      OutputIsSettled(items[..|items| - 1], rules);
      if Normalized(items[|items| - 1], rules).Keep? {
        KeptItem(items[|items| - 1], rules);
      }
    }
  }

  lemma {:induction false} NormalizedAllPush(items: seq<Json>, item: Json, rules: Rules)
    ensures NormalizedAll(items + [item], rules) ==
            var before, last := NormalizedAll(items, rules), Normalized(item, rules);
            if before.None? || last.Reject? then None
            else Some(if last.Keep? then before.value + [last.item] else before.value)
  {
    assert (items + [item])[..|items|] == items;
  }

  /** Normalising an output again always succeeds and keeps every item; it changes nothing exactly
      when no agent message with an internal field has any content. */
  lemma {:induction false} IdempotentIff(items: seq<Json>, rules: Rules)
    requires Sensible(rules) && NormalizedAll(items, rules).Some?
    ensures var out := NormalizedAll(items, rules).value;
            && NormalizedAll(out, rules).Some? && |NormalizedAll(out, rules).value| == |out|
            && (NormalizedAll(out, rules) == Some(out) <==> NoneUnstable(items, rules))
  {
    if items != [] {
      var n := |items| - 1;
      var before := NormalizedAll(items[..n], rules).value;
      IdempotentIff(items[..n], rules);
      assert NoneUnstable(items, rules) <==> NoneUnstable(items[..n], rules) && !Unstable(items[n], rules) by {
        assert items == items[..n] + [items[n]];
      }
      if Normalized(items[n], rules).Keep? {
        var o := Normalized(items[n], rules).item;
        KeptItem(items[n], rules);
        NormalizedAllPush(before, o, rules);
        LastSplits(NormalizedAll(before, rules).value, Normalized(o, rules).item, before, o);
      } else {
        DroppedIsStable(items[n], rules);
      }
    }
  }

  lemma {:induction false} DroppedIsStable(item: Json, rules: Rules)
    requires Normalized(item, rules).Drop?
    ensures !Unstable(item, rules)
  {
    if KindOf(item, rules) == Some(AgentMessage) {
      AgentSurvivesIff(item.fields);
    }
  }

  predicate NoneUnstable(items: seq<Json>, rules: Rules) {
    forall i :: 0 <= i < |items| ==> !Unstable(items[i], rules)
  }

  lemma {:induction false} LastSplits<T>(a: seq<T>, x: T, b: seq<T>, y: T)
    requires |a| == |b|
    ensures a + [x] == b + [y] <==> a == b && x == y
  {
    if a + [x] == b + [y] {
      assert (a + [x])[..|a|] == a && (b + [y])[..|b|] == b;
      assert (a + [x])[|a|] == x && (b + [y])[|b|] == y;
    }
  }

  /** Two passes are always enough. */
  lemma {:induction false} TwiceIsStable(items: seq<Json>, rules: Rules)
    requires Sensible(rules) && NormalizedAll(items, rules).Some?
    ensures var out := NormalizedAll(items, rules).value;
            && NormalizedAll(out, rules).Some?
            && NormalizedAll(NormalizedAll(out, rules).value, rules) == NormalizedAll(out, rules)
  {
    var out := NormalizedAll(items, rules).value;
    IdempotentIff(items, rules);
    OutputIsSettled(items, rules);
    IdempotentIff(out, rules);
  }

  /** The rules the providers use. */
  function ProviderRules(show: Json -> string): (rules: Rules) { Rules(TypeOf, show) }

  lemma {:induction false} ProviderRulesAreSensible(show: Json -> string)
    ensures Sensible(ProviderRules(show))
  {
    ProducedTypesAreOther();
  }

  const HELLO: Json := Obj(map["type" := Str("input_text"), "text" := Str("hello")])

  lemma {:induction false} HelloIsKept()
    ensures NormalizedParts([HELLO]) == Some([HELLO])
  {
    assert "text" != "type";
    var f := HELLO.fields;
    assert StringField(f, "type") == Some("input_text") && StringField(f, "text") == Some("hello");
    assert NormalizedPart(HELLO) == KeepPart(HELLO);
    OnePart([HELLO], HELLO);
  }

  lemma {:induction false} OnePart(parts: seq<Json>, part: Json)
    requires parts == [part] && NormalizedPart(part) == KeepPart(part)
    ensures NormalizedParts(parts) == Some(parts)
  {
    var none: seq<Json> := [];
    assert parts[..|parts| - 1] == none && none + [part] == parts;
  }

  /** An agent message with an internal field: normalised once it still carries the field,
      normalised twice it does not. */
  lemma {:induction false} AgentMessageIsNotIdempotent(rules: Rules)
    requires Sensible(rules) && rules.kind("agent_message") == AgentMessage
    ensures var item := Obj(map["type" := Str("agent_message"), "content" := Arr([HELLO]), "phase" := Null]);
            && NormalizedAll([item], rules).Some?
            && NormalizedAll(NormalizedAll([item], rules).value, rules) != NormalizedAll([item], rules)
  {
    var f := map["type" := Str("agent_message"), "content" := Arr([HELLO]), "phase" := Null];
    var item := Obj(f);
    assert NormalizedAgent(f).Keep? by {
      HelloIsKept();
      assert "content" in f && "phase" != "content" && f["content"] == Arr([HELLO]);
    }
    assert StringField(f, "type") == Some("agent_message") by { assert "content" != "type" && "phase" != "type"; }
    assert HasInternal(f) by { assert "phase" in INTERNAL && "phase" in f; }
    assert Normalized(item, rules) == NormalizedAgent(f);
    AgentSurvivesIff(f);
    OneItem(item, rules);
  }

  lemma {:induction false} OneItem(item: Json, rules: Rules)
    requires Sensible(rules) && Unstable(item, rules) && Normalized(item, rules).Keep?
    ensures NormalizedAll([item], rules).Some?
    ensures NormalizedAll(NormalizedAll([item], rules).value, rules) != NormalizedAll([item], rules)
  {
    NormalizedAllPush([], item, rules);
    assert [] + [item] == [item];
    IdempotentIff([item], rules);
    assert Unstable([item][0], rules);
  }
}
