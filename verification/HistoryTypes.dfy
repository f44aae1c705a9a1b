/** The item types of a Responses history, and the JSON values that carry them. */
module HistoryTypes {
  import opened Wrappers
  import opened Text

  datatype Json =
    | Null
    | Bool(b: bool)
    | Number(text: string)
    | Str(s: string)
    | Arr(items: seq<Json>)
    | Obj(fields: Fields)

  type Fields = map<string, Json>

  datatype ItemType =
    | CompactionTrigger | AgentMessage
    | CustomToolCall | CustomToolCallOutput | ToolSearchCall | ToolSearchOutput
    | ApplyPatchCall | ApplyPatchCallOutput | Program | ProgramOutput
    | WebSearchCall | FileSearchCall | ComputerCall | ComputerCallOutput
    | CodeInterpreterCall | CodeInterpreterCallOutput | ImageGenerationCall
    | ShellCall | ShellCallOutput | McpToolCall | McpToolCallOutput
    | Unsupported
    | OtherType

  /** Types by length, then by text. */
  function TypeOf(t: string): (k: ItemType) {
    if |t| < 17 then ShortType(t) else LongType(t)
  }

  function ShortType(t: string): (k: ItemType) {
    if t == "program" then Program
    else if t == "mcp_call" then Unsupported
    else if t == "shell_call" then ShellCall
    else if t == "agent_message" then AgentMessage
    else if t == "computer_call" then ComputerCall
    else if t == "mcp_tool_call" then McpToolCall
    else if t == "program_output" then ProgramOutput
    else if t == "mcp_list_tools" then Unsupported
    else if t == "web_search_call" then WebSearchCall
    else if t == "custom_tool_call" then CustomToolCall
    else if t == "tool_search_call" then ToolSearchCall
    else if t == "apply_patch_call" then ApplyPatchCall
    else if t == "file_search_call" then FileSearchCall
    else if t == "local_shell_call" then ShellCall
    else OtherType
  }

  function LongType(t: string): (k: ItemType) {
    if t == "shell_call_output" then ShellCallOutput
    else if t == "compaction_trigger" then CompactionTrigger
    else if t == "tool_search_output" then ToolSearchOutput
    else if t == "context_compaction" then Unsupported
    else if t == "computer_call_output" then ComputerCallOutput
    else if t == "mcp_tool_call_output" then McpToolCallOutput
    else if t == "mcp_approval_request" then Unsupported
    else if t == "code_interpreter_call" then CodeInterpreterCall
    else if t == "image_generation_call" then ImageGenerationCall
    else if t == "mcp_approval_response" then Unsupported
    else if t == "custom_tool_call_output" then CustomToolCallOutput
    else if t == "apply_patch_call_output" then ApplyPatchCallOutput
    else if t == "local_shell_call_output" then ShellCallOutput
    else if t == "code_interpreter_call_output" then CodeInterpreterCallOutput
    else OtherType
  }

  /** The types the rewrite produces are left alone by it. */
  lemma {:induction false} ProducedTypesAreOther()
    ensures TypeOf("message") == OtherType
    ensures TypeOf("function_call") == OtherType
    ensures TypeOf("function_call_output") == OtherType
  {
    MessageIsOther("message");
    FunctionCallIsOther("function_call");
    FunctionOutputIsOther("function_call_output");
  }

  lemma {:induction false} MessageIsOther(t: string)
    requires |t| == 7 && t[0] == 'm'
    ensures TypeOf(t) == OtherType
  {
    assert "program"[0] == 'p';
  }

  lemma {:induction false} FunctionCallIsOther(t: string)
    requires |t| == 13 && t[0] == 'f'
    ensures TypeOf(t) == OtherType
  {
    assert "agent_message"[0] == 'a' && "computer_call"[0] == 'c' && "mcp_tool_call"[0] == 'm';
  }

  lemma {:induction false} FunctionOutputIsOther(t: string)
    requires |t| == 20 && t[0] == 'f'
    ensures TypeOf(t) == OtherType
  {
    assert "computer_call_output"[0] == 'c' && "mcp_tool_call_output"[0] == 'm' && "mcp_approval_request"[0] == 'm';
  }

  // ----- Fields -----

  function StringField(fields: Fields, name: string): (r: Option<string>) {
    if name in fields && fields[name].Str? then Some(fields[name].s) else None
  }

  /** A string that is not blank. */
  predicate HasText(fields: Fields, name: string) {
    var v := StringField(fields, name); v.Some? && Trim(v.value) != []
  }

  function FieldOr(fields: Fields, name: string, default: Json): (v: Json) {
    if name in fields then fields[name] else default
  }
}
