/** Provider-neutral values exchanged by the LLM runtime, the tools and the agent loop. */
module LlmTypes {
  import opened Prelude

  datatype Json =
    | JNull
    | JBool(b: bool)
    | JInt(i: int)
    | JReal(r: real)
    | JStr(s: string)
    | JArr(items: seq<Json>)
    | JObj(fields: map<string, Json>)

  datatype ToolCall = ToolCall(id: string, name: string, arguments: map<string, Json>, provider: string, model: string, metadata: Json)

  /** The metadata the loop attaches to messages; anything a caller attaches is `OtherMeta`. */
  datatype Meta =
    | NoMeta
    | CallsMeta(calls: seq<ToolCall>, provider: string, model: string)
    | ResultMeta(callId: string, name: string, success: bool)
    | OtherMeta(value: Json)

  datatype Message = Message(role: string, content: string, meta: Meta)

  datatype Usage = Usage(prompt: Option<nat>, completion: Option<nat>, total: Option<nat>)

  datatype Response = Response(content: string, model: string, provider: string, usage: Option<Usage>, metadata: Json, toolCalls: seq<ToolCall>)

  datatype ToolDefinition = ToolDefinition(name: string, description: string, schema: map<string, Json>)

  datatype ToolResult = ToolResult(callId: string, name: string, content: string, success: bool, error: Option<string>)

  const EmptyMeta: Json := JObj(map[])
}
