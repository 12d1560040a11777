/** The vendor-neutral message model the adapter receives from, and returns
    to, its caller (the `ai` package). Only the fields the adapter reads or
    writes are modelled. */
module Ai {
  import opened GoText

  /** One tool invocation: `ai.ToolCall`'s ID, Type, Name and Args. */
  datatype ToolCall = ToolCall(id: string, kind: string, name: string, args: string)

  /** Response metadata attached to an assistant message (`ai.Response`). */
  datatype Response = Response(id: string, objectKind: string, created: int, model: string)

  const NoResponse := Response("", "", 0, "")

  /** The dynamically typed `Body` of a resource message: raw bytes, a string,
      nothing (nil), or a value of some other type, identified by `tag`. */
  datatype Body = BytesBody(bytes: seq<Byte>) | StringBody(text: string) | NilBody | OtherBody(tag: nat)

  /** The closed set of message kinds. Every kind carries its role. */
  datatype Message =
    | UserMessage(role: string, content: string)
    | AIMessage(role: string, content: string, think: string, toolCalls: seq<ToolCall>, response: Response)
    | ToolMessage(role: string, content: string, toolCallId: string)
    | SystemMessage(role: string, content: string)
    | ResourceMessage(role: string, uri: string, name: string, description: string, mimeType: string, body: Body)

  /** A tool declaration: name, description and JSON input schema, the last
      carried as its text. */
  datatype Tool = Tool(name: string, description: string, inputSchema: string)
}
