/** The protocol library's value types, reduced to what the router and the
    notes server look at. */
module McpTypes {

  /** A JSON-like Python value: what `handle_initialize` and `handle_ping` receive.
      `JNull` is Python's `None`; `JObject` is a `dict` with string keys. */
  datatype Json =
    | JNull
    | JBool(b: bool)
    | JNumber(n: int)
    | JString(s: string)
    | JArray(items: seq<Json>)
    | JObject(fields: map<string, Json>)

  /** A tool description: its name plus metadata the router passes through untouched. */
  datatype Tool = Tool(name: string, description: string)

  /** One item of a tool-call result. */
  datatype Content =
    | TextContent(text: string)
    | ImageContent(data: string, mimeType: string)
    | EmbeddedResource(uri: string)

  /** A listed resource and a listed prompt; the notes server lists none of either. */
  datatype Resource = Resource(uri: string, name: string)
  datatype Prompt = Prompt(name: string, description: string)

  /** The argument dictionary of a tool call, with its values taken as text. */
  type Arguments = map<string, string>
}
