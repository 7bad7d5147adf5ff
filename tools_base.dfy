/**
 * What every tool shares (src/tools/mod.rs): the result split between the
 * model and the user, the context handed to each execution, and the JSON
 * shape of a parameter schema.
 */
module ToolBase {
  import opened Wrappers
  import opened Json
  import Memory

  /** A tool's answer: the text for the model, and optionally a text for the user. */
  datatype ToolResult = ToolResult(forLlm: string, forUser: Option<string>)

  /** The answer of the tools that set only the text for the model. */
  function ForLlm(text: string): (r: ToolResult)
    ensures r.forLlm == text && r.forUser.None?
  {
    ToolResult(text, None)
  }

  /**
   * What a tool execution sees: the memory store, the base directory, and
   * the parts of the outside world the tools read (the local date, the home
   * directory, path resolution and files outside the memory store).
   */
  datatype ToolContext = ToolContext(
    memory: Memory.MemoryManager,
    baseDir: string,
    today: string,
    home: Option<string>,
    canonicalize: string -> Result<string, string>,
    readFile: string -> Result<string, string>,
    external: map<string, string>)

  function StrSchema(): Json {
    Object(map["type" := Str("string")])
  }

  function EnumSchema(values: seq<string>): Json {
    Object(map["type" := Str("string"), "enum" := Array(seq(|values|, i requires 0 <= i < |values| => Str(values[i])))])
  }

  /** `{ "type": "object", "properties": .., "required": [..] }`. */
  function ObjectSchema(properties: map<string, Json>, required: seq<string>): (r: Json)
    ensures r.Object? && Get(r, "type") == Str("object") && Get(r, "properties") == Object(properties)
  {
    Object(map[
      "type" := Str("object"),
      "properties" := Object(properties),
      "required" := Array(seq(|required|, i requires 0 <= i < |required| => Str(required[i])))])
  }
}
