/** The values exchanged between the chatbot, the language-model service and the
    tools: content blocks of a model response, the messages of the conversation
    history, tool-result content and the errors a turn can raise.
 */
module Messages {

  datatype Option<+T> = None | Some(value: T)

  datatype Result<+T, +E> = Ok(value: T) | Err(error: E)

  /** The arguments of a tool call (`content.input`), a mapping from parameter
      name to the argument's text. */
  type Args = map<string, string>

  /** One unit of model output: `content.type == "text"` or `"tool_use"`. */
  datatype Block =
    | Text(text: string)
    | ToolUse(id: string, name: string, input: Args)

  /** `response.content`: the ordered blocks of one model response. */
  type Response = seq<Block>

  /** A dictionary returned by a tool, as ordered key/value pairs. */
  type Dict = seq<(string, string)>

  /** The `content` of a tool result. `JsonText(d)` stands for the text
      `json.dumps(d, indent=2)`, whose formatting is not modelled; `Parts(ps)` is
      the content list of an MCP tool result, one text per content item. */
  datatype Content =
    | Plain(text: string)
    | JsonText(dict: Dict)
    | Parts(parts: seq<string>)

  /** One entry of `messages`, as the model service receives it:
      `{'role': 'user', 'content': query}`, an assistant entry holding blocks,
      or a user entry holding exactly one `tool_result`. */
  datatype Msg =
    | UserQuery(query: string)
    | Assistant(blocks: seq<Block>)
    | ToolResult(toolUseId: string, content: Content)

  /** The Python exceptions that escape a call of `process_query`. */
  datatype Error =
    | KeyError(key: string)        // `mapping_tool_function[tool_name]` with an unknown name
    | AttributeError(attr: string) // attribute looked up on a value that lacks it

  /** One call of the model service: the history and the tool catalog it was given. */
  datatype Request<C> = Request(history: seq<Msg>, catalog: C)

  function Last<T>(s: seq<T>): T
    requires |s| > 0
  {
    s[|s| - 1]
  }

  predicate IsPrefix<T(==)>(p: seq<T>, s: seq<T>) {
    |p| <= |s| && s[..|p|] == p
  }

  predicate HasToolUse(r: Response) {
    exists i :: 0 <= i < |r| && r[i].ToolUse?
  }
}
