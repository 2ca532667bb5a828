/**
 * The values the conversation turn works on: the chat messages kept in a
 * user's history, the tool calls a model response carries, and what a tool
 * invocation produces.
 */
module Messages {

  /** Tool arguments as the model supplies them: parameter name to the value's text. */
  type Args = map<string, string>

  /** One entry of a response's tool calls: a correlation id, a tool name and its arguments. */
  datatype ToolCall = ToolCall(id: string, name: string, args: Args)

  /** A model response: its text content and the tool calls it requests (possibly none). */
  datatype Response = Response(content: string, toolCalls: seq<ToolCall>)

  /** The four kinds of message a history holds. */
  datatype Message =
    | SystemMessage(content: string)
    | HumanMessage(content: string)
    | AIMessage(response: Response)
    | ToolMessage(content: string, toolCallId: string)

  /** One invocation of a registered tool, with the arguments it actually received. */
  datatype Invocation = Invocation(tool: string, args: Args)

  /** What invoking a tool gives: its returned text, or the message of the exception it raised. */
  datatype Outcome = Ok(value: string) | Fail(msg: string)

  /**
   * The tools' behaviour, an oracle: the outcome of an invocation, given every
   * invocation made before it. Tools read the clock and a remote calendar that
   * earlier invocations may have changed, so an outcome may depend on that past.
   */
  type ToolEnv = (seq<Invocation>, Invocation) -> Outcome
}
