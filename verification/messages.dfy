/** The conversation state of the SOC analyst agent: messages, tool calls and
    the faults that end a run abnormally. */
module Messages {

  /** Keyword arguments of one tool call. Argument values are kept as text,
      which is what both tools of the agent accept. */
  type Args = map<string, string>

  /** One tool invocation requested by the language model: which tool, with
      which arguments, and the correlation id its observation must carry. */
  datatype ToolCall = ToolCall(name: string, args: Args, id: string)

  /** The message roles of the conversation. `System` only ever appears in
      the input handed to the language model, never in the stored state. */
  datatype Message =
    | System(content: string)
    | Human(content: string)
    | Assistant(content: string, toolCalls: seq<ToolCall>)
    | Observation(content: string, toolCallId: string)

  /** What a tool raises instead of returning. */
  datatype ToolError =
    | MissingArgument(arg: string)   // the argument map fails the tool's schema
    | CapabilityError(reason: string) // the capability itself raised

  /** Why a node, and with it the whole run, stops abnormally. */
  datatype Fault =
    | EmptyState                        // the newest message of an empty list was read
    | NoToolCalls                       // `tool_calls` read on a message the model did not write
    | UnknownTool(name: string)         // the registry has no tool of that name
    | ToolRaised(name: string, error: ToolError)
    | BackendFailed(reason: string)     // the language-model call raised
    | RecursionLimit                    // a node was due after the step budget was spent

  datatype Result<+T> = Ok(value: T) | Err(fault: Fault)

  function Last(msgs: seq<Message>): Message
    requires |msgs| > 0
  {
    msgs[|msgs| - 1]
  }

  /** A model message that still asks for tools to be run. */
  predicate HasPendingCalls(m: Message) {
    m.Assistant? && |m.toolCalls| > 0
  }

  /** A model message that asks for nothing more: the normal end of a run. */
  predicate IsFinalAnswer(m: Message) {
    m.Assistant? && |m.toolCalls| == 0
  }

  /** `obs` answers `calls`: one observation per call, in call order, each
      tagged with the id of the call it answers. */
  predicate Answers(calls: seq<ToolCall>, obs: seq<Message>) {
    && |obs| == |calls|
    && forall i :: 0 <= i < |obs| ==> obs[i].Observation? && obs[i].toolCallId == calls[i].id
  }
}
