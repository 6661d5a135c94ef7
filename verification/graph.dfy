/** The agent graph: the `llm_call` node, the `should_continue` router, the
    wiring between `llm_call` and `tool_node`, and a step-bounded run. */
module Graph {
  import opened Messages
  import opened Tools

  /** The analyst persona handed to the model before the conversation. */
  const Directive: string :=
    "You are a Senior SOC Analyst. \n"
    + "    1. Analyze logs for SQLi, XSS, Brute Force, or Directory Traversal.\n"
    + "    2. Use 'tavily_search_tool' to investigate suspicious IPs or payloads.\n"
    + "    3. Once the analysis is complete and a threat is confirmed, use 'send_security_alert' to notify the admin.\n"
    + "    4. If it's a false alarm, explain why and stop."

  /** The step budget the analyser passes for one log line. */
  const StepLimit: nat := 10

  /** What the language model answers: a message with zero or more tool
      calls, or a raised backend error. */
  datatype Reply = Replied(content: string, toolCalls: seq<ToolCall>) | Failed(reason: string)

  /** The language model with the tools bound, as an oracle over its input. */
  type Model = seq<Message> -> Reply

  /** Everything a run depends on besides the conversation. */
  datatype Agent = Agent(model: Model, registry: Registry)

  /** The two nodes of the graph: `llm_call` and `tool_node`. */
  datatype Node = LlmCall | ToolStep

  /** Where control goes after a node: another node, or the end of the run. */
  datatype Target = Goto(node: Node) | End

  /** The run's observable output: the conversation and the number of node
      executions, with the fault when the run ended abnormally. */
  datatype RunResult =
    | Finished(messages: seq<Message>, steps: nat)
    | Aborted(fault: Fault, messages: seq<Message>, steps: nat)

  /** The model's input: the directive in front of the stored conversation. */
  function Prompt(msgs: seq<Message>): (p: seq<Message>)
    ensures |p| == |msgs| + 1 && p[0] == System(Directive) && p[1..] == msgs
  {
    [System(Directive)] + msgs
  }

  /** `llm_call`: one model consultation, whose reply is the node's whole
      contribution to the state. */
  function LlmCallNode(model: Model, msgs: seq<Message>): (r: Result<seq<Message>>)
    ensures r.Ok? <==> model(Prompt(msgs)).Replied?
    ensures r.Ok? ==> |r.value| == 1 && r.value[0].Assistant?
    ensures r.Ok? ==> r.value[0].content == model(Prompt(msgs)).content
    ensures r.Ok? ==> r.value[0].toolCalls == model(Prompt(msgs)).toolCalls
    ensures model(Prompt(msgs)).Failed? ==> r == Err(BackendFailed(model(Prompt(msgs)).reason))
  {
    match model(Prompt(msgs))
    case Replied(content, calls) => Ok([Assistant(content, calls)])
    case Failed(reason) => Err(BackendFailed(reason))
  }

  /** `should_continue`: go to the tools exactly when the newest message
      asks for tools; end when it is a model message asking for nothing. */
  function ShouldContinue(msgs: seq<Message>): (r: Result<Target>)
    ensures r == Ok(Goto(ToolStep)) <==> |msgs| > 0 && HasPendingCalls(Last(msgs))
    ensures r == Ok(End) <==> |msgs| > 0 && IsFinalAnswer(Last(msgs))
    ensures r.Ok? ==> r == Ok(Goto(ToolStep)) || r == Ok(End)
    ensures |msgs| == 0 ==> r == Err(EmptyState)
  {
    if |msgs| == 0 then Err(EmptyState)
    else
      var last := msgs[|msgs| - 1];
      if !last.Assistant? then Err(NoToolCalls)
      else if |last.toolCalls| > 0 then Ok(Goto(ToolStep))
      else Ok(End)
  }

  /** Executes one node and returns the messages it adds. */
  function Execute(agent: Agent, node: Node, msgs: seq<Message>): Result<seq<Message>> {
    match node
    case LlmCall => LlmCallNode(agent.model, msgs)
    case ToolStep => ToolNode(agent.registry, msgs)
  }

  /** The graph's edges: `tool_node` always hands back to `llm_call`;
      `llm_call` goes where `should_continue` says. Only `llm_call` can end
      the run, and no node is followed by itself. */
  function Route(node: Node, msgs: seq<Message>): (r: Result<Target>)
    ensures node == ToolStep ==> r == Ok(Goto(LlmCall))
    ensures r == Ok(End) ==> node == LlmCall
    ensures r.Ok? && r.value.Goto? ==> r.value.node != node
  {
    match node
    case LlmCall => ShouldContinue(msgs)
    case ToolStep => Ok(Goto(LlmCall))
  }

  /** Runs the graph from `node` with `step` node executions already spent.
      Each node's messages are appended to the state; a node due once
      `limit` executions have happened aborts the run instead. */
  function Run(agent: Agent, limit: nat, step: nat, node: Node, msgs: seq<Message>): (r: RunResult)
    requires step <= limit
    ensures step <= r.steps <= limit
    ensures msgs <= r.messages
    ensures r.Finished? ==> |r.messages| > |msgs| && IsFinalAnswer(Last(r.messages))
    ensures r.Aborted? && r.fault == RecursionLimit ==> r.steps == limit
    decreases limit - step
  {
    if step == limit then Aborted(RecursionLimit, msgs, step)
    else
      match Execute(agent, node, msgs)
      case Err(f) => Aborted(f, msgs, step + 1)
      case Ok(delta) =>
        var next := msgs + delta;
        match Route(node, next)
        case Err(f) => Aborted(f, msgs, step + 1)
        case Ok(End) => Finished(next, step + 1)
        case Ok(Goto(n)) => Run(agent, limit, step + 1, n, next)
  }

  /** `agent.invoke`: a fresh run that starts at `llm_call`. */
  function Invoke(agent: Agent, input: seq<Message>, limit: nat): (r: RunResult)
    ensures input <= r.messages && r.steps <= limit
    ensures r.Finished? ==> |r.messages| > |input| && IsFinalAnswer(Last(r.messages))
  {
    Run(agent, limit, 0, LlmCall, input)
  }

  /** The analyser's entry: one log line as the only human message, under
      the fixed step budget. */
  function AnalyzeLogLine(agent: Agent, line: string): (r: RunResult)
    ensures [Human(line)] <= r.messages && r.steps <= StepLimit
    ensures r.Finished? ==> |r.messages| >= 2 && IsFinalAnswer(Last(r.messages))
  {
    Invoke(agent, [Human(line)], StepLimit)
  }

  /** A superstep-style loop (execute the due node, route, append, stop at
      the limit), proved to compute `Invoke`. */
  method InvokeLoop(agent: Agent, input: seq<Message>, limit: nat) returns (r: RunResult)
    ensures r == Invoke(agent, input, limit)
    ensures r.steps <= limit && input <= r.messages
  {
    var node := LlmCall;
    var msgs := input;
    var step := 0;
    while true
      invariant step <= limit
      invariant Run(agent, limit, step, node, msgs) == Invoke(agent, input, limit)
      decreases limit - step
    {
      if step == limit {
        return Aborted(RecursionLimit, msgs, step);
      }
      var delta := Execute(agent, node, msgs);
      if delta.Err? {
        return Aborted(delta.fault, msgs, step + 1);
      }
      var next := msgs + delta.value;
      var target := Route(node, next);
      if target.Err? {
        return Aborted(target.fault, msgs, step + 1);
      }
      msgs := next;
      step := step + 1;
      if target.value.End? {
        return Finished(msgs, step);
      }
      node := target.value.node;
    }
  }
}
