# SOC analyst agent: the decision loop

The SOC analyst agent reads one log line and hands it to a language model. The model has two tools bound to it: a threat-intelligence web search and an alert sent to the administrator. The agent is a two-node graph. `llm_call` asks the model for its next message and appends the reply to the conversation. `should_continue` then routes to `tool_node` when that reply asks for tools; otherwise the run ends. `tool_node` looks up each requested tool by name, invokes it, and appends one observation per request, tagged with the request's correlation id. Control then returns to `llm_call`. A run is limited to ten node executions.

This project models that loop in Dafny:

- `messages.dfy` (module `Messages`): messages, tool calls, and the faults that end a run.
- `tools.dfy` (module `Tools`): the name-keyed registry, single-call dispatch, and `tool_node`. It has a pure definition and the loop as written.
- `soc_tools.dfy` (module `SocTools`): the two registered tools. Their network effects are oracles.
- `graph.dfy` (module `Graph`): `llm_call`, `should_continue`, the graph edges, and the step-bounded run. It has a recursive definition and a superstep-style loop proved equal to it.
- `transcript.dfy` (module `Transcript`): the shape of the conversation every run leaves behind. It covers ordering and correlation of observations, how a run ends, and the step bound.
- `scenarios.dfy` (module `Scenarios`): whole runs under particular model behaviours.

The language model is an uninterpreted function from the model's input (directive plus conversation) to a reply. The search backend and the alert delivery are uninterpreted functions as well. The properties of the `Tools`, `Graph` and `Transcript` rows hold whatever these functions return. The `Scenarios` rows fix how the oracles behave (a reply with no calls, a model that always calls tools, two given replies) and state what a run does under that behaviour.

Two facts about the code shape the model:

- A fault raised by a tool is not turned into an observation. `tool.invoke` at main.py:98 has no handler, so such a fault aborts the run like an unknown tool name does. Only the alert tool turns its own delivery failures into status text.
- The code has no log-watching driver and no persistence tool. The entry point analyses one fixed log line (main.py:140-141).

## Model

| member | source | states |
|---|---|---|
| Tools.RegistryOf | main.py:67-68 | The registry's keys are exactly the names of the listed tools. |
| Tools.RegistryOfLastWins | main.py:68 | When two listed tools share a name, the name maps to the last of them, as in the dict comprehension. |
| Tools.Dispatch | main.py:97-99 | A call succeeds iff its name is registered and the tool returns. The observation's content is the tool's returned text and its id is the call's id. An unregistered name gives `UnknownTool`; a raising tool gives `ToolRaised` with that tool's name and error. |
| Tools.DispatchAll | main.py:93-100 | The batch succeeds iff every call succeeds. It then yields one observation per call, in call order, each equal to that call's own result. Otherwise its fault is that of a failing call with only successes before it. |
| Tools.ToolNode | main.py:90-100 | An empty state gives `EmptyState`. A newest message not written by the model gives `NoToolCalls`. Otherwise the node succeeds iff every call of the newest message dispatches. Observation i is then call i's own result, with call i's id. On failure the fault is that of a failing call with only successes before it. |
| Tools.ExecuteToolCalls | main.py:90-100 | The for-loop (look up, invoke, append) computes exactly `ToolNode`, including the first-failure fault with no partial list. |
| Tools.FirstFailureWins | main.py:95-98 | If every call before position i succeeds and the call at i fails, the whole batch fails with that call's fault. |
| Tools.UnknownToolFails | main.py:97 | An unregistered name after successful calls fails the batch with `UnknownTool` for that name. No observation list is returned. |
| SocTools.SocRegistry | main.py:67-68 | The agent's registry has exactly the keys `tavily_search_tool` and `send_security_alert`, each bound to its tool. |
| SocTools.AlertReportsFailureAsData | main.py:39-63 | An alert call succeeds iff it carries `analysis_report`. The observation is then the delivery status text, whatever the delivery did. Without the argument the tool's schema raises. |
| SocTools.SearchEnrichesQuery | main.py:27-36 | The search backend receives the caller's query behind the fixed threat-intelligence prefix. Its result becomes the observation and its fault becomes the call's fault. |
| SocTools.OnlyTwoToolsDispatch | main.py:68 | Any other tool name fails with `UnknownTool`. |
| Graph.Prompt | main.py:80-85 | The model's input is the directive followed by the stored conversation, unchanged. |
| Graph.LlmCallNode | main.py:78-86 | `llm_call` fails iff the model call fails, and then with `BackendFailed` carrying the backend's reason. On success it adds exactly one model message, which is the reply: same content, same tool calls. |
| Graph.ShouldContinue | main.py:106-113 | Routes to `tool_node` iff the newest message is a model message with a non-empty call list. Routes to END iff it is a model message with no calls. An empty state is a fault. |
| Graph.Route | main.py:123-129 | `tool_node` always hands back to `llm_call`. Only `llm_call` can reach END, and no node is followed by itself. |
| Graph.Run | main.py:116-132 | Steps stay within the limit and the starting state is a prefix of the result. A finished run ends on a model message with no tool calls. An abort for the step limit happens exactly at the limit. |
| Graph.Invoke | main.py:123-141 | A fresh run starts at `llm_call` with the given limit. It keeps the input as a prefix, uses at most `limit` steps, and a normal finish ends on a model message with no tool calls. |
| Graph.AnalyzeLogLine | main.py:140-141 | The analyser's run starts from one human message holding the log line, under the budget of 10 steps. That message stays first, at most 10 steps are used, and a normal finish adds at least the final answer. |
| Graph.InvokeLoop | main.py:141 | A superstep-style loop (execute the due node, route, append its delta, stop at the limit) computes exactly `Invoke`. |
| Transcript.AppendRound | main.py:95-100 | Appending a model message with calls, followed by the observations answering those calls, keeps the conversation a series of complete rounds. |
| Transcript.SettledIsNotInterrupted | main.py:106-113 | A conversation that ends on a final answer is never one that an aborted run leaves. |
| Transcript.RunShape | main.py:116-132 | The node-boundary invariant holds for every run. A finished run has added complete rounds and then a final answer, after an odd number of steps, with one model turn per two steps. An aborted run has added complete rounds and at most one unanswered request, and never stops on `EmptyState` or `NoToolCalls`. |
| Transcript.InvokeShape | main.py:116-132 | For every model, registry, input and limit: the input is kept as a prefix, and the shape above holds for the messages the run added. |
| Transcript.FinishedIffFinalAnswer | main.py:123-129 | A run ends normally iff the messages it added end on a final answer after complete tool rounds. A run left with a pending request is always aborted. |
| Transcript.DirectiveNeverStored | main.py:80-86 | After the input, a run stores only model messages and observations. The directive goes to the model and never into the state. |
| Transcript.LogLineBudget | main.py:140-141 | With the analyser's budget of ten steps, a run uses at most ten steps. A normal finish comes by step nine, after at most five model turns. |
| Scenarios.ImmediateVerdict | main.py:106-113 | With a limit of at least two, a model that answers without tool calls ends the run after one step, and its answer is the only added message. |
| Scenarios.EndlessToolUseHitsLimit | main.py:141 | A model that always asks for tools, with tools that always answer, makes every run abort with `RecursionLimit` after exactly `limit` steps. |
| Scenarios.EndlessToolUseAborts | main.py:141 | A fresh run under such a model is aborted at the step limit. |
| Scenarios.FailingCallAbortsRun | main.py:95-100 | A failing call in the first batch aborts the run at step two with that call's fault. The state then holds only the input and the model's request, with no observation. |
| Scenarios.AlertStatusIsObservation | main.py:39-63 | With a limit of at least four, an alert followed by a conclusion ends the run normally after three steps. The delivery status text appears verbatim in the conversation. |

## Left out

- The model backend: choosing the model, binding the tools, and the model call itself (main.py:21-24, 69, 85). The reply is an oracle, so which tools the model is told about and how it picks them are not modelled. A backend fault is modelled as a failed reply that aborts the run.
- The search backend (main.py:31-36): the result count of five and the network call are inside the search oracle. Only the query prefix is modelled.
- The alert delivery (main.py:42-63): credential lookup, the HTTP request, and the mapping from status code to text are inside the alert oracle. The model keeps only that this oracle always returns text.
- `str(observation)` at main.py:99 is part of each tool oracle, which returns text directly.
- Tool argument values are modelled as text. The schema check of a missing argument is modelled; coercion of non-text values is not.
- `llm_calls` (main.py:75) is declared but never read or updated, so there is no counter to model.
- Graph rendering, environment loading and printing (main.py:15, 19, 136-138, 142-143) are I/O.
- The graph runtime is not part of this model. Its step limit is modelled as at most `limit` node executions; a node due after that aborts the run. After an abort the runtime raises and the state is lost. The modelled `Aborted` result keeps the state as it was before the failing node, for stating properties. A routing failure also keeps that earlier state; `Transcript.RunShape` proves no routing failure occurs in a run.
- Graph.Run: a run whose final answer comes from the `limit`-th node execution is `Finished` in the model, while the graph runtime, whose step counting also includes its start step, raises its recursion error there. The analyser's own budget of 10 is unaffected, because a final answer only comes at an odd step, so by step 9. The scenario lemmas ask for a limit above their finishing step, so they do not depend on this boundary.
- The conversation shape is stated for messages added after the input. The input itself may hold any messages.
