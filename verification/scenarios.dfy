/** Whole runs of the agent under particular model behaviours: an immediate
    verdict, a model that never stops asking for tools, a failing tool call,
    and an alert whose delivery status reaches the model as data. */
module Scenarios {
  import opened Messages
  import opened Tools
  import opened SocTools
  import opened Graph
  import opened Transcript

  /** A model that answers without tool calls ends the run after one step,
      with its answer as the only added message. */
  lemma ImmediateVerdict(agent: Agent, input: seq<Message>, limit: nat)
    requires limit >= 2
    requires agent.model(Prompt(input)).Replied? && agent.model(Prompt(input)).toolCalls == []
    ensures Invoke(agent, input, limit)
         == Finished(input + [Assistant(agent.model(Prompt(input)).content, [])], 1)
  {
  }

  /** The model always asks for at least one tool. */
  ghost predicate AlwaysCallsTools(model: Model) {
    forall p :: model(p).Replied? && |model(p).toolCalls| > 0
  }

  /** Every call the model can make names a registered tool that returns. */
  ghost predicate CallsAlwaysSucceed(agent: Agent) {
    forall p, i :: agent.model(p).Replied? && 0 <= i < |agent.model(p).toolCalls| ==> Dispatch(agent.registry, agent.model(p).toolCalls[i]).Ok?
  }

  /** A model that never stops asking for tools, with tools that always
      answer, runs into the step budget: the run is aborted, not finished,
      after exactly `limit` steps. */
  lemma {:induction false} EndlessToolUseHitsLimit(agent: Agent, limit: nat, step: nat, node: Node, msgs: seq<Message>)
    requires step <= limit
    requires AlwaysCallsTools(agent.model) && CallsAlwaysSucceed(agent)
    requires node == ToolStep ==>
      |msgs| > 0 && Last(msgs).Assistant?
      && forall i :: 0 <= i < |Last(msgs).toolCalls| ==> Dispatch(agent.registry, Last(msgs).toolCalls[i]).Ok?
    ensures var r := Run(agent, limit, step, node, msgs);
      r.Aborted? && r.fault == RecursionLimit && r.steps == limit
    decreases limit - step
  {
    if step < limit {
      match node
      case LlmCall =>
        var reply := agent.model(Prompt(msgs));
        var next := msgs + [Assistant(reply.content, reply.toolCalls)];
        assert Last(next) == Assistant(reply.content, reply.toolCalls);
        assert ShouldContinue(next) == Ok(Goto(ToolStep));
        EndlessToolUseHitsLimit(agent, limit, step + 1, ToolStep, next);
      case ToolStep =>
        var obs := ToolNode(agent.registry, msgs);
        assert obs.Ok?;
        EndlessToolUseHitsLimit(agent, limit, step + 1, LlmCall, msgs + obs.value);
    }
  }

  /** The same for a fresh run. */
  lemma EndlessToolUseAborts(agent: Agent, input: seq<Message>, limit: nat)
    requires AlwaysCallsTools(agent.model) && CallsAlwaysSucceed(agent)
    ensures Invoke(agent, input, limit) == Aborted(RecursionLimit, Invoke(agent, input, limit).messages, limit)
  {
    EndlessToolUseHitsLimit(agent, limit, 0, LlmCall, input);
  }

  /** When the first reply asks for tools and one call fails after the calls
      before it succeeded (an unregistered name, or a tool that raises), the
      run aborts with that call's fault at the second step, and no
      observation from the batch reaches the state. */
  lemma FailingCallAbortsRun(agent: Agent, input: seq<Message>, limit: nat, i: nat)
    requires limit >= 2
    requires agent.model(Prompt(input)).Replied?
    requires var calls := agent.model(Prompt(input)).toolCalls;
      && i < |calls|
      && (forall j :: 0 <= j < i ==> Dispatch(agent.registry, calls[j]).Ok?)
      && Dispatch(agent.registry, calls[i]).Err?
    ensures var reply := agent.model(Prompt(input));
      Invoke(agent, input, limit)
        == Aborted(Dispatch(agent.registry, reply.toolCalls[i]).fault,
                   input + [Assistant(reply.content, reply.toolCalls)], 2)
  {
    var reply := agent.model(Prompt(input));
    var calls := reply.toolCalls;
    var next := input + [Assistant(reply.content, calls)];
    assert Last(next) == Assistant(reply.content, calls);
    LlmCallStep(agent, limit, 0, input);
    assert DispatchAll(agent.registry, calls[..i]).Ok? by {
      assert forall j :: 0 <= j < i ==> calls[..i][j] == calls[j];
    }
    FirstFailureWins(agent.registry, calls, i);
    assert ToolNode(agent.registry, next) == Err(Dispatch(agent.registry, calls[i]).fault);
    ToolNodeStep(agent, limit, 1, next);
  }

  /** An alert request answered by a failure status is data, not a fault:
      when the model asks for one alert and then concludes, the run finishes
      normally after three steps and the delivery status appears verbatim
      in the conversation. */
  lemma AlertStatusIsObservation(
    search: string -> ToolOutput, alert: string -> string, model: Model,
    input: seq<Message>, limit: nat, report: string, callId: string)
    requires limit >= 4
    requires var call := ToolCall(AlertToolName, map["analysis_report" := report], callId);
      && model(Prompt(input)).Replied?
      && model(Prompt(input)).toolCalls == [call]
      && var a1 := Assistant(model(Prompt(input)).content, [call]);
         var after := input + [a1, Observation(alert(report), callId)];
         model(Prompt(after)).Replied? && model(Prompt(after)).toolCalls == []
    ensures var call := ToolCall(AlertToolName, map["analysis_report" := report], callId);
      var a1 := Assistant(model(Prompt(input)).content, [call]);
      var after := input + [a1, Observation(alert(report), callId)];
      var a2 := Assistant(model(Prompt(after)).content, []);
      Invoke(Agent(model, SocRegistry(search, alert)), input, limit) == Finished(after + [a2], 3)
  {
    var agent := Agent(model, SocRegistry(search, alert));
    var call := ToolCall(AlertToolName, map["analysis_report" := report], callId);
    var a1 := Assistant(model(Prompt(input)).content, [call]);
    var after := input + [a1, Observation(alert(report), callId)];
    var a2 := Assistant(model(Prompt(after)).content, []);
    var obs := Observation(alert(report), callId);
    AlertReportsFailureAsData(search, alert, call);
    LlmCallStep(agent, limit, 0, input);
    assert ToolNode(agent.registry, input + [a1]) == Ok([obs]) by {
      assert Last(input + [a1]) == a1;
      var r := DispatchAll(agent.registry, [call]);
      assert r.Ok? && |r.value| == 1 && r.value[0] == obs;
      assert r.value == [obs];
      assert ToolNode(agent.registry, input + [a1]) == r;
    }
    ToolNodeStep(agent, limit, 1, input + [a1]);
    assert input + [a1] + [obs] == after;
    LlmCallStep(agent, limit, 2, after);
  }
}
