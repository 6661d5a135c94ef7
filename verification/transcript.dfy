/** The shape of the conversation a run leaves behind, and the run-level
    properties of the agent: ordering and correlation of observations,
    termination, the step bound, and what the directive and faults do. */
module Transcript {
  import opened Messages
  import opened Tools
  import opened Graph

  /** `tail` is a series of complete tool rounds: each model message asking
      for tools is followed by exactly the observations answering it, in
      call order, and nothing else. */
  predicate CompleteRounds(tail: seq<Message>)
    decreases |tail|
  {
    || |tail| == 0
    || (&& HasPendingCalls(tail[0])
        && var k := |tail[0].toolCalls|;
        && |tail| > k
        && Answers(tail[0].toolCalls, tail[1..1 + k])
        && CompleteRounds(tail[1 + k..]))
  }

  /** The messages a normally finished run added: complete rounds, then a
      model message that asks for nothing. */
  predicate Settled(tail: seq<Message>) {
    |tail| > 0 && CompleteRounds(tail[..|tail| - 1]) && IsFinalAnswer(Last(tail))
  }

  /** The messages an aborted run added: complete rounds, possibly followed
      by one model message whose calls were never answered. */
  predicate Interrupted(tail: seq<Message>) {
    || CompleteRounds(tail)
    || (|tail| > 0 && CompleteRounds(tail[..|tail| - 1]) && HasPendingCalls(Last(tail)))
  }

  /** How many times the model spoke in `tail`. */
  function ModelTurns(tail: seq<Message>): nat {
    if |tail| == 0 then 0
    else ModelTurns(tail[..|tail| - 1]) + (if Last(tail).Assistant? then 1 else 0)
  }

  lemma {:induction false} ModelTurnsAppend(a: seq<Message>, b: seq<Message>)
    ensures ModelTurns(a + b) == ModelTurns(a) + ModelTurns(b)
    decreases |b|
  {
    if |b| > 0 {
      assert (a + b)[..|a + b| - 1] == a + b[..|b| - 1];
      ModelTurnsAppend(a, b[..|b| - 1]);
    } else {
      assert a + b == a;
    }
  }

  lemma {:induction false} ObservationsAreNotTurns(obs: seq<Message>)
    requires forall i :: 0 <= i < |obs| ==> obs[i].Observation?
    ensures ModelTurns(obs) == 0
    decreases |obs|
  {
    if |obs| > 0 {
      ObservationsAreNotTurns(obs[..|obs| - 1]);
    }
  }

  /** Appending one answered round keeps the rounds complete. */
  lemma {:induction false} AppendRound(pre: seq<Message>, a: Message, obs: seq<Message>)
    requires CompleteRounds(pre) && HasPendingCalls(a) && Answers(a.toolCalls, obs)
    ensures CompleteRounds(pre + [a] + obs)
    decreases |pre|
  {
    var t := pre + [a] + obs;
    if |pre| == 0 {
      var k := |a.toolCalls|;
      assert t == [a] + obs;
      assert t[1..1 + k] == obs;
      assert t[1 + k..] == [];
    } else {
      var k := |pre[0].toolCalls|;
      assert t[0] == pre[0];
      assert t[1..1 + k] == pre[1..1 + k];
      assert t[1 + k..] == pre[1 + k..] + [a] + obs;
      AppendRound(pre[1 + k..], a, obs);
    }
  }

  /** Complete rounds hold only model messages and observations. */
  lemma {:induction false} RoundsHoldNoOtherRole(tail: seq<Message>)
    requires CompleteRounds(tail)
    ensures forall i :: 0 <= i < |tail| ==> tail[i].Assistant? || tail[i].Observation?
    decreases |tail|
  {
    if |tail| > 0 {
      var k := |tail[0].toolCalls|;
      RoundsHoldNoOtherRole(tail[1 + k..]);
      forall i | 0 <= i < |tail| ensures tail[i].Assistant? || tail[i].Observation? {
        if 1 <= i < 1 + k {
          assert tail[i] == tail[1..1 + k][i - 1];
        } else if i >= 1 + k {
          assert tail[i] == tail[1 + k..][i - (1 + k)];
        }
      }
    }
  }

  /** Non-empty complete rounds end with an observation. */
  lemma {:induction false} RoundsEndWithObservation(tail: seq<Message>)
    requires CompleteRounds(tail) && |tail| > 0
    ensures Last(tail).Observation?
    decreases |tail|
  {
    var k := |tail[0].toolCalls|;
    var rest := tail[1 + k..];
    if |rest| > 0 {
      RoundsEndWithObservation(rest);
      assert Last(tail) == Last(rest);
    } else {
      assert Last(tail) == tail[1..1 + k][k - 1];
    }
  }

  /** A finished conversation and an aborted one can never look alike: an
      aborted run never ends on a final answer. */
  lemma SettledIsNotInterrupted(tail: seq<Message>)
    requires Settled(tail)
    ensures !Interrupted(tail)
  {
    if CompleteRounds(tail) {
      RoundsEndWithObservation(tail);
    }
  }

  /** The invariant of a run at a node boundary, with `base` marking where
      the input ends. */
  predicate AtBoundary(node: Node, step: nat, msgs: seq<Message>, base: nat) {
    && base <= |msgs|
    && match node
       case LlmCall =>
         && step % 2 == 0
         && CompleteRounds(msgs[base..])
         && ModelTurns(msgs[base..]) == step / 2
       case ToolStep =>
         && step % 2 == 1
         && |msgs| > base
         && CompleteRounds(msgs[base..|msgs| - 1])
         && HasPendingCalls(Last(msgs))
         && ModelTurns(msgs[base..]) == (step + 1) / 2
  }

  /** What a run leaves behind: a finished run has added complete rounds and
      a final answer after an odd number of steps, one model turn per two
      steps; an aborted run has added complete rounds and at most one
      unanswered request, and never stopped on a structural fault. */
  predicate EndShape(r: RunResult, base: nat) {
    && base <= |r.messages|
    && (r.Finished? ==> Settled(r.messages[base..]) && r.steps % 2 == 1
                        && ModelTurns(r.messages[base..]) == (r.steps + 1) / 2)
    && (r.Aborted? ==> Interrupted(r.messages[base..]) && r.fault != EmptyState && r.fault != NoToolCalls)
  }

  lemma {:induction false} RunShape(agent: Agent, limit: nat, step: nat, node: Node, msgs: seq<Message>, base: nat)
    requires step <= limit && AtBoundary(node, step, msgs, base)
    ensures EndShape(Run(agent, limit, step, node, msgs), base)
    decreases limit - step, 2
  {
    if step == limit {
      if node == ToolStep {
        assert msgs[base..][..|msgs[base..]| - 1] == msgs[base..|msgs| - 1];
      }
    } else if node == LlmCall {
      LlmCallShape(agent, limit, step, msgs, base);
    } else {
      ToolNodeShape(agent, limit, step, msgs, base);
    }
  }

  /** One `llm_call` step of a run, unfolded. */
  lemma LlmCallStep(agent: Agent, limit: nat, step: nat, msgs: seq<Message>)
    requires step < limit
    ensures var ex := LlmCallNode(agent.model, msgs);
      var r := Run(agent, limit, step, LlmCall, msgs);
      && (ex.Err? ==> r == Aborted(ex.fault, msgs, step + 1))
      && (ex.Ok? ==> ex.value == [ex.value[0]] && IsFinalAnswer(ex.value[0]) == !HasPendingCalls(ex.value[0]))
      && (ex.Ok? && HasPendingCalls(ex.value[0]) ==> r == Run(agent, limit, step + 1, ToolStep, msgs + [ex.value[0]]))
      && (ex.Ok? && !HasPendingCalls(ex.value[0]) ==> r == Finished(msgs + [ex.value[0]], step + 1))
  {
  }

  /** The conversation after the model's reply `a`, seen from `base`. */
  lemma TailAfterReply(msgs: seq<Message>, base: nat, a: Message)
    requires base <= |msgs|
    ensures var next := msgs + [a];
      && Last(next) == a
      && next[base..] == msgs[base..] + [a]
      && next[base..][..|next[base..]| - 1] == msgs[base..]
      && next[base..|next| - 1] == msgs[base..]
      && (a.Assistant? ==> ModelTurns(next[base..]) == ModelTurns(msgs[base..]) + 1)
  {
  }

  lemma {:induction false} LlmCallShape(agent: Agent, limit: nat, step: nat, msgs: seq<Message>, base: nat)
    requires step < limit && AtBoundary(LlmCall, step, msgs, base)
    ensures EndShape(Run(agent, limit, step, LlmCall, msgs), base)
    decreases limit - step, 1
  {
    LlmCallStep(agent, limit, step, msgs);
    var ex := LlmCallNode(agent.model, msgs);
    if ex.Ok? {
      var a := ex.value[0];
      if HasPendingCalls(a) {
        PendingReplyShape(agent, limit, step, msgs, base, a);
      } else {
        FinalReplyShape(msgs, base, a, step + 1);
      }
    }
  }

  lemma {:induction false} PendingReplyShape(agent: Agent, limit: nat, step: nat, msgs: seq<Message>, base: nat, a: Message)
    requires step < limit && AtBoundary(LlmCall, step, msgs, base) && HasPendingCalls(a)
    ensures EndShape(Run(agent, limit, step + 1, ToolStep, msgs + [a]), base)
    decreases limit - step, 0
  {
    PendingReplyBoundary(step, msgs, base, a);
    RunShape(agent, limit, step + 1, ToolStep, msgs + [a], base);
  }

  /** A reply with tool calls brings the run to a `tool_node` boundary. */
  lemma PendingReplyBoundary(step: nat, msgs: seq<Message>, base: nat, a: Message)
    requires AtBoundary(LlmCall, step, msgs, base) && HasPendingCalls(a)
    ensures AtBoundary(ToolStep, step + 1, msgs + [a], base)
  {
    TailAfterReply(msgs, base, a);
  }

  lemma FinalReplyShape(msgs: seq<Message>, base: nat, a: Message, steps: nat)
    requires base <= |msgs| && CompleteRounds(msgs[base..]) && IsFinalAnswer(a)
    requires steps % 2 == 1 && ModelTurns(msgs[base..]) == steps / 2
    ensures EndShape(Finished(msgs + [a], steps), base)
  {
    TailAfterReply(msgs, base, a);
  }

  /** One `tool_node` step of a run, unfolded. */
  lemma ToolNodeStep(agent: Agent, limit: nat, step: nat, msgs: seq<Message>)
    requires step < limit
    ensures var ex := ToolNode(agent.registry, msgs);
      var r := Run(agent, limit, step, ToolStep, msgs);
      && (ex.Err? ==> r == Aborted(ex.fault, msgs, step + 1))
      && (ex.Ok? ==> r == Run(agent, limit, step + 1, LlmCall, msgs + ex.value))
  {
  }

  lemma {:induction false} ToolNodeShape(agent: Agent, limit: nat, step: nat, msgs: seq<Message>, base: nat)
    requires step < limit && AtBoundary(ToolStep, step, msgs, base)
    ensures EndShape(Run(agent, limit, step, ToolStep, msgs), base)
    decreases limit - step, 1
  {
    ToolNodeStep(agent, limit, step, msgs);
    var ex := ToolNode(agent.registry, msgs);
    if ex.Err? {
      ToolFailureShape(agent.registry, msgs, base, ex.fault, step + 1);
    } else {
      AnsweredRoundShape(agent, limit, step, msgs, base, ex.value);
    }
  }

  /** A failing batch leaves the request unanswered and its fault is a
      lookup or tool fault. */
  lemma ToolFailureShape(registry: Registry, msgs: seq<Message>, base: nat, fault: Fault, steps: nat)
    requires base < |msgs| && CompleteRounds(msgs[base..|msgs| - 1]) && HasPendingCalls(Last(msgs))
    requires ToolNode(registry, msgs) == Err(fault)
    ensures EndShape(Aborted(fault, msgs, steps), base)
  {
    var a := Last(msgs);
    assert msgs[base..][..|msgs[base..]| - 1] == msgs[base..|msgs| - 1];
    var i :| 0 <= i < |a.toolCalls| && Dispatch(registry, a.toolCalls[i]) == Err(fault);
  }

  lemma {:induction false} AnsweredRoundShape(agent: Agent, limit: nat, step: nat, msgs: seq<Message>, base: nat, obs: seq<Message>)
    requires step < limit && AtBoundary(ToolStep, step, msgs, base)
    requires Answers(Last(msgs).toolCalls, obs)
    ensures EndShape(Run(agent, limit, step + 1, LlmCall, msgs + obs), base)
    decreases limit - step, 0
  {
    AnsweredRoundBoundary(step, msgs, base, obs);
    RunShape(agent, limit, step + 1, LlmCall, msgs + obs, base);
  }

  /** Answering the pending request brings the run back to an `llm_call`
      boundary. */
  lemma AnsweredRoundBoundary(step: nat, msgs: seq<Message>, base: nat, obs: seq<Message>)
    requires AtBoundary(ToolStep, step, msgs, base)
    requires Answers(Last(msgs).toolCalls, obs)
    ensures AtBoundary(LlmCall, step + 1, msgs + obs, base)
  {
    var a := Last(msgs);
    var pre := msgs[base..|msgs| - 1];
    var next := msgs + obs;
    assert msgs[base..] == pre + [a];
    assert next[base..] == pre + [a] + obs;
    AppendRound(pre, a, obs);
    ModelTurnsAppend(pre + [a], obs);
    ObservationsAreNotTurns(obs);
  }

  /** Every run of the agent, from any input: the input is kept as a prefix,
      a normal finish ends on a final answer after complete tool rounds, an
      abort leaves at most one unanswered request, and the structural faults
      of the nodes (reading an empty state, or tool calls of a message the
      model did not write) never occur. */
  lemma InvokeShape(agent: Agent, input: seq<Message>, limit: nat)
    ensures var r := Invoke(agent, input, limit);
      && input <= r.messages
      && EndShape(r, |input|)
  {
    assert input[|input|..] == [];
    RunShape(agent, limit, 0, LlmCall, input, |input|);
  }

  /** Ending normally and ending with a request still open exclude each
      other: a run is classified as finished exactly when its conversation
      ends on a final answer. */
  lemma FinishedIffFinalAnswer(agent: Agent, input: seq<Message>, limit: nat)
    ensures var r := Invoke(agent, input, limit);
      r.Finished? <==> |r.messages| > |input| && Settled(r.messages[|input|..])
  {
    var r := Invoke(agent, input, limit);
    InvokeShape(agent, input, limit);
    if r.Aborted? && |r.messages| > |input| && Settled(r.messages[|input|..]) {
      SettledIsNotInterrupted(r.messages[|input|..]);
    }
  }

  /** The directive is handed to the model only: a run stores nothing but
      model messages and observations after its input. */
  lemma DirectiveNeverStored(agent: Agent, input: seq<Message>, limit: nat)
    ensures var r := Invoke(agent, input, limit);
      forall i :: |input| <= i < |r.messages| ==> r.messages[i].Assistant? || r.messages[i].Observation?
  {
    var r := Invoke(agent, input, limit);
    var tail := r.messages[|input|..];
    InvokeShape(agent, input, limit);
    var rounds := if r.Finished? || !CompleteRounds(tail) then tail[..|tail| - 1] else tail;
    RoundsHoldNoOtherRole(rounds);
    forall i | |input| <= i < |r.messages|
      ensures r.messages[i].Assistant? || r.messages[i].Observation?
    {
      assert r.messages[i] == tail[i - |input|];
      if i - |input| < |rounds| {
        assert tail[i - |input|] == rounds[i - |input|];
      }
    }
  }

  /** Under the analyser's budget of ten steps, a normal finish comes by the
      ninth step, after at most five model consultations. */
  lemma LogLineBudget(agent: Agent, line: string)
    ensures var r := AnalyzeLogLine(agent, line);
      && r.steps <= StepLimit
      && (r.Finished? ==> r.steps <= 9 && ModelTurns(r.messages[1..]) <= 5)
  {
    InvokeShape(agent, [Human(line)], StepLimit);
  }
}
