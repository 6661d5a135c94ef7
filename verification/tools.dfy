/** The tool registry and the `tool_node` of the agent graph: name lookup,
    invocation and observation building. */
module Tools {
  import opened Messages

  /** What one `invoke` of a tool does: return a value (already rendered as
      text) or raise. */
  datatype ToolOutput = Returned(text: string) | Raised(error: ToolError)

  /** A registered tool: its name and its capability, an oracle over the
      argument map. */
  datatype Tool = Tool(name: string, invoke: Args -> ToolOutput)

  type Registry = map<string, Tool>

  /** The set of names in a tool list. */
  function Names(tools: seq<Tool>): set<string> {
    set i | 0 <= i < |tools| :: tools[i].name
  }

  /** Builds the name-keyed registry from a tool list; every listed name is
      a key and nothing else is. */
  function RegistryOf(tools: seq<Tool>): (r: Registry)
    ensures r.Keys == Names(tools)
  {
    if |tools| == 0 then map[]
    else
      var init := tools[..|tools| - 1];
      var t := tools[|tools| - 1];
      assert Names(tools) == Names(init) + {t.name} by {
        assert forall i :: 0 <= i < |init| ==> init[i] == tools[i];
      }
      RegistryOf(init)[t.name := t]
  }

  /** When two tools share a name, the later one wins: each name maps to the
      last tool in the list that carries it. */
  lemma {:induction false} RegistryOfLastWins(tools: seq<Tool>, i: nat)
    requires i < |tools|
    requires forall j :: i < j < |tools| ==> tools[j].name != tools[i].name
    ensures tools[i].name in RegistryOf(tools)
    ensures RegistryOf(tools)[tools[i].name] == tools[i]
  {
    if i < |tools| - 1 {
      var init := tools[..|tools| - 1];
      assert init[i] == tools[i];
      assert forall j :: i < j < |init| ==> init[j] == tools[j];
      RegistryOfLastWins(init, i);
    }
  }

  /** Runs one requested call: look the tool up by name, invoke it on the
      call's arguments, and wrap what it returns as an observation. */
  function Dispatch(registry: Registry, call: ToolCall): (r: Result<Message>)
    ensures r.Ok? <==> call.name in registry && registry[call.name].invoke(call.args).Returned?
    ensures r.Ok? ==> r.value.Observation? && r.value.toolCallId == call.id
    ensures r.Ok? ==> r.value.content == registry[call.name].invoke(call.args).text
    ensures call.name in registry && registry[call.name].invoke(call.args).Raised? ==>
              r == Err(ToolRaised(call.name, registry[call.name].invoke(call.args).error))
    ensures call.name !in registry ==> r == Err(UnknownTool(call.name))
    ensures r.Err? ==> r.fault.UnknownTool? || r.fault.ToolRaised?
  {
    if call.name !in registry then Err(UnknownTool(call.name))
    else
      match registry[call.name].invoke(call.args)
      case Returned(text) => Ok(Observation(text, call.id))
      case Raised(e) => Err(ToolRaised(call.name, e))
  }

  /** Runs every call in order. Either every call succeeds and the result is
      their observations in call order, or the first failing call's fault is
      the result and no observation is kept. */
  function DispatchAll(registry: Registry, calls: seq<ToolCall>): (r: Result<seq<Message>>)
    ensures r.Ok? <==> forall i :: 0 <= i < |calls| ==> Dispatch(registry, calls[i]).Ok?
    ensures r.Ok? ==> |r.value| == |calls|
    ensures r.Ok? ==> forall i :: 0 <= i < |calls| ==> r.value[i] == Dispatch(registry, calls[i]).value
    ensures r.Err? ==> exists i :: 0 <= i < |calls| && Dispatch(registry, calls[i]) == Err(r.fault)
                                    && forall j :: 0 <= j < i ==> Dispatch(registry, calls[j]).Ok?
  {
    if |calls| == 0 then Ok([])
    else
      var init := calls[..|calls| - 1];
      var call := calls[|calls| - 1];
      assert forall i :: 0 <= i < |init| ==> init[i] == calls[i];
      match DispatchAll(registry, init)
      case Err(f) => Err(f)
      case Ok(obs) =>
        match Dispatch(registry, call)
        case Err(f) => Err(f)
        case Ok(m) => Ok(obs + [m])
  }

  /** `tool_node`: answers the tool calls of the newest message. */
  function ToolNode(registry: Registry, msgs: seq<Message>): (r: Result<seq<Message>>)
    ensures |msgs| == 0 ==> r == Err(EmptyState)
    ensures |msgs| > 0 && !Last(msgs).Assistant? ==> r == Err(NoToolCalls)
    ensures |msgs| > 0 && Last(msgs).Assistant? ==>
              (r.Ok? <==> forall i :: 0 <= i < |Last(msgs).toolCalls| ==> Dispatch(registry, Last(msgs).toolCalls[i]).Ok?)
    ensures r.Ok? ==> |msgs| > 0 && Last(msgs).Assistant? && Answers(Last(msgs).toolCalls, r.value)
    ensures r.Ok? ==> forall i :: 0 <= i < |r.value| ==> r.value[i] == Dispatch(registry, Last(msgs).toolCalls[i]).value
    ensures r.Err? && |msgs| > 0 && Last(msgs).Assistant? ==>
              exists i :: 0 <= i < |Last(msgs).toolCalls| && Dispatch(registry, Last(msgs).toolCalls[i]) == Err(r.fault)
                          && forall j :: 0 <= j < i ==> Dispatch(registry, Last(msgs).toolCalls[j]).Ok?
  {
    if |msgs| == 0 then Err(EmptyState)
    else if !Last(msgs).Assistant? then Err(NoToolCalls)
    else DispatchAll(registry, Last(msgs).toolCalls)
  }

  /** The loop of `tool_node` as written: one lookup and one invocation per
      call, observations collected in a growing list. */
  method ExecuteToolCalls(registry: Registry, msgs: seq<Message>) returns (r: Result<seq<Message>>)
    ensures r == ToolNode(registry, msgs)
    ensures r.Ok? ==> Answers(Last(msgs).toolCalls, r.value)
  {
    if |msgs| == 0 {
      return Err(EmptyState);
    }
    var last := msgs[|msgs| - 1];
    if !last.Assistant? {
      return Err(NoToolCalls);
    }
    var calls := last.toolCalls;
    var result: seq<Message> := [];
    var i := 0;
    while i < |calls|
      invariant 0 <= i <= |calls|
      invariant DispatchAll(registry, calls[..i]) == Ok(result)
    {
      var call := calls[i];
      if call.name !in registry {
        UnknownToolFails(registry, calls, i);
        return Err(UnknownTool(call.name));
      }
      var output := registry[call.name].invoke(call.args);
      if output.Raised? {
        FirstFailureWins(registry, calls, i);
        return Err(ToolRaised(call.name, output.error));
      }
      assert calls[..i + 1][..i] == calls[..i];
      result := result + [Observation(output.text, call.id)];
      i := i + 1;
    }
    assert calls[..i] == calls;
    return Ok(result);
  }

  /** When every call before position `i` succeeds, the fault of the call at
      `i`, if any, is the fault of the whole batch. */
  lemma FirstFailureWins(registry: Registry, calls: seq<ToolCall>, i: nat)
    requires i < |calls|
    requires DispatchAll(registry, calls[..i]).Ok?
    requires Dispatch(registry, calls[i]).Err?
    ensures DispatchAll(registry, calls) == Err(Dispatch(registry, calls[i]).fault)
  {
  }

  /** A call naming an unregistered tool fails the whole batch when the calls
      before it succeed; no partial observation list is returned. */
  lemma UnknownToolFails(registry: Registry, calls: seq<ToolCall>, i: nat)
    requires i < |calls| && calls[i].name !in registry
    requires DispatchAll(registry, calls[..i]).Ok?
    ensures DispatchAll(registry, calls) == Err(UnknownTool(calls[i].name))
  {
  }
}
