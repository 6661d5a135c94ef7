/** The two tools the analyst agent registers: a threat-intelligence web
    search and an alert to the administrator. Their network effects are
    oracles; what is modelled is the argument each one takes, the query
    enrichment of the search, and that the alert reports failures as text. */
module SocTools {
  import opened Messages
  import opened Tools

  const SearchToolName: string := "tavily_search_tool"
  const AlertToolName: string := "send_security_alert"

  /** The fixed framing put in front of every search query. */
  const QueryPrefix: string := "cybersecurity threat intelligence report: "

  /** The search tool over a search backend that may raise. */
  function SearchTool(search: string -> ToolOutput): Tool {
    Tool(SearchToolName,
      (args: Args) =>
        if "query" in args then search(QueryPrefix + args["query"])
        else Raised(MissingArgument("query")))
  }

  /** The alert tool over a delivery function that always answers with a
      status text, whether delivery worked or not. */
  function AlertTool(alert: string -> string): Tool {
    Tool(AlertToolName,
      (args: Args) =>
        if "analysis_report" in args then Returned(alert(args["analysis_report"]))
        else Raised(MissingArgument("analysis_report")))
  }

  /** The registry the agent dispatches against. */
  function SocRegistry(search: string -> ToolOutput, alert: string -> string): (r: Registry)
    ensures r.Keys == {SearchToolName, AlertToolName}
    ensures r[SearchToolName] == SearchTool(search)
    ensures r[AlertToolName] == AlertTool(alert)
  {
    var tools := [SearchTool(search), AlertTool(alert)];
    RegistryOfLastWins(tools, 0);
    RegistryOfLastWins(tools, 1);
    RegistryOf(tools)
  }

  /** A well-formed alert request always yields an observation carrying the
      delivery status, so a failed delivery reaches the model as data; a
      request without a report is rejected by the tool's schema. */
  lemma AlertReportsFailureAsData(search: string -> ToolOutput, alert: string -> string, call: ToolCall)
    requires call.name == AlertToolName
    ensures var r := Dispatch(SocRegistry(search, alert), call);
      && (r.Ok? <==> "analysis_report" in call.args)
      && ("analysis_report" in call.args ==> r == Ok(Observation(alert(call.args["analysis_report"]), call.id)))
      && ("analysis_report" !in call.args ==> r == Err(ToolRaised(AlertToolName, MissingArgument("analysis_report"))))
  {
  }

  /** The search backend sees the caller's query behind the fixed framing,
      and a fault of the backend is a fault of the tool call. */
  lemma SearchEnrichesQuery(search: string -> ToolOutput, alert: string -> string, call: ToolCall)
    requires call.name == SearchToolName && "query" in call.args
    ensures var r := Dispatch(SocRegistry(search, alert), call);
      var out := search(QueryPrefix + call.args["query"]);
      && (out.Returned? ==> r == Ok(Observation(out.text, call.id)))
      && (out.Raised? ==> r == Err(ToolRaised(SearchToolName, out.error)))
  {
  }

  /** Any other tool name is a lookup failure. */
  lemma OnlyTwoToolsDispatch(search: string -> ToolOutput, alert: string -> string, call: ToolCall)
    requires call.name != SearchToolName && call.name != AlertToolName
    ensures Dispatch(SocRegistry(search, alert), call) == Err(UnknownTool(call.name))
  {
  }
}
