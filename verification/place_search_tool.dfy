/**
 * The five place-search tools and the choice of search back-end
 * (tools/place_search_tool.py). Only the choice is modelled: which back-end a
 * tool turns to, with which per-request key, or the fixed reply when there is
 * none.
 */
module PlaceSearchTool {
  import opened Wrappers
  import opened RunConfig
  import opened PlaceInfoSearch

  /** Reply of every search tool when no back-end exists. */
  const NoSearchApi: string := "No search API available"

  /** A constructed back-end, with the key it was built with. */
  datatype Backend = Backend(apiKey: string)

  /** `LocationInfoTool`: which back-ends exist; both are fixed once constructed. */
  datatype LocationInfoTool = LocationInfoTool(serpTool: Option<Backend>, tavilyTool: Option<Backend>)

  /**
   * `LocationInfoTool.__init__`. `env` is the process environment;
   * `serpInstalled` is false when the SerpAPI package is missing, in which
   * case constructing the SerpAPI back-end raises ImportError and it is left out.
   */
  function NewLocationInfoTool(env: map<string, string>, serpInstalled: bool): (tool: LocationInfoTool)
    ensures tool.serpTool.Some? <==> "SERPAPI_API_KEY" in env && env["SERPAPI_API_KEY"] != "" && serpInstalled
    ensures tool.tavilyTool.Some? <==> "TAVILY_API_KEY" in env && env["TAVILY_API_KEY"] != ""
    ensures tool.serpTool.Some? ==> tool.serpTool.value.apiKey == env["SERPAPI_API_KEY"]
    ensures tool.tavilyTool.Some? ==> tool.tavilyTool.value.apiKey == env["TAVILY_API_KEY"]
  {
    var serpKey := if "SERPAPI_API_KEY" in env then Some(env["SERPAPI_API_KEY"]) else None;
    var tavilyKey := if "TAVILY_API_KEY" in env then Some(env["TAVILY_API_KEY"]) else None;
    LocationInfoTool(
      if Truthy(serpKey) && serpInstalled then Some(Backend(serpKey.value)) else None,
      if Truthy(tavilyKey) then Some(Backend(tavilyKey.value)) else None)
  }

  /** Where a search tool sends its request. */
  datatype Dispatch =
    | ToSerp(kind: SearchKind, place: string, serpKey: Option<string>)
    | ToTavily(kind: SearchKind, place: string, tavilyKey: Option<string>)
    | Reply(text: string)

  /** The exported tools, in order, and the search each one performs. */
  const ToolNames: seq<string> :=
    ["search_attractions", "search_restaurants", "search_hotels", "search_activities", "search_transportation"]
  const ToolKinds: seq<SearchKind> := [Attractions, Restaurants, Hotels, Activities, Transportation]

  /** The body shared by the five tools: SerpAPI if it exists, otherwise Tavily, otherwise a fixed reply. */
  function SearchTool(tool: LocationInfoTool, kind: SearchKind, place: string, config: RunnableConfig): Dispatch
  {
    var serpKey := ApiKey(config, "serp_api_key");
    var tavilyKey := ApiKey(config, "tavily_api_key");
    if tool.serpTool.Some? then ToSerp(kind, place, serpKey)
    else if tool.tavilyTool.Some? then ToTavily(kind, place, tavilyKey)
    else Reply(NoSearchApi)
  }

  /**
   * The selection rule: SerpAPI whenever it exists, Tavily only without it,
   * the fixed reply with neither; the place and the kind pass through, and
   * each back-end gets its own per-request key.
   */
  lemma SearchToolChoice(tool: LocationInfoTool, kind: SearchKind, place: string, config: RunnableConfig)
    ensures SearchTool(tool, kind, place, config).ToSerp? <==> tool.serpTool.Some?
    ensures SearchTool(tool, kind, place, config).ToTavily? <==> tool.serpTool.None? && tool.tavilyTool.Some?
    ensures SearchTool(tool, kind, place, config) == Reply(NoSearchApi) <==> tool.serpTool.None? && tool.tavilyTool.None?
    ensures SearchTool(tool, kind, place, config).ToSerp? ==>
      SearchTool(tool, kind, place, config) == ToSerp(kind, place, ApiKey(config, "serp_api_key"))
    ensures SearchTool(tool, kind, place, config).ToTavily? ==>
      SearchTool(tool, kind, place, config) == ToTavily(kind, place, ApiKey(config, "tavily_api_key"))
  {
  }

  /** All five tools pick the same back-end. */
  lemma SameBackendForAllTools(tool: LocationInfoTool, k1: SearchKind, k2: SearchKind, place: string, config: RunnableConfig)
    ensures SearchTool(tool, k1, place, config).ToSerp? == SearchTool(tool, k2, place, config).ToSerp?
    ensures SearchTool(tool, k1, place, config).ToTavily? == SearchTool(tool, k2, place, config).ToTavily?
  {
  }

  /** From the environment: a SerpAPI key (with the package installed) makes every tool use SerpAPI. */
  lemma SerpConfiguredWins(env: map<string, string>, kind: SearchKind, place: string, config: RunnableConfig)
    requires "SERPAPI_API_KEY" in env && env["SERPAPI_API_KEY"] != ""
    ensures SearchTool(NewLocationInfoTool(env, true), kind, place, config).ToSerp?
  {
  }

  /** From the environment: without a usable SerpAPI back-end, a Tavily key makes every tool use Tavily. */
  lemma TavilyOnlyWithoutSerp(env: map<string, string>, serpInstalled: bool, kind: SearchKind, place: string, config: RunnableConfig)
    requires !serpInstalled || "SERPAPI_API_KEY" !in env || env["SERPAPI_API_KEY"] == ""
    requires "TAVILY_API_KEY" in env && env["TAVILY_API_KEY"] != ""
    ensures SearchTool(NewLocationInfoTool(env, serpInstalled), kind, place, config).ToTavily?
  {
  }

  /** From the environment: with neither key every tool replies with the fixed message. */
  lemma NoKeysNoSearch(env: map<string, string>, serpInstalled: bool, kind: SearchKind, place: string, config: RunnableConfig)
    requires "SERPAPI_API_KEY" !in env || env["SERPAPI_API_KEY"] == ""
    requires "TAVILY_API_KEY" !in env || env["TAVILY_API_KEY"] == ""
    ensures SearchTool(NewLocationInfoTool(env, serpInstalled), kind, place, config) == Reply("No search API available")
  {
  }

  /** Five tools are exported, one per kind of search, in a fixed order. */
  lemma ExportedTools()
    ensures |ToolNames| == 5 && |ToolKinds| == 5
    ensures forall i, j :: 0 <= i < j < 5 ==> ToolNames[i] != ToolNames[j] && ToolKinds[i] != ToolKinds[j]
  {
  }
}
