/**
 * Transport detection and routing (MCPSkillGenerator._detect_transport and
 * the membership test shared by _get_mcp_tools and _generate_executor).
 */
module Transport {
  import opened JsonValues

  /** The client a session is opened with: Streamable HTTP, or a spawned stdio process. */
  datatype Route = HttpRoute | StdioRoute

  /** The transport names that select the HTTP client. */
  const HttpTransports: set<string> := {"http", "sse", "streamable-http"}

  /**
   * The transport of a server configuration. The source tests `url` first and
   * `command` second, but every branch reads an explicit `transport` key
   * before falling back to its default, so that key always decides.
   */
  function DetectTransport(config: Object): (t: Json)
    ensures "transport" in config ==> t == config["transport"]
    ensures "transport" !in config && "url" in config ==> t == JStr("http")
    ensures "transport" !in config && "url" !in config ==> t == JStr("stdio")
  {
    if "url" in config then
      (if "transport" in config then config["transport"] else JStr("http"))
    else if "command" in config then
      (if "transport" in config then config["transport"] else JStr("stdio"))
    else
      (if "transport" in config then config["transport"] else JStr("stdio"))
  }

  /**
   * The test `transport in ("http", "sse", "streamable-http")`. Tuple
   * membership compares with ==, so a value of any other JSON kind
   * (None, a number, a list) simply fails it and takes the stdio route.
   */
  function RouteFor(transport: Json): (r: Route)
    ensures r == HttpRoute <==> transport in {JStr("http"), JStr("sse"), JStr("streamable-http")}
  {
    if transport.JStr? && transport.s in HttpTransports then HttpRoute else StdioRoute
  }

  /** The route of a whole configuration, stated on its keys alone. */
  lemma ConfigRoute(config: Object)
    ensures RouteFor(DetectTransport(config)) == HttpRoute <==>
      if "transport" in config then config["transport"] in {JStr("http"), JStr("sse"), JStr("streamable-http")}
      else "url" in config
  {
  }
}
