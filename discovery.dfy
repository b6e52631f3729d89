/**
 * Tool discovery at generation time (_get_mcp_tools, _get_tools_http,
 * _get_tools_stdio and _get_mock_tools). The session itself is foreign
 * library code; what it answers is an input here.
 */
module Discovery {
  import opened JsonValues

  /**
   * A tool as the client library's list_tools reports it. `other` holds the
   * attributes the generator does not copy (title, outputSchema, annotations).
   */
  datatype ListedTool = ListedTool(name: string, description: Option<string>, inputSchema: Object, other: Object)

  /** The `{name, description, inputSchema}` record the generator keeps per tool. */
  datatype Tool = Tool(name: string, description: Option<string>, inputSchema: Object)

  /** Why a discovery session produced no listing: the client is not importable, or any other exception. */
  datatype DiscoveryError = ClientUnavailable | SessionFailed(reason: string)

  function Record(t: ListedTool): Tool {
    Tool(t.name, t.description, t.inputSchema)
  }

  /** The list comprehension over `response.tools`: one record per listed tool, in listing order. */
  function Records(listing: seq<ListedTool>): (tools: seq<Tool>)
    ensures |tools| == |listing|
    ensures forall i :: 0 <= i < |listing| ==> tools[i] == Record(listing[i])
  {
    if listing == [] then [] else [Record(listing[0])] + Records(listing[1..])
  }

  /** The entries of a schema's `required` array (empty when there is none). */
  function RequiredParams(schema: Object): seq<Json> {
    if "required" in schema && schema["required"].JArr? then schema["required"].items else []
  }

  /** The keys of a schema's `properties` object (empty when there is none). */
  function PropertyNames(schema: Object): set<string> {
    if "properties" in schema && schema["properties"].JObj? then schema["properties"].fields.Keys else {}
  }

  const MockDescription: string := "Mock tool (could not connect to server at introspection time)"

  /** The placeholder catalog used whenever discovery fails. */
  function MockTools(): (tools: seq<Tool>)
    ensures |tools| == 1
    ensures tools[0].name == "example_tool" && tools[0].description == Some(MockDescription)
    ensures RequiredParams(tools[0].inputSchema) == [JStr("param1")]
    ensures forall p :: p in RequiredParams(tools[0].inputSchema) ==> p.JStr? && p.s in PropertyNames(tools[0].inputSchema)
  {
    var param1 := JObj(map["type" := JStr("string"), "description" := JStr("First parameter")]);
    var schema := map[
      "type" := JStr("object"),
      "properties" := JObj(map["param1" := param1]),
      "required" := JArr([JStr("param1")])];
    [Tool("example_tool", Some(MockDescription), schema)]
  }

  /**
   * One discovery attempt. Whatever the session did (an import failure or any
   * other exception), the result is a catalog; a failure yields the mock one.
   */
  function Discover(session: Result<seq<ListedTool>, DiscoveryError>): (tools: seq<Tool>)
    ensures session.Err? ==> tools == MockTools()
    ensures session.Ok? ==> |tools| == |session.value|
    ensures session.Ok? ==> forall i :: 0 <= i < |tools| ==> tools[i] == Record(session.value[i])
  {
    match session
    case Ok(listing) => Records(listing)
    case Err(_) => MockTools()
  }

  /** A successful listing keeps the tools' names, in order and without loss. */
  lemma DiscoveredNames(listing: seq<ListedTool>, i: nat)
    requires i < |listing|
    ensures |Discover(Ok(listing))| == |listing|
    ensures Discover(Ok(listing))[i].name == listing[i].name
    ensures Discover(Ok(listing))[i].inputSchema == listing[i].inputSchema
  {
  }

  /** Discovery never comes back empty-handed when the session failed. */
  lemma FailedDiscoveryIsMock(e: DiscoveryError)
    ensures |Discover(Err(e))| == 1 && Discover(Err(e))[0].name == "example_tool"
  {
  }
}
