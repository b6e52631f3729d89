/**
 * The generation step (convert_mcp_to_skill and MCPSkillGenerator.generate):
 * select servers, plan one destination per server, and for each one detect
 * the transport, discover the catalog and render the artifacts.
 */
module Generator {
  import opened JsonValues
  import opened Transport
  import opened Discovery
  import opened Manifest
  import opened ConfigFormat

  /** A destination directory: a path as given, or a child named under a parent. */
  datatype Path = Dir(path: string) | Child(parent: Path, name: string)

  /** Where skills go when no output directory is given. */
  const DefaultBase: string := "./skills"

  /** The fatal conditions of the generation step, reported on stderr with exit status 1. */
  datatype ConvertError =
    | BadConfig(error: ConfigError)
    | ServerNotFound(requested: string, available: set<string>)
    | ServersNotObjects(names: set<string>)

  /** A session attempt: the listing obtained over a route with a configuration, or why there is none. */
  type Connect = (Route, Object) -> Result<seq<ListedTool>, DiscoveryError>

  /**
   * What one generated skill holds: its directory and name, the detected
   * transport, the discovered catalog with the tool count and tool list of
   * SKILL.md, the variant of executor.py, and the configuration written to
   * mcp-config.json.
   */
  datatype Skill = Skill(
    dir: Path,
    name: string,
    transport: Json,
    tools: seq<Tool>,
    toolCount: nat,
    toolList: string,
    executor: Route,
    config: Object)

  /**
   * Restrict the server map to the one named by `--server`, if that argument
   * is given (an empty name counts as not given).
   */
  function SelectServers(servers: map<string, Json>, selector: Option<string>): (r: Result<map<string, Json>, ConvertError>)
    ensures !Given(selector) ==> r == Ok(servers)
    ensures Given(selector) && selector.value !in servers ==>
      r == Err(ServerNotFound(selector.value, servers.Keys))
    ensures Given(selector) && selector.value in servers ==>
      r.Ok? && r.value.Keys == {selector.value} && r.value[selector.value] == servers[selector.value]
  {
    if Given(selector) then
      var name := selector.value;
      if name !in servers then Err(ServerNotFound(name, servers.Keys))
      else Ok(map[name := servers[name]])
    else
      Ok(servers)
  }

  /** The directory a server's skill is written to, given how many servers are converted. */
  function Destination(outputDir: Option<string>, count: nat, name: string): (p: Path)
    ensures p.Dir? <==> Given(outputDir) && count == 1
    ensures p.Child? ==> p.name == name && p.parent.Dir?
  {
    if Given(outputDir) && count == 1 then Dir(outputDir.value)
    else
      var base := if Given(outputDir) then Dir(outputDir.value) else Dir(DefaultBase);
      Child(base, name)
  }

  /**
   * An output directory is used as is for a single server; otherwise every
   * server gets its own child of the output directory, or of ./skills.
   */
  lemma DestinationPlan(outputDir: Option<string>, count: nat, name: string)
    ensures Given(outputDir) && count == 1 ==> Destination(outputDir, count, name) == Dir(outputDir.value)
    ensures Given(outputDir) && count != 1 ==> Destination(outputDir, count, name) == Child(Dir(outputDir.value), name)
    ensures !Given(outputDir) ==> Destination(outputDir, count, name) == Child(Dir(DefaultBase), name)
  {
  }

  /** Generate one skill: the same route serves discovery and the executor variant. */
  function GenerateSkill(config: Object, dir: Path, name: string, connect: Connect): (s: Skill)
    ensures s.dir == dir && s.name == name && s.config == config
    ensures s.executor == RouteFor(DetectTransport(config))
    ensures s.tools == Discover(connect(s.executor, config))
    ensures s.transport == DetectTransport(config)
    ensures s.toolList == ToolList(s.tools)
    ensures s.toolCount == |s.tools| == |ToolLines(s.tools)|
  {
    var transport := DetectTransport(config);
    var route := RouteFor(transport);
    var tools := Discover(connect(route, config));
    Skill(dir, name, transport, tools, |tools|, ToolList(tools), route, config)
  }

  /** Every selected entry must be an object for a generator to be built from it. */
  predicate AllObjects(servers: map<string, Json>) {
    forall n :: n in servers ==> servers[n].JObj?
  }

  /** One skill per server, each in its planned destination. */
  function GenerateAll(servers: map<string, Json>, outputDir: Option<string>, connect: Connect): map<string, Skill>
    requires AllObjects(servers)
  {
    map n | n in servers :: GenerateSkill(servers[n].fields, Destination(outputDir, |servers|, n), n, connect)
  }

  /**
   * The whole generation step, as a value: the skills generated, keyed by
   * server name. ConvertMcpToSkill is checked against it, and the lemmas
   * below are stated about it.
   */
  function Conversion(raw: Object, stem: string, outputDir: Option<string>, selector: Option<string>, connect: Connect)
    : Result<map<string, Skill>, ConvertError>
  {
    match ParseMcpConfig(raw, stem)
    case Err(e) => Err(BadConfig(e))
    case Ok(parsed) =>
      match SelectServers(parsed, selector)
      case Err(e) => Err(e)
      case Ok(servers) =>
        if AllObjects(servers) then
          Ok(GenerateAll(servers, outputDir, connect))
        else
          Err(ServersNotObjects(set n | n in servers && !servers[n].JObj?))
  }

  /**
   * convert_mcp_to_skill: parse, select, then generate every selected server.
   */
  method ConvertMcpToSkill(raw: Object, stem: string, outputDir: Option<string>, selector: Option<string>, connect: Connect)
    returns (r: Result<map<string, Skill>, ConvertError>)
    ensures r == Conversion(raw, stem, outputDir, selector, connect)
  {
    var parsed := ParseMcpConfig(raw, stem);
    if parsed.Err? {
      return Err(BadConfig(parsed.error));
    }
    var servers := parsed.value;
    var selected := SelectServers(servers, selector);
    if selected.Err? {
      return Err(selected.error);
    }
    servers := selected.value;
    if !AllObjects(servers) {
      return Err(ServersNotObjects(set n | n in servers && !servers[n].JObj?));
    }
    var skills := GenerateEach(servers, outputDir, connect);
    r := Ok(skills);
  }

  /**
   * The loop over `servers.items()`: compute each destination, then generate
   * the skill there.
   */
  method GenerateEach(servers: map<string, Json>, outputDir: Option<string>, connect: Connect)
    returns (skills: map<string, Skill>)
    requires AllObjects(servers)
    ensures skills == GenerateAll(servers, outputDir, connect)
  {
    var count := |servers|;
    ghost var all := GenerateAll(servers, outputDir, connect);
    var remaining := servers.Keys;
    skills := map[];
    while remaining != {}
      invariant remaining <= servers.Keys
      invariant skills.Keys == servers.Keys - remaining
      invariant forall n :: n in skills ==> skills[n] == all[n]
      decreases remaining
    {
      var name :| name in remaining;
      var dest: Path;
      if Given(outputDir) && count == 1 {
        dest := Dir(outputDir.value);
      } else {
        var base := if Given(outputDir) then Dir(outputDir.value) else Dir(DefaultBase);
        dest := Child(base, name);
      }
      assert dest == Destination(outputDir, count, name);
      skills := skills[name := GenerateSkill(servers[name].fields, dest, name, connect)];
      remaining := remaining - {name};
    }
  }

  lemma TwoKeys<V>(m: map<string, V>, a: string, b: string)
    requires a in m && b in m && a != b
    ensures |m| >= 2
  {
    var rest := m.Keys - {a};
    assert b in rest;
    assert m.Keys == rest + {a};
  }

  /** No two generated skills share a directory. */
  /** A server name that pathlib joins as one path component, neither merged nor normalised away. */
  predicate SingleComponent(name: string)
  {
    name != "" && name != "." && name != ".." && '/' !in name
  }

  lemma DistinctDestinations(raw: Object, stem: string, outputDir: Option<string>, selector: Option<string>, connect: Connect, a: string, b: string)
    requires SingleComponent(a) && SingleComponent(b)
    requires Conversion(raw, stem, outputDir, selector, connect).Ok?
    requires a in Conversion(raw, stem, outputDir, selector, connect).value
    requires b in Conversion(raw, stem, outputDir, selector, connect).value
    requires a != b
    ensures Conversion(raw, stem, outputDir, selector, connect).value[a].dir !=
            Conversion(raw, stem, outputDir, selector, connect).value[b].dir
  {
    var servers := SelectServers(ParseMcpConfig(raw, stem).value, selector).value;
    TwoKeys(servers, a, b);
  }

  /**
   * {"mcpServers": {"weather": {"command": "wx-server", "args": ["--port", "4000"]}}}
   * with neither an output directory nor a selector yields exactly one skill,
   * named weather, under ./skills, whose configuration runs wx-server.
   */
  lemma WeatherScenario(connect: Connect)
    ensures
      var weather := map["command" := JStr("wx-server"), "args" := JArr([JStr("--port"), JStr("4000")])];
      var r := Conversion(map["mcpServers" := JObj(map["weather" := JObj(weather)])], "config", None, None, connect);
      r.Ok? && r.value.Keys == {"weather"} &&
      r.value["weather"].dir == Child(Dir(DefaultBase), "weather") &&
      r.value["weather"].config["command"] == JStr("wx-server") &&
      r.value["weather"].executor == StdioRoute
  {
  }
}
