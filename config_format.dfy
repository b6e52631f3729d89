/**
 * Classification of a decoded configuration file (parse_mcp_config) into a
 * map from server name to that server's configuration.
 */
module ConfigFormat {
  import opened JsonValues

  /** Why a configuration file was refused. */
  datatype ConfigError =
    | UnrecognizedFormat          // neither `mcpServers` nor `command`/`url`
    | ServersNotAnObject          // `mcpServers` holds something other than an object
    | NameNotAString(name: Json)  // a flat file whose `name` is not a string

  /** A flat configuration names a server endpoint: a command to spawn or a URL. */
  predicate HasEndpoint(raw: Object) {
    "command" in raw || "url" in raw
  }

  /**
   * Sort a decoded file into one of the three accepted shapes. `stem` is the
   * file name without its extension. The flat-with-name shape pops `name`
   * from the decoded object; that object is private to the parse, so the pop
   * is the removal of the key from the value returned.
   */
  function ParseMcpConfig(raw: Object, stem: string): (r: Result<map<string, Json>, ConfigError>)
    // the nested shape wins over the flat ones and is returned unchanged
    ensures "mcpServers" in raw ==> (r.Ok? <==> raw["mcpServers"].JObj?)
    ensures "mcpServers" in raw && r.Ok? ==> JObj(r.value) == raw["mcpServers"]
    // a flat file is accepted exactly when it names an endpoint (and any name is a string)
    ensures "mcpServers" !in raw ==> (r.Ok? <==> HasEndpoint(raw) && ("name" in raw ==> raw["name"].JStr?))
    ensures "mcpServers" !in raw && !HasEndpoint(raw) ==> r == Err(UnrecognizedFormat)
    // and then yields one server, keyed by its name or else by the file stem, without `name`
    ensures "mcpServers" !in raw && r.Ok? ==>
      r.value.Keys == {if "name" in raw then raw["name"].s else stem}
    ensures "mcpServers" !in raw && r.Ok? ==>
      forall n :: n in r.value ==> r.value[n] == JObj(raw - {"name"})
  {
    if "mcpServers" in raw then
      var servers := raw["mcpServers"];
      if servers.JObj? then Ok(servers.fields) else Err(ServersNotAnObject)
    else if "name" in raw && HasEndpoint(raw) then
      var name := raw["name"];
      if name.JStr? then Ok(map[name.s := JObj(raw - {"name"})]) else Err(NameNotAString(name))
    else if HasEndpoint(raw) then
      assert raw - {"name"} == raw;
      Ok(map[stem := JObj(raw)])
    else
      Err(UnrecognizedFormat)
  }

  /** Every server of a flat file still names its endpoint and no longer carries `name`. */
  lemma FlatServersKeepEndpoint(raw: Object, stem: string)
    requires "mcpServers" !in raw && ParseMcpConfig(raw, stem).Ok?
    ensures forall n :: n in ParseMcpConfig(raw, stem).value ==>
      ParseMcpConfig(raw, stem).value[n].JObj? &&
      HasEndpoint(ParseMcpConfig(raw, stem).value[n].fields) &&
      "name" !in ParseMcpConfig(raw, stem).value[n].fields
  {
  }

  /** A `name` without `command` or `url` is not a recognised shape. */
  lemma NameAloneIsUnrecognized(raw: Object, stem: string)
    requires "mcpServers" !in raw && "name" in raw && !HasEndpoint(raw)
    ensures ParseMcpConfig(raw, stem) == Err(UnrecognizedFormat)
  {
  }

  /** The file local.json holding {"command": "echo", "args": ["hi"]} yields one server named "local". */
  lemma UnnamedFlatFile()
    ensures
      var raw := map["command" := JStr("echo"), "args" := JArr([JStr("hi")])];
      ParseMcpConfig(raw, "local") == Ok(map["local" := JObj(raw)])
  {
  }
}
