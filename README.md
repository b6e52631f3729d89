# MCP-to-Skill generator: a verified model of its decision logic

`mcp_to_skill.py` turns MCP server configurations into "skills". Each skill is
a directory holding a `SKILL.md` manifest, an `executor.py` dispatcher and an
`mcp-config.json` copy of the server's configuration. Around its I/O (MCP
sessions over stdio or Streamable HTTP, file writes, argparse) the script makes
a handful of sequential decisions over decoded JSON. This project models those
decisions in Dafny and proves what they promise:

- transport detection, and the single routing test that picks the HTTP or the
  stdio client for discovery and for the executor variant (`transport.dfy`);
- discovery of the tool catalog, with its fixed one-tool fallback whenever the
  session fails for any reason (`discovery.dfy`);
- the tool list of `SKILL.md`: one line per tool, newline-joined (`manifest.dfy`);
- classification of a configuration file into the nested `mcpServers`
  shape, the flat shape with `name`, or the flat shape keyed by the file stem
  (`config_format.dfy`);
- server selection by `--server`, destination planning and per-server
  generation (`generator.dfy`);
- the generated executor: mode priority (list, then describe, then call, then
  help), the first-match describe search, the `arguments` default of call mode,
  and printing the content items in order (`executor.dfy`).

Decoded JSON is the datatype `JsonValues.Json`, and objects are
`map<string, Json>`. Python's truthiness of optional string arguments (`None`
and `""` both false) is `JsonValues.Given`. MCP sessions are foreign library
code, so their answers are parameters. Discovery receives a `connect` function
that maps a route and a configuration to a listing or a `DiscoveryError`. The
executor receives the listing, a `callTool` function for `call_tool`, and a
`decode` function for `json.loads`. An uncaught Python exception is modelled
as an outcome with the exception on stderr and exit status 1.

The executor code is a string template that appears twice in the source: the
stdio variant at lines 243-299 and the HTTP variant at lines 327-387. Their
`run` bodies are identical except for how the session is opened. The model
cites the stdio copy. `Executor.SessionKey` captures the one difference that
matters: `config["command"]` for stdio and `config["url"]` for HTTP.

The model tests configuration keys directly, as the code does: a
configuration is a JSON object, and its transport is read from the
`transport`, `url` and `command` keys. Two members model corrected behaviour
rather than the code as written; each has an as-written twin (see Findings):

- the help branch of `run` calls `parser.print_help()` (line 277), so it means
  to print usage; as written it raises NameError. `Executor.Dispatch`, and
  through it `Executor.Run`, `Executor.Execute` and `Executor.ExecutorMain`,
  print usage and exit 0 there; `Executor.DispatchAsWritten` is the code as
  written;
- the manifest's `.get('description', 'No description')` (line 149) means to
  show `No description` for a tool without one; as written it shows `None`.
  `Manifest.DescriptionText`, and through it `Manifest.ToolLine`,
  `Manifest.ToolLines`, `Manifest.ToolList`, `Generator.GenerateSkill` and
  `Generator.Conversion`, use the fallback; `Manifest.ToolLineAsWritten` is
  the code as written.

## Model

| member | source | states |
|---|---|---|
| `Transport.DetectTransport` | mcp_to_skill.py:37-42 | an explicit `transport` value always decides; otherwise `"http"` whenever `url` is present (even with `command`), else `"stdio"` |
| `Transport.RouteFor` | mcp_to_skill.py:58-61 | the HTTP route is taken exactly for the strings `http`, `sse`, `streamable-http`; every other value, of any JSON kind, takes the stdio route |
| `Transport.ConfigRoute` | mcp_to_skill.py:37-61 | a configuration routes to HTTP iff its `transport` is one of the three HTTP names, or, when it has no `transport`, iff it has a `url` |
| `Discovery.Records` | mcp_to_skill.py:83-90 | one `{name, description, inputSchema}` record per listed tool, same count and same order |
| `Discovery.MockTools` | mcp_to_skill.py:132-145 | the fallback catalog has exactly one tool, `example_tool`, with the fixed description; its schema requires exactly `param1`, and every required name is a key of `properties` |
| `Discovery.Discover` | mcp_to_skill.py:63-130 | whenever the session returns or raises, discovery yields a catalog: any session failure (import or other exception) gives the mock catalog; a listing gives its records in order |
| `Discovery.DiscoveredNames` | mcp_to_skill.py:115-122 | a successful discovery keeps each tool's name and schema at its position |
| `Discovery.FailedDiscoveryIsMock` | mcp_to_skill.py:125-130 | a failed discovery yields exactly one tool, named `example_tool` |
| `Manifest.DescriptionText` | mcp_to_skill.py:149 | a tool line shows the description, or `No description` when there is none (corrected form, see Findings) |
| `Manifest.ToolLines` | mcp_to_skill.py:148-150 | one `` - `name`: description `` line per tool, in catalog order (description with the corrected fallback) |
| `Manifest.ToolList` | mcp_to_skill.py:148-150 | the newline-joined tool list is empty exactly when the catalog is |
| `Manifest.EmptyToolList` | mcp_to_skill.py:148-151 | a server with no tools gets an empty tool list, which reads back as a single blank line |
| `Manifest.SplitJoin` | mcp_to_skill.py:148-150 | the newline join of one or more newline-free lines splits back into exactly those lines |
| `Manifest.ToolListLines` | mcp_to_skill.py:148-151 | for one or more tools, the tool-list text read back by lines has exactly one line per tool, each that tool's line (corrected description), provided no name or description contains a newline; zero tools is `Manifest.EmptyToolList` |
| `Manifest.MissingDescriptionAsWritten` | mcp_to_skill.py:149 | as written, a tool without a description is listed as `None`, never with the `No description` default |
| `ConfigFormat.ParseMcpConfig` | mcp_to_skill.py:401-424 | `mcpServers` wins and its object is returned unchanged; a flat file is accepted iff it has `command` or `url`, yielding one server keyed by its `name` (removed from the config) or by the file stem; anything else is an unrecognised format |
| `ConfigFormat.FlatServersKeepEndpoint` | mcp_to_skill.py:413-421 | a server from a flat file is an object that still names its endpoint and no longer carries `name` |
| `ConfigFormat.NameAloneIsUnrecognized` | mcp_to_skill.py:414-424 | a flat file with `name` but neither `command` nor `url` is an unrecognised format |
| `ConfigFormat.UnnamedFlatFile` | mcp_to_skill.py:418-421 | `{"command": "echo", "args": ["hi"]}` in `local.json` yields the single server `local` with that configuration |
| `Generator.SelectServers` | mcp_to_skill.py:434-440 | no selector (or an empty one) keeps every server; a selector that is not a key is an error listing the available names; a present selector leaves exactly that key with its original configuration |
| `Generator.DestinationPlan` | mcp_to_skill.py:444-450 | a given output directory is the destination when exactly one server remains; otherwise each server goes to `<base>/<name>`, with base the output directory or `./skills` |
| `Generator.Destination` | mcp_to_skill.py:445-449 | the destination is the output directory itself exactly when one is given and one server remains; otherwise it is a child, named after the server, of a single base directory |
| `Generator.GenerateSkill` | mcp_to_skill.py:31-52 | a skill keeps its directory, name and configuration verbatim; its transport is the detected one and its executor variant that transport's route; its catalog is what discovery over that same route yields; its SKILL.md tool list is the tool list of that catalog (corrected description fallback); its tool count equals the number of tools and of tool lines |
| `Generator.GenerateEach` | mcp_to_skill.py:444-453 | the loop over the servers generates exactly one skill per server, each at its planned destination |
| `Generator.ConvertMcpToSkill` | mcp_to_skill.py:427-453 | the generation step equals parse, then select, then generate every selected server, with the errors of each stage |
| `Generator.DistinctDestinations` | mcp_to_skill.py:444-450 | two generated skills with distinct single-component names (non-empty, not `.` or `..`, without `/`) get distinct destination directories |
| `Generator.WeatherScenario` | mcp_to_skill.py:409-453 | `{"mcpServers": {"weather": {"command": "wx-server", ...}}}` with no flags yields one skill `weather` under `./skills`, a stdio executor, and a configuration whose `command` is `wx-server` |
| `Executor.ModeOf` | mcp_to_skill.py:254-277 | list mode iff `--list`; describe iff not list and a non-empty `--describe`; call iff neither and a non-empty `--call`; help iff none of them |
| `Executor.ListEntries` | mcp_to_skill.py:255-257 | `--list` prints one `{name, description}` entry per listed tool, in listing order |
| `Executor.FindTool` | mcp_to_skill.py:261-266 | the describe search finds the first tool with the name, or reports that no tool has it |
| `Executor.CallRequestOf` | mcp_to_skill.py:269-270 | a call forwards the payload's `tool` and its `arguments`, or `{}` when absent; a payload that is not an object with `tool` raises |
| `Executor.RenderAll` | mcp_to_skill.py:271-275 | content items are printed one block each, in the order returned, as text when textual and as JSON otherwise |
| `Executor.Run` | mcp_to_skill.py:254-277 | `run` with its describe loop and its content loop behaves exactly as the specification `Dispatch` (help branch corrected) |
| `Executor.Dispatch` | mcp_to_skill.py:254-277 | a run fails (non-zero exit) exactly when it writes to stderr, and a failed run prints nothing on stdout (help branch corrected) |
| `Executor.Execute` | mcp_to_skill.py:287-295 | the same for the whole executor, and a missing configuration file always fails |
| `Executor.ExecutorMain` | mcp_to_skill.py:243-295 | equals `Execute`: a missing configuration file is reported with its path and exit 1; a configuration lacking the variant's key raises KeyError; otherwise `run` decides, with the help branch corrected |
| `Executor.ModePriority` | mcp_to_skill.py:254-277 | lower-priority flags are ignored: `--list` beats `--describe` and `--call`, and `--describe` beats `--call` |
| `Executor.DescribeFound` | mcp_to_skill.py:259-264 | `--describe` of a listed name prints the full record (including `inputSchema`) of the first tool with that name and exits 0 |
| `Executor.DescribeMissing` | mcp_to_skill.py:265-266 | `--describe` of an unknown name prints nothing on stdout, `Tool not found: <name>` on stderr, and exits 1 |
| `Executor.CallEmitsInOrder` | mcp_to_skill.py:268-275 | `--call` forwards `tool` and `arguments` (default `{}`), then prints every returned item in order and exits 0 |
| `Executor.NoFlagsAsWritten` | mcp_to_skill.py:276-277 | as written, a run with no flag ends in NameError on stderr, nothing on stdout, exit 1 |
| `Executor.NoFlagsPrintsUsage` | mcp_to_skill.py:276-277 | with the help branch corrected, a run with no non-empty flag prints usage and exits 0 |
| `Executor.MissingConfig` | mcp_to_skill.py:287-290 | a missing configuration file gives `Error: <path> not found` on stderr and exit 1, whatever the flags |
| `Executor.ExecutorKeyPresent` | mcp_to_skill.py:243-248 | without an explicit `transport`, a configuration naming `command` or `url` holds the key its executor variant reads |

## Left out

- MCP sessions are not modelled: the initialize handshake, `list_tools` and `call_tool` (lines 63-130, 243-252, 327-340). They are foreign async library calls, so their results are inputs. Session failures at executor time propagate uncaught in the source and are not modelled. The arguments passed to the session (`args`, `env`, `headers` and their defaults) are also left out.
- The httpx client and its timeouts (lines 72, 331) are network plumbing.
- File and directory creation, `write_text`, `chmod`, and `json.dump` of the configuration are I/O. The model keeps the written configuration as `Skill.config`, unchanged. Existence of the executor's configuration file is an input.
- JSON text is not modelled: `json.load`, `json.loads` (a `decode` parameter), `json.dumps` with indentation, and `model_dump`. `Pretty` carries the value, not its text. Objects are maps, so key order is not kept. Numbers are exact reals, so float rounding is not modelled.
- argparse, the progress and warning `print`s, and the exact traceback text are left out. An uncaught exception is modelled as its name on stderr with exit 1.
- The static prose of `SKILL.md` (lines 153-213) is left out. The model keeps only the tool count and the tool list.
- `Path.stem` (line 420) is left out: the stem is an input. Path joining is structural (`Generator.Path`), so pathlib's normalisation of the joined path is not modelled. That normalisation drops `.` segments and lets an absolute name replace the base. Distinct destinations are proved for the structural paths only.
- Generator.DistinctDestinations: proved only for single-component server names. pathlib merges other names: `a` and `a/` join to the same directory, so do `a` and `./a`, and `` and `.` (both give the base itself). An absolute name replaces the base. When two servers share a destination, the later one overwrites the earlier one's files.
- A session that never answers is not modelled. The stdio session (lines 100-130) has no timeout, so generation blocks on such a server. Only the HTTP client has a read timeout (line 72). `Discovery.Discover` covers the sessions that return or raise.
- Dict iteration order is not modelled, so the order in which servers are generated is unknown. So is the order of names in the "Available servers" message, which the model keeps as a set.
- The asyncio event loop is left out. Everything runs sequentially.
- ConfigFormat.ParseMcpConfig: the decoded file must be a JSON object. A top-level array or scalar, which the source would probe with Python's `in`, is not modelled.
- ConfigFormat.ParseMcpConfig: a non-object `mcpServers` is reported as `ServersNotAnObject`. The source returns such a value unchanged and fails later: at line 435 (`in` on null, a boolean or a number, with `--server`), at line 436 or 440 (a string or list, with `--server`), at line 442 (`len` of null, a boolean or a number), or at line 444 (`.items()` of a string or list).
- ConfigFormat.ParseMcpConfig: a non-string `name` is reported as `NameNotAString`. In the source, an unhashable name raises TypeError at line 416. A number, boolean or null name becomes the server key and can still be generated when a single output directory is given.
- Generator.ConvertMcpToSkill: a selected server entry that is not an object rejects the whole run before anything is generated. The source raises when it builds the generator for that entry (line 35), after generating the entries before it.

## Findings

| source | as written | input that shows it | evidently intended | confidence | as-written member | corrected member |
|---|---|---|---|---|---|---|
| mcp_to_skill.py:276-277 (also 364-365) | `run` calls `parser.print_help()`, but `parser` is local to `main()`, so the help branch raises NameError and exits 1 | executor run with no `--list`, `--describe` or `--call` | print the usage text and exit normally | high, not executed | `Executor.NoFlagsAsWritten` (on `Executor.DispatchAsWritten`) | `Executor.NoFlagsPrintsUsage` (on `Executor.Dispatch`, used by `Executor.Run`) |
| mcp_to_skill.py:149 | every record has a `description` key, so `.get('description', 'No description')` never falls back, and a tool whose description is None is listed as `None` | a listed tool with no description | list it as `No description` | medium, not executed | `Manifest.MissingDescriptionAsWritten` (on `Manifest.ToolLineAsWritten`) | `Manifest.DescriptionText` (used by `Manifest.ToolLine`) |
