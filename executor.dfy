/**
 * The generated executor.py (both the stdio and the HTTP template): read the
 * persisted configuration, open one session, and run exactly one of list,
 * describe, call or help. The session's answers (the tool listing and what
 * call_tool returns) are inputs; json.loads of the --call text is a
 * parameter too.
 */
module Executor {
  import opened JsonValues
  import opened Transport
  import opened Discovery
  import opened ConfigFormat

  /** The parsed command line: --list, --describe NAME, --call JSON. */
  datatype Args = Args(list: bool, describe: Option<string>, call: Option<string>)

  /** The one operation a run performs. */
  datatype Mode = ListMode | DescribeMode(name: string) | CallMode(payload: string) | HelpMode

  /** A content item of a call result: one with a `text` attribute, or any other kind, seen through model_dump(). */
  datatype Content = TextContent(text: string) | OtherContent(dump: Object)

  /** One printed block: a text line, a value printed as indented JSON, or the usage text. */
  datatype Out = Text(line: string) | Pretty(value: Json) | Usage

  /** What is forwarded to call_tool. */
  datatype CallRequest = CallRequest(tool: Json, arguments: Json)

  /** What a run leaves behind: its stdout blocks, its stderr lines and its exit status. */
  datatype Outcome = Outcome(stdout: seq<Out>, stderr: seq<string>, exitCode: int)

  type CallTool = CallRequest -> seq<Content>

  /** json.loads: the decoded value, or None when the text is not JSON. */
  type Decode = string -> Option<Json>

  /** Flags are checked in a fixed order: list, then describe, then call; none of them means help. */
  function ModeOf(args: Args): (m: Mode)
    ensures m == ListMode <==> args.list
    ensures m.DescribeMode? <==> !args.list && Given(args.describe)
    ensures m.CallMode? <==> !args.list && !Given(args.describe) && Given(args.call)
    ensures m == HelpMode <==> !args.list && !Given(args.describe) && !Given(args.call)
    ensures m.DescribeMode? ==> m.name == args.describe.value
    ensures m.CallMode? ==> m.payload == args.call.value
  {
    if args.list then ListMode
    else if Given(args.describe) then DescribeMode(args.describe.value)
    else if Given(args.call) then CallMode(args.call.value)
    else HelpMode
  }

  function DescriptionJson(d: Option<string>): Json {
    match d
    case Some(s) => JStr(s)
    case None => JNull
  }

  /** The `{name, description}` entry --list prints for a tool. */
  function ListEntry(t: ListedTool): Json {
    JObj(map["name" := JStr(t.name), "description" := DescriptionJson(t.description)])
  }

  /** The array --list prints: one entry per listed tool, in listing order. */
  function ListEntries(listing: seq<ListedTool>): (entries: seq<Json>)
    ensures |entries| == |listing|
    ensures forall i :: 0 <= i < |listing| ==> entries[i] == ListEntry(listing[i])
  {
    if listing == [] then [] else [ListEntry(listing[0])] + ListEntries(listing[1..])
  }

  /** The full `{name, description, inputSchema}` object --describe prints. */
  function ToolJson(t: Tool): Json {
    JObj(map["name" := JStr(t.name), "description" := DescriptionJson(t.description), "inputSchema" := JObj(t.inputSchema)])
  }

  /** The position of the first listed tool with the given name, if any. */
  function FindTool(listing: seq<ListedTool>, name: string): (r: Option<nat>)
    ensures r.Some? ==> r.value < |listing| && listing[r.value].name == name
    ensures r.Some? ==> forall k :: 0 <= k < r.value ==> listing[k].name != name
    ensures r.None? ==> forall k :: 0 <= k < |listing| ==> listing[k].name != name
  {
    if listing == [] then None
    else if listing[0].name == name then Some(0)
    else
      match FindTool(listing[1..], name)
      case None => None
      case Some(k) => Some(k + 1)
  }

  /**
   * The request built from a decoded --call payload: its `tool`, and its
   * `arguments` or {} when that key is absent. Indexing a non-object, or an
   * object without `tool`, raises.
   */
  function CallRequestOf(payload: Json): (r: Result<CallRequest, string>)
    ensures r.Ok? <==> payload.JObj? && "tool" in payload.fields
    ensures r.Ok? ==> r.value.tool == payload.fields["tool"]
    ensures r.Ok? && "arguments" in payload.fields ==> r.value.arguments == payload.fields["arguments"]
    ensures r.Ok? && "arguments" !in payload.fields ==> r.value.arguments == JObj(map[])
    ensures payload.JObj? && "tool" !in payload.fields ==> r == Err("KeyError: 'tool'")
  {
    if !payload.JObj? then Err("TypeError")
    else if "tool" !in payload.fields then Err("KeyError: 'tool'")
    else
      var arguments := if "arguments" in payload.fields then payload.fields["arguments"] else JObj(map[]);
      Ok(CallRequest(payload.fields["tool"], arguments))
  }

  /** How one content item is printed. */
  function RenderItem(c: Content): Out {
    match c
    case TextContent(text) => Text(text)
    case OtherContent(dump) => Pretty(JObj(dump))
  }

  /** The content items printed one block each, in the order returned. */
  function RenderAll(items: seq<Content>): (out: seq<Out>)
    ensures |out| == |items|
    ensures forall i :: 0 <= i < |items| ==> out[i] == RenderItem(items[i])
  {
    if items == [] then [] else [RenderItem(items[0])] + RenderAll(items[1..])
  }

  /** An uncaught exception: a traceback on stderr and exit status 1. */
  function Crash(exception: string): Outcome {
    Outcome([], [exception], 1)
  }

  /**
   * The help branch AS WRITTEN: `parser` is a local of main(), so the
   * reference to it inside run() raises NameError.
   */
  function HelpAsWritten(): Outcome {
    Crash("NameError: name 'parser' is not defined")
  }

  /** The help branch as intended: usage on stdout, and a normal exit. */
  function Help(): Outcome {
    Outcome([Usage], [], 0)
  }

  /**
   * What run() does once the session is open (with the help branch
   * corrected). Run is checked against it. A run fails exactly when it
   * writes to stderr, and a failed run prints nothing on stdout.
   */
  function Dispatch(args: Args, listing: seq<ListedTool>, callTool: CallTool, decode: Decode): (o: Outcome)
    ensures o.exitCode == 0 <==> o.stderr == []
    ensures o.exitCode != 0 ==> o.stdout == []
  {
    match ModeOf(args)
    case ListMode => Outcome([Pretty(JArr(ListEntries(listing)))], [], 0)
    case DescribeMode(name) =>
      (match FindTool(listing, name)
       case Some(k) => Outcome([Pretty(ToolJson(Record(listing[k])))], [], 0)
       case None => Outcome([], ["Tool not found: " + name], 1))
    case CallMode(text) =>
      (match decode(text)
       case None => Crash("JSONDecodeError")
       case Some(payload) =>
         match CallRequestOf(payload)
         case Err(e) => Crash(e)
         case Ok(request) => Outcome(RenderAll(callTool(request)), [], 0))
    case HelpMode => Help()
  }

  /** run() exactly as written: the same, except for the help branch. */
  function DispatchAsWritten(args: Args, listing: seq<ListedTool>, callTool: CallTool, decode: Decode): Outcome {
    if ModeOf(args) == HelpMode then HelpAsWritten() else Dispatch(args, listing, callTool, decode)
  }

  /** The configuration key the executor variant reads with `config[...]`. */
  function SessionKey(variant: Route): string {
    if variant == HttpRoute then "url" else "command"
  }

  /**
   * main() followed by run(): the configuration must exist and hold the
   * variant's key. ExecutorMain is checked against it.
   */
  function Execute(variant: Route, configPath: string, config: Option<Object>,
                   args: Args, listing: seq<ListedTool>, callTool: CallTool, decode: Decode): (o: Outcome)
    ensures o.exitCode == 0 <==> o.stderr == []
    ensures o.exitCode != 0 ==> o.stdout == []
    ensures config.None? ==> o.exitCode == 1
  {
    if config.None? then Outcome([], ["Error: " + configPath + " not found"], 1)
    else if SessionKey(variant) !in config.value then Crash("KeyError: '" + SessionKey(variant) + "'")
    else Dispatch(args, listing, callTool, decode)
  }

  /** run(): the flag tests, the describe search and the loop over content items. */
  method Run(args: Args, listing: seq<ListedTool>, callTool: CallTool, decode: Decode) returns (o: Outcome)
    ensures o == Dispatch(args, listing, callTool, decode)
  {
    if args.list {
      return Outcome([Pretty(JArr(ListEntries(listing)))], [], 0);
    } else if Given(args.describe) {
      var name := args.describe.value;
      var i := 0;
      while i < |listing|
        invariant 0 <= i <= |listing|
        invariant forall k :: 0 <= k < i ==> listing[k].name != name
      {
        if listing[i].name == name {
          return Outcome([Pretty(ToolJson(Record(listing[i])))], [], 0);
        }
        i := i + 1;
      }
      return Outcome([], ["Tool not found: " + name], 1);
    } else if Given(args.call) {
      var callData := decode(args.call.value);
      if callData.None? {
        return Crash("JSONDecodeError");
      }
      var request := CallRequestOf(callData.value);
      if request.Err? {
        return Crash(request.error);
      }
      var items := callTool(request.value);
      var out: seq<Out> := [];
      var i := 0;
      while i < |items|
        invariant 0 <= i <= |items|
        invariant |out| == i
        invariant forall k :: 0 <= k < i ==> out[k] == RenderItem(items[k])
      {
        if items[i].TextContent? {
          out := out + [Text(items[i].text)];
        } else {
          out := out + [Pretty(JObj(items[i].dump))];
        }
        i := i + 1;
      }
      assert out == RenderAll(items);
      return Outcome(out, [], 0);
    } else {
      return Help();
    }
  }

  /** main(): check for the configuration file, read the variant's key, then run. */
  method ExecutorMain(variant: Route, configPath: string, config: Option<Object>,
                      args: Args, listing: seq<ListedTool>, callTool: CallTool, decode: Decode) returns (o: Outcome)
    ensures o == Execute(variant, configPath, config, args, listing, callTool, decode)
  {
    if config.None? {
      return Outcome([], ["Error: " + configPath + " not found"], 1);
    }
    var key := SessionKey(variant);
    if key !in config.value {
      return Crash("KeyError: '" + key + "'");
    }
    o := Run(args, listing, callTool, decode);
  }

  /** Lower-priority flags are ignored: list beats describe and call, describe beats call. */
  lemma ModePriority(args: Args, listing: seq<ListedTool>, callTool: CallTool, decode: Decode)
    ensures args.list ==>
      Dispatch(args, listing, callTool, decode) == Dispatch(Args(true, None, None), listing, callTool, decode)
    ensures !args.list && Given(args.describe) ==>
      Dispatch(args, listing, callTool, decode) == Dispatch(args.(call := None), listing, callTool, decode)
    ensures !args.list && !Given(args.describe) ==>
      Dispatch(args, listing, callTool, decode) == Dispatch(args.(describe := None), listing, callTool, decode)
  {
  }

  /** --describe NAME prints the full record of the first tool so named, and only that. */
  lemma DescribeFound(listing: seq<ListedTool>, name: string, k: nat, call: Option<string>, callTool: CallTool, decode: Decode)
    requires name != ""
    requires k < |listing| && listing[k].name == name
    requires forall j :: 0 <= j < k ==> listing[j].name != name
    ensures Dispatch(Args(false, Some(name), call), listing, callTool, decode)
         == Outcome([Pretty(ToolJson(Tool(name, listing[k].description, listing[k].inputSchema)))], [], 0)
  {
  }

  /** --describe of an unknown name prints nothing on stdout, reports on stderr and exits 1. */
  lemma DescribeMissing(listing: seq<ListedTool>, name: string, call: Option<string>, callTool: CallTool, decode: Decode)
    requires name != ""
    requires forall k :: 0 <= k < |listing| ==> listing[k].name != name
    ensures var o := Dispatch(Args(false, Some(name), call), listing, callTool, decode);
      o.stdout == [] && o.stderr == ["Tool not found: " + name] && o.exitCode == 1
  {
  }

  /**
   * --call forwards `tool` and `arguments` (or {} when absent) and prints
   * every returned content item, in order: text as text, anything else as JSON.
   */
  lemma CallEmitsInOrder(text: string, fields: Object, callTool: CallTool, decode: Decode, listing: seq<ListedTool>)
    requires text != "" && decode(text) == Some(JObj(fields)) && "tool" in fields
    ensures
      var request := CallRequest(fields["tool"], if "arguments" in fields then fields["arguments"] else JObj(map[]));
      var o := Dispatch(Args(false, None, Some(text)), listing, callTool, decode);
      o.exitCode == 0 && o.stderr == [] && |o.stdout| == |callTool(request)| &&
      forall i :: 0 <= i < |o.stdout| ==>
        o.stdout[i] == (if callTool(request)[i].TextContent? then Text(callTool(request)[i].text)
                        else Pretty(JObj(callTool(request)[i].dump)))
  {
  }

  /** As written, running with no flag at all fails with exit status 1 instead of printing usage. */
  lemma NoFlagsAsWritten(listing: seq<ListedTool>, callTool: CallTool, decode: Decode)
    ensures DispatchAsWritten(Args(false, None, None), listing, callTool, decode).exitCode == 1
    ensures DispatchAsWritten(Args(false, None, None), listing, callTool, decode).stdout == []
    ensures DispatchAsWritten(Args(false, None, None), listing, callTool, decode).stderr
         == ["NameError: name 'parser' is not defined"]
  {
  }

  /** With the help branch corrected, no flag (or only empty ones) prints usage and exits normally. */
  lemma NoFlagsPrintsUsage(args: Args, listing: seq<ListedTool>, callTool: CallTool, decode: Decode)
    requires !args.list && !Given(args.describe) && !Given(args.call)
    ensures Dispatch(args, listing, callTool, decode) == Outcome([Usage], [], 0)
  {
  }

  /** A missing configuration file is reported before any session is opened. */
  lemma MissingConfig(variant: Route, configPath: string, args: Args, listing: seq<ListedTool>, callTool: CallTool, decode: Decode)
    ensures Execute(variant, configPath, None, args, listing, callTool, decode)
         == Outcome([], ["Error: " + configPath + " not found"], 1)
  {
  }

  /**
   * Without an explicit transport, a configuration that names an endpoint
   * always gets an executor variant whose `config[...]` key it holds.
   */
  lemma ExecutorKeyPresent(config: Object)
    requires HasEndpoint(config) && "transport" !in config
    ensures SessionKey(RouteFor(DetectTransport(config))) in config
  {
  }
}
