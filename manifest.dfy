/**
 * The tool list of the generated SKILL.md (_generate_skill_md): one line
 * per tool, joined by newlines, and the tool count shown in the header.
 */
module Manifest {
  import opened JsonValues
  import opened Discovery

  /**
   * The description text of a tool line AS WRITTEN. The records always carry
   * a `description` key, so `.get('description', 'No description')` never
   * uses its default, and a missing description (None) is formatted as "None".
   */
  function DescriptionTextAsWritten(d: Option<string>): string {
    match d
    case Some(s) => s
    case None => "None"
  }

  /** The description text with the fallback the source evidently intends. */
  function DescriptionText(d: Option<string>): (text: string)
    ensures d.None? ==> text == "No description"
    ensures d.Some? ==> text == d.value
  {
    match d
    case Some(s) => s
    case None => "No description"
  }

  function ToolLineAsWritten(t: Tool): string {
    "- `" + t.name + "`: " + DescriptionTextAsWritten(t.description)
  }

  /** One line of the tool list: "- `name`: description". */
  function ToolLine(t: Tool): string {
    "- `" + t.name + "`: " + DescriptionText(t.description)
  }

  /** The lines of the tool list, one per tool, in catalog order. */
  function ToolLines(tools: seq<Tool>): (lines: seq<string>)
    ensures |lines| == |tools|
    ensures forall i :: 0 <= i < |tools| ==> lines[i] == ToolLine(tools[i])
  {
    if tools == [] then [] else [ToolLine(tools[0])] + ToolLines(tools[1..])
  }

  /** Python's "\n".join(lines). */
  function Join(lines: seq<string>): string
  {
    if |lines| == 0 then ""
    else if |lines| == 1 then lines[0]
    else lines[0] + "\n" + Join(lines[1..])
  }

  /** Python's s.split("\n"), the reading of a joined text back into lines. */
  function Split(s: string): (parts: seq<string>)
    ensures |parts| >= 1
  {
    if s == [] then [""]
    else if s[0] == '\n' then [""] + Split(s[1..])
    else
      var rest := Split(s[1..]);
      [[s[0]] + rest[0]] + rest[1..]
  }

  /** The `tool_list` text embedded in SKILL.md: empty exactly when the catalog is. */
  function ToolList(tools: seq<Tool>): (text: string)
    ensures text == "" <==> tools == []
  {
    Join(ToolLines(tools))
  }

  lemma {:induction false} SplitLine(a: string)
    requires '\n' !in a
    ensures Split(a) == [a]
  {
    if a != [] {
      SplitLine(a[1..]);
      assert [a[0]] + a[1..] == a;
    }
  }

  lemma {:induction false} SplitFirstLine(a: string, b: string)
    requires '\n' !in a
    ensures Split(a + "\n" + b) == [a] + Split(b)
  {
    if a == [] {
      assert a + "\n" + b == ['\n'] + b;
      assert (['\n'] + b)[1..] == b;
    } else {
      var s := a + "\n" + b;
      assert s[0] == a[0];
      assert s[1..] == a[1..] + "\n" + b;
      SplitFirstLine(a[1..], b);
      assert [a[0]] + a[1..] == a;
    }
  }

  /** Splitting the joined lines gives the lines back, as long as none holds a newline. */
  lemma {:induction false} SplitJoin(lines: seq<string>)
    requires |lines| >= 1
    requires forall i :: 0 <= i < |lines| ==> '\n' !in lines[i]
    ensures Split(Join(lines)) == lines
  {
    if |lines| == 1 {
      SplitLine(lines[0]);
    } else {
      SplitFirstLine(lines[0], Join(lines[1..]));
      SplitJoin(lines[1..]);
      assert [lines[0]] + lines[1..] == lines;
    }
  }

  /**
   * The tool list has exactly one line per tool, in catalog order, provided
   * no tool name or description itself contains a newline.
   */
  lemma ToolListLines(tools: seq<Tool>)
    requires |tools| >= 1
    requires forall i :: 0 <= i < |tools| ==>
               '\n' !in tools[i].name && '\n' !in DescriptionText(tools[i].description)
    ensures |Split(ToolList(tools))| == |tools|
    ensures forall i :: 0 <= i < |tools| ==> Split(ToolList(tools))[i] == ToolLine(tools[i])
  {
    var lines := ToolLines(tools);
    forall i | 0 <= i < |lines|
      ensures '\n' !in lines[i]
    {
      assert lines[i] == "- `" + tools[i].name + "`: " + DescriptionText(tools[i].description);
    }
    SplitJoin(lines);
  }

  /** A server that lists no tools gets an empty tool list, which reads back as one blank line. */
  lemma EmptyToolList()
    ensures ToolList([]) == ""
    ensures Split(ToolList([])) == [""]
  {
  }

  /** As written, a tool without a description is listed as "None", never as "No description". */
  lemma MissingDescriptionAsWritten(t: Tool)
    requires t.description.None?
    ensures ToolLineAsWritten(t) == "- `" + t.name + "`: None"
    ensures ToolLineAsWritten(t) != ToolLine(t)
  {
  }
}
