/**
 * Reading a workflow from its markdown text.  The text has a free part
 * (a "# <name>" title and description lines), a "# Workflow" section with
 * a mermaid flowchart, and a "# Prompts" section with "## User",
 * "## Assistant" and "## System" prompts.  Flowchart lines declare
 * activities ("CHECK_X{expr}"), parameters ("PARAMS[...]") and edges
 * ("A --> |LABEL| B").
 *
 * The step functions describe the result of reading; the WorkflowReader
 * class at the end reads line by line, updating its workflow in place, and
 * each of its methods is proved to agree with the matching function.  The
 * line iterator the source passes between its loops is modelled by the
 * list of lines and the position of the next line to fetch.
 */
module Reader {
  import opened Wrappers
  import opened PyStrings
  import opened Dicts
  import opened Prompts
  import opened Workflows
  import opened ReaderScan
  import Activities

  datatype Section = NONE | WORKFLOW | PROMPTS

  /** WorkflowReader._check_section */
  function CheckSection(ls: string): (s: Section)
    ensures s == WORKFLOW <==> StartsWith(ls, "# Workflow")
    ensures s == PROMPTS <==> !StartsWith(ls, "# Workflow") && StartsWith(ls, "# Prompts")
  {
    if StartsWith(ls, "# Workflow") then WORKFLOW
    else if StartsWith(ls, "# Prompts") then PROMPTS
    else NONE
  }

  /** A line whose trimmed form starts a section of the document. */
  predicate IsHeader(line: string) {
    StartsWith(Strip(line), "# ")
  }

  /** The entry points, which only the end of reading sets. */
  function Entries(w: Workflow): (Option<string>, Option<string>, Option<string>) {
    (w.start, w.onSuccess, w.onFailed)
  }

  /** What reading a line may do to a workflow: it keeps the entry points
      and every activity already declared. */
  predicate Extends(w: Workflow, w': Workflow) {
    Entries(w') == Entries(w) && w.activities.Keys <= w'.activities.Keys
  }

  // ---------------------------------------------------------------------
  // Parameters

  const UnpackError: PyError := ValueError("too many values to unpack (expected 2)")

  /** One comma-separated piece of a PARAMS expression. */
  function AddParam(params: Dict<string>, piece: string): Result<Dict<string>> {
    var p := Strip(piece);
    if |p| == 0 then Ok(params)
    else if Find(p, "=") > 0 then
      var kv := Split(p, "=");
      if |kv| != 2 then Err(UnpackError) else Ok(Put(params, kv[0], kv[1]))
    else Ok(Put(params, p, ""))
  }

  /** The pieces in order. */
  function AddParams(params: Dict<string>, pieces: seq<string>): Result<Dict<string>>
    decreases |pieces|
  {
    if pieces == [] then Ok(params)
    else
      var next :- AddParam(params, pieces[0]);
      AddParams(next, pieces[1..])
  }

  /** The pieces from i on: the i-th piece, then the rest. */
  lemma AddParamsStep(params: Dict<string>, pieces: seq<string>, i: nat)
    requires i < |pieces|
    ensures AddParams(params, pieces[i..])
            == match AddParam(params, pieces[i])
               case Err(e) => Err(e)
               case Ok(next) => AddParams(next, pieces[i + 1..])
  {
    assert pieces[i..][0] == pieces[i] && pieces[i..][1..] == pieces[i + 1..];
  }

  /** _parse_params */
  function ParamsRead(wf: Workflow, expr: string): (r: Result<Workflow>)
    ensures r.Ok? ==> r.value == wf.(params := r.value.params)
  {
    var params :- AddParams(wf.params, Split(QuotedBody(expr), ","));
    Ok(wf.(params := params))
  }

  // ---------------------------------------------------------------------
  // Activities and edges

  /** The kind prefix of an activity name: the text before the first "_"
      (found after index 0), or the whole name. */
  function KindPrefix(name: string): string {
    var pos := Find(name, "_");
    if pos > 0 then name[..pos] else name
  }

  function PrefixError(prefix: string): string {
    "Invalid Activity prefix! '" + prefix + "' not found in Activity.Kind enumeration."
  }

  /** _parse_activity */
  function ActivityRead(wf: Workflow, line: string): (r: Result<Workflow>)
    ensures r.Ok? ==> Extends(wf, r.value)
  {
    var (name, expr) := ActivityOfLine(line);
    if name !in wf.activities then
      var prefix := KindPrefix(name);
      if prefix == "PARAMS" then ParamsRead(wf, expr)
      else
        var kind := Activities.ParseKind(prefix);
        if kind.None? then Err(ValueError(PrefixError(prefix)))
        else Ok(wf.(activities := wf.activities[name := Activities.NewActivity(kind.value, name, expr)]))
    else if |expr| > 0 then
      Ok(wf.(activities := wf.activities[name := wf.activities[name].(expression := expr)]))
    else Ok(wf)
  }

  function FlowError(attr: string, line: string): string {
    "Invalid flow attribute '" + attr + "' in flowchart line '" + line + "'! "
    + "For positive check results use: YES, TRUE, '', or no attribute. "
    + "For negative check results use: NO, FALSE, OTHER, ELSE, or FAILED."
  }

  /** _parse_flow: wires `next` or `other` of the left activity. */
  function FlowRead(wf: Workflow, line: string, left: string, right: string): (r: Result<Workflow>)
    ensures r.Ok? ==> Extends(wf, r.value) && r.value.activities.Keys == wf.activities.Keys
  {
    var l := EdgeLeft(left);
    var (attr, r) := EdgeRight(right);
    if l !in wf.activities then Err(KeyError(l))
    else if r !in wf.activities then Err(KeyError(r))
    else
      var a := wf.activities[l];
      if |attr| == 0 then Ok(wf.(activities := wf.activities[l := a.(next := Some(r))]))
      else if Upper(attr) in Activities.FailedNames then Ok(wf.(activities := wf.activities[l := a.(other := Some(r))]))
      else if Upper(attr) in Activities.SucceededNames then Ok(wf.(activities := wf.activities[l := a.(next := Some(r))]))
      else Err(ValueError(FlowError(attr, line)))
  }

  /** _parse_flowchart_line (for a trimmed line) */
  function FlowchartLineRead(wf: Workflow, line: string): (r: Result<Workflow>)
    ensures r.Ok? ==> Extends(wf, r.value)
  {
    if StartsWith(line, "%%") then Ok(wf)
    else
      var pos := Find(line, "-->");
      if pos > 0 then
        var left := Strip(line[..pos]);
        var right := Strip(line[pos + 3..]);
        var wf1 :- ActivityRead(wf, left);
        var wf2 :- ActivityRead(wf1, right);
        FlowRead(wf2, line, left, right)
      else ActivityRead(wf, line)
  }

  // ---------------------------------------------------------------------
  // Sections

  /** Where a section parser stopped: the workflow so far, the trimmed
      header line that ended the section (None at the end of the input), and
      the position of the next line. */
  datatype Resume = Resume(wf: Workflow, header: Option<string>, pos: nat)

  /** _parse_section_workflow from `line` on, with the mermaid and
      flowchart flags as given and lines[i..] still to fetch. */
  function WorkflowSectionFrom(wf: Workflow, line: string, inMermaid: bool, inFlowchart: bool,
                               lines: seq<string>, i: nat): (r: Result<Resume>)
    requires i <= |lines|
    ensures r.Ok? ==> i <= r.value.pos <= |lines| && Extends(wf, r.value.wf)
    ensures r.Ok? && r.value.header.Some? ==>
              StartsWith(r.value.header.value, "# ") && (IsHeader(line) || r.value.pos > i)
    decreases |lines| - i
  {
    var ls := Strip(line);
    if StartsWith(ls, "# ") then Ok(Resume(wf, Some(ls), i))
    else
      var (m, f) := Fence(ls, inMermaid, inFlowchart);
      var wf1 :- if IsFlowchartLine(ls, inMermaid, inFlowchart) then FlowchartLineRead(wf, ls) else Ok(wf);
      if i == |lines| then Ok(Resume(wf1, None, i))
      else WorkflowSectionFrom(wf1, lines[i], m, f, lines, i + 1)
  }

  /** The in-mermaid and in-flowchart flags after a trimmed line: a
      "```mermaid" fence opens a diagram, a "flowchart" line inside it starts
      the flowchart, and any other fence closes both. */
  function Fence(ls: string, inMermaid: bool, inFlowchart: bool): (bool, bool) {
    if StartsWith(ls, "```mermaid") then (true, inFlowchart)
    else if inMermaid && StartsWith(ls, "flowchart") then (inMermaid, true)
    else if StartsWith(ls, "```") then (false, false)
    else (inMermaid, inFlowchart)
  }

  /** A non-empty line of an open flowchart that is neither a fence nor the
      "flowchart" line is a flowchart statement. */
  predicate IsFlowchartLine(ls: string, inMermaid: bool, inFlowchart: bool) {
    !StartsWith(ls, "```mermaid") && !(inMermaid && StartsWith(ls, "flowchart"))
    && !StartsWith(ls, "```") && |ls| > 0 && inMermaid && inFlowchart
  }

  /** The role a "## ..." prompt header switches to, if the line is one. */
  function RoleHeader(ls: string): Option<string> {
    if StartsWith(ls, "## User") then Some(User)
    else if StartsWith(ls, "## Assistant") then Some(Assistant)
    else if StartsWith(ls, "## System") then Some(System)
    else None
  }

  /** How a missing role reaches the Prompt constructor. */
  function RoleText(role: Option<string>): string {
    if role.Some? then role.value else "None"
  }

  /** Stores the buffered prompt, when there is one. */
  function Flush(wf: Workflow, content: string, role: Option<string>, key: string): (r: Result<Workflow>)
    ensures r.Ok? ==> r.value == wf.(prompts := r.value.prompts)
  {
    if |content| == 0 then Ok(wf)
    else
      var p :- NewPrompt(RoleText(role), content);
      Ok(wf.(prompts := Put(wf.prompts, key, p)))
  }

  /** _parse_section_prompts from `line` on, with the prompt buffer, its
      role and key as given and lines[i..] still to fetch. */
  function PromptsSectionFrom(wf: Workflow, line: string, content: string, role: Option<string>,
                              key: string, lines: seq<string>, i: nat): (r: Result<Resume>)
    requires i <= |lines|
    ensures r.Ok? ==> i <= r.value.pos <= |lines| && r.value.wf == wf.(prompts := r.value.wf.prompts)
    ensures r.Ok? && r.value.header.Some? ==>
              StartsWith(r.value.header.value, "# ") && (IsHeader(line) || r.value.pos > i)
    decreases |lines| - i
  {
    var ls := Strip(line);
    if StartsWith(ls, "# ") then Ok(Resume(wf, Some(ls), i))
    else
      var step :- PromptLineRead(wf, PromptBuffer(content, role, key), line);
      var (wf1, b) := step;
      if i == |lines| then
        var wf2 :- Flush(wf1, b.content, b.role, b.key);
        Ok(Resume(wf2, None, i))
      else PromptsSectionFrom(wf1, lines[i], b.content, b.role, b.key, lines, i + 1)
  }

  /** The prompt being read: its text so far, its role and its key. */
  datatype PromptBuffer = PromptBuffer(content: string, role: Option<string>, key: string)

  /** One line of the prompts section: a "## <Role>" header stores the
      buffered prompt and starts a new one under the header's key; any other
      line adds to the buffer once a role is set. */
  function PromptLineRead(wf: Workflow, b: PromptBuffer, line: string): (r: Result<(Workflow, PromptBuffer)>)
    ensures r.Ok? ==> r.value.0 == wf.(prompts := r.value.0.prompts)
  {
    var ls := Strip(line);
    var newRole := RoleHeader(ls);
    if newRole.Some? then
      var wf1 :- Flush(wf, b.content, b.role, b.key);
      Ok((wf1, PromptBuffer("", newRole, Strip(ReplaceAll(ls, "## ", "")))))
    else Ok((wf, if b.role.Some? then b.(content := b.content + line) else b))
  }

  /** The main loop of _parse_content from `line` on, in `section`, with
      lines[i..] still to fetch. */
  function ContentFrom(wf: Workflow, section: Section, line: string, lines: seq<string>, i: nat): (r: Result<Workflow>)
    requires i <= |lines|
    ensures r.Ok? ==> Extends(wf, r.value)
    decreases |lines| - i
  {
    if StartsWith(Strip(line), "# ") || section == NONE then
      var (wf1, sec) := LineRead(wf, section, line);
      if i == |lines| then Ok(wf1) else ContentFrom(wf1, sec, lines[i], lines, i + 1)
    else
      var res :- SectionRead(wf, section, line, lines, i);
      if res.header.Some? then ContentFrom(res.wf, section, res.header.value, lines, res.pos)
      else Ok(res.wf)
  }

  /** A line outside the sections' own parsers: a header opens its section
      (and names the workflow when it opens none), any other non-blank line
      adds to the description. */
  function LineRead(wf: Workflow, section: Section, line: string): (r: (Workflow, Section))
    ensures Extends(wf, r.0) && r.0.activities == wf.activities && r.0.prompts == wf.prompts
    ensures !StartsWith(Strip(line), "# ") ==> r.1 == section
  {
    var ls := Strip(line);
    if StartsWith(ls, "# ") then
      var sec := CheckSection(ls);
      (if sec == NONE then wf.(name := Strip(ReplaceAll(line, "# ", ""))) else wf, sec)
    else
      (if |ls| > 0 then wf.(description := wf.description + line) else wf, section)
  }

  /** The section's own parser, from its first line on. */
  function SectionRead(wf: Workflow, section: Section, line: string, lines: seq<string>, i: nat): (r: Result<Resume>)
    requires i <= |lines|
    ensures r.Ok? ==> i <= r.value.pos <= |lines| && Extends(wf, r.value.wf)
    ensures r.Ok? && r.value.header.Some? ==> IsHeader(line) || r.value.pos > i
  {
    if section == WORKFLOW then WorkflowSectionFrom(wf, line, false, false, lines, i)
    else PromptsSectionFrom(wf, line, "", None, "", lines, i)
  }

  /** The entry points set after reading: START (which must exist), and
      the ON_FAILED and ON_START handlers when they exist. */
  function EntryPoints(wf: Workflow): Result<Workflow> {
    var wf1 :- if wf.start.Some? then Ok(wf)
               else if "START" in wf.activities then Ok(wf.(start := Some("START")))
               else Err(KeyError("START"));
    var wf2 := if wf1.onFailed.None? && "ON_FAILED" in wf1.activities then wf1.(onFailed := Some("ON_FAILED")) else wf1;
    Ok(if wf2.onSuccess.None? && "ON_START" in wf2.activities then wf2.(onSuccess := Some("ON_START")) else wf2)
  }

  /** _parse_content: the loop starts on an empty line. */
  function ContentRead(wf: Workflow, lines: seq<string>): Result<Workflow> {
    var wf1 :- ContentFrom(wf, NONE, "", lines, 0);
    EntryPoints(wf1)
  }

  /** _parse_content reads the body, then sets the entry points. */
  lemma ContentReadBody(wf: Workflow, lines: seq<string>)
    ensures var body := ContentFrom(wf, NONE, "", lines, 0);
            ContentRead(wf, lines) == if body.Ok? then EntryPoints(body.value) else Err(body.error)
  {
  }

  /** load_from_string */
  function StringRead(content: string): Result<Workflow> {
    ContentRead(NewWorkflow(""), Split(content, "\n"))
  }

  // ---------------------------------------------------------------------
  // Properties of reading

  /** Whatever the text, a workflow read without error starts at the
      START activity, and its on_failed and on_success handlers are
      ON_FAILED and ON_START exactly when those activities were declared;
      a text without a START activity raises KeyError('START'). */
  lemma StringReadEntryPoints(content: string)
    ensures var r := StringRead(content);
            r.Ok? ==> r.value.start == Some("START") && "START" in r.value.activities
    ensures var r := StringRead(content);
            r.Ok? ==> (r.value.onFailed == Some("ON_FAILED") <==> "ON_FAILED" in r.value.activities)
    ensures var r := StringRead(content);
            r.Ok? ==> (r.value.onSuccess == Some("ON_START") <==> "ON_START" in r.value.activities)
    ensures var body := ContentFrom(NewWorkflow(""), NONE, "", Split(content, "\n"), 0);
            body.Ok? && "START" !in body.value.activities ==> StringRead(content) == Err(KeyError("START"))
  {
    var body := ContentFrom(NewWorkflow(""), NONE, "", Split(content, "\n"), 0);
    assert StringRead(content) == ContentRead(NewWorkflow(""), Split(content, "\n"));
    if body.Ok? {
      assert Entries(body.value) == (None, None, None);
      EntryPointsFresh(body.value);
      assert StringRead(content) == EntryPoints(body.value);
    }
  }

  /** The entry points of a workflow that has none yet. */
  lemma EntryPointsFresh(wf: Workflow)
    requires Entries(wf) == (None, None, None)
    ensures var r := EntryPoints(wf);
            r.Ok? <==> "START" in wf.activities
    ensures var r := EntryPoints(wf);
            r.Ok? ==> r.value.start == Some("START") && r.value.activities == wf.activities
                      && (r.value.onFailed == Some("ON_FAILED") <==> "ON_FAILED" in wf.activities)
                      && (r.value.onSuccess == Some("ON_START") <==> "ON_START" in wf.activities)
    ensures "START" !in wf.activities ==> EntryPoints(wf) == Err(KeyError("START"))
  {
  }

  /** A workflow section whose lines never open a mermaid block leaves the
      workflow as it was: flowchart statements are read only inside one. */
  lemma {:induction false} NoDiagramNoChange(wf: Workflow, line: string, lines: seq<string>, i: nat)
    requires i <= |lines|
    requires !StartsWith(Strip(line), "```mermaid")
    requires forall j :: i <= j < |lines| ==> !StartsWith(Strip(lines[j]), "```mermaid")
    ensures WorkflowSectionFrom(wf, line, false, false, lines, i).Ok?
    ensures WorkflowSectionFrom(wf, line, false, false, lines, i).value.wf == wf
    decreases |lines| - i
  {
    if !StartsWith(Strip(line), "# ") {
      OutsideDiagram(wf, line, lines, i);
      if i < |lines| {
        NoDiagramNoChange(wf, lines[i], lines, i + 1);
      }
    }
  }

  /** Outside a diagram, a line that opens none is skipped. */
  lemma OutsideDiagram(wf: Workflow, line: string, lines: seq<string>, i: nat)
    requires i <= |lines|
    requires !StartsWith(Strip(line), "# ") && !StartsWith(Strip(line), "```mermaid")
    ensures WorkflowSectionFrom(wf, line, false, false, lines, i)
            == if i == |lines| then Ok(Resume(wf, None, i))
               else WorkflowSectionFrom(wf, lines[i], false, false, lines, i + 1)
  {
    var ls := Strip(line);
    assert !IsFlowchartLine(ls, false, false);
    assert Fence(ls, false, false) == (false, false);
  }

  /** Comment lines of the flowchart change nothing. */
  lemma CommentIgnored(wf: Workflow, text: string)
    ensures FlowchartLineRead(wf, "%%" + text) == Ok(wf)
  {
    assert ("%%" + text)[..2] == "%%";
  }

  /** A name has no "-" and no whitespace. */
  lemma NameChars(a: string)
    requires IsName(a)
    ensures '-' !in a
    ensures forall k :: 0 <= k < |a| ==> !IsSpace(a[k])
  {
    forall k | 0 <= k < |a| ensures a[k] != '-' && !IsSpace(a[k]) {
      assert IsNameChar(a[k]);
    }
  }

  /** The arrow of "<a> --> <right>" is the first one. */
  lemma ArrowAt(a: string, right: string)
    requires IsName(a)
    ensures Find(a + " --> " + right, "-->") == |a| + 1
  {
    NameChars(a);
    assert a + " --> " + right == (a + " ") + "-->" + (" " + right);
    assert '-' !in a + " " by {
      forall k | 0 <= k < |a| + 1 ensures (a + " ")[k] != '-' {
        if k < |a| { assert (a + " ")[k] == a[k]; }
      }
    }
    FindAfter(a + " ", "-->", " " + right);
  }

  /** A trailing space does not survive a strip. */
  lemma StripTrailingSpace(a: string)
    requires a != [] && !IsSpace(a[0]) && !IsSpace(a[|a| - 1])
    ensures Strip(a + " ") == a
  {
    assert LStrip(a + " ") == a + " ";
    assert (a + " ")[..|a|] == a;
    StripTrimmed(a);
  }

  /** The two sides of "<a> --> <right>" once the line is split at its
      arrow and each side is stripped. */
  lemma ArrowSides(a: string, right: string)
    requires IsName(a) && a != [] && right != [] && !IsSpace(right[0]) && !IsSpace(right[|right| - 1])
    ensures var line := a + " --> " + right;
            Strip(line[..|a| + 1]) == a && Strip(line[|a| + 4..]) == right
  {
    var line := a + " --> " + right;
    assert Strip(line[..|a| + 1]) == a by {
      assert line[..|a| + 1] == a + " ";
      NameChars(a);
      StripTrailingSpace(a);
    }
    assert Strip(line[|a| + 4..]) == right by {
      assert line[|a| + 4..] == [' '] + right;
      StripLeadingSpace(' ', right);
      StripTrimmed(right);
    }
  }

  /** An edge line whose two sides are already declared and carry no
      expression only wires the edge. */
  lemma EdgeLineIsFlow(wf: Workflow, line: string, left: string, right: string)
    requires !StartsWith(line, "%%") && Find(line, "-->") > 0
    requires Strip(line[..Find(line, "-->")]) == left && Strip(line[Find(line, "-->") + 3..]) == right
    requires ActivityRead(wf, left) == Ok(wf) && ActivityRead(wf, right) == Ok(wf)
    ensures FlowchartLineRead(wf, line) == FlowRead(wf, line, left, right)
  {
  }

  /** "<a> --> <right>" is an edge line with those two sides. */
  lemma ArrowLine(a: string, right: string)
    requires IsName(a) && a != [] && right != [] && !IsSpace(right[0]) && !IsSpace(right[|right| - 1])
    ensures var line := a + " --> " + right;
            !StartsWith(line, "%%") && Find(line, "-->") == |a| + 1
            && Strip(line[..Find(line, "-->")]) == a && Strip(line[Find(line, "-->") + 3..]) == right
  {
    var line := a + " --> " + right;
    ArrowAt(a, right);
    ArrowSides(a, right);
    assert line[0] == a[0];
    NameChars(a);
  }

  /** An edge between two declared activities, as the activity writer
      emits it ("<a> --> |<label>| <b>"), wires b as the `other` successor
      of a when the label is a negative one, as `next` when it is a
      positive one, whatever the case of its letters, and raises ValueError
      otherwise; no other activity changes. */
  lemma LabelledEdgeRead(wf: Workflow, a: string, tag: string, b: string)
    requires IsName(a) && a != [] && IsName(b) && b != [] && IsLabel(tag)
    requires a in wf.activities && b in wf.activities
    ensures var line := a + " --> |" + tag + "| " + b;
            var act := wf.activities[a];
            FlowchartLineRead(wf, line)
            == if Upper(tag) in Activities.FailedNames then Ok(wf.(activities := wf.activities[a := act.(other := Some(b))]))
               else if Upper(tag) in Activities.SucceededNames then Ok(wf.(activities := wf.activities[a := act.(next := Some(b))]))
               else Err(ValueError(FlowError(tag, line)))
  {
    var right := "|" + tag + "| " + b;
    assert a + " --> |" + tag + "| " + b == a + " --> " + right;
    NameChars(b);
    assert right[|right| - 1] == b[|b| - 1];
    BareName(a);
    LabelledNode(tag, b);
    ArrowLine(a, right);
    EdgeLineIsFlow(wf, a + " --> " + right, a, right);
    LabelledTarget(tag, b);
  }

  /** An unlabelled edge between two declared activities sets `next`. */
  lemma PlainEdgeRead(wf: Workflow, a: string, b: string)
    requires IsName(a) && a != [] && IsName(b) && b != []
    requires a in wf.activities && b in wf.activities
    ensures FlowchartLineRead(wf, a + " --> " + b)
            == Ok(wf.(activities := wf.activities[a := wf.activities[a].(next := Some(b))]))
  {
    NameChars(b);
    BareName(a);
    BareName(b);
    ArrowLine(a, b);
    EdgeLineIsFlow(wf, a + " --> " + b, a, b);
    PlainTarget(b);
  }

  /** "key=value" with no other "=" splits into the key and the value. */
  lemma KeyValueSplit(key: string, value: string)
    requires '=' !in key && '=' !in value
    ensures Find(key + "=" + value, "=") == |key| && Split(key + "=" + value, "=") == [key, value]
  {
    var p := key + "=" + value;
    assert p[..|key|] == key;
    assert p[|key| + 1..] == value;
    FindCharAt(key, '=', value);
    FindCharAbsent(value, '=');
  }

  /** "key=value" sets the key to the value, and a bare key sets it to
      the empty string; neither side is trimmed again after the split. */
  lemma ParamPair(params: Dict<string>, key: string, value: string)
    requires key != [] && !IsSpace(key[0]) && '=' !in key && '=' !in value
    requires value == [] || !IsSpace(value[|value| - 1])
    ensures AddParam(params, key + "=" + value) == Ok(Put(params, key, value))
    ensures value == [] && !IsSpace(key[|key| - 1]) ==> AddParam(params, key) == Ok(Put(params, key, ""))
  {
    var p := key + "=" + value;
    KeyValueSplit(key, value);
    assert Strip(p) == p by {
      var last := if value == [] then '=' else value[|value| - 1];
      assert p[|p| - 1] == last;
      StripTrimmed(p);
    }
    if value == [] && !IsSpace(key[|key| - 1]) {
      assert Strip(key) == key && Find(key, "=") < 0 by {
        StripTrimmed(key);
        FindCharAbsent(key, '=');
      }
    }
  }

  /** A piece with a second "=" raises ValueError. */
  lemma ParamTooManyValues(params: Dict<string>, key: string, value: string)
    requires key != [] && !IsSpace(key[0]) && '=' !in key && '=' in value
    requires !IsSpace(value[|value| - 1])
    ensures AddParam(params, key + "=" + value) == Err(UnpackError)
  {
    var p := key + "=" + value;
    KeyValuesSplit(key, value);
    assert Strip(p) == p by {
      assert p[|p| - 1] == value[|value| - 1];
      StripTrimmed(p);
    }
  }

  /** "key=value" whose value holds another "=" splits into more than two
      pieces. */
  lemma KeyValuesSplit(key: string, value: string)
    requires '=' !in key && '=' in value
    ensures Find(key + "=" + value, "=") == |key| && |Split(key + "=" + value, "=")| > 2
  {
    var p := key + "=" + value;
    assert p[..|key|] == key;
    assert p[|key| + 1..] == value;
    FindCharAt(key, '=', value);
    var k :| 0 <= k < |value| && value[k] == '=';
    assert OccursAt(value, "=", k);
    assert |Split(value, "=")| >= 2;
  }

  /** A bare name that is not declared yet declares an activity of the
      kind its prefix names, with no expression and no successors, and
      raises ValueError when the prefix names no kind. */
  lemma DeclareActivity(wf: Workflow, n: string)
    requires IsName(n) && n !in wf.activities && KindPrefix(n) != "PARAMS"
    ensures var kind := Activities.ParseKind(KindPrefix(n));
            ActivityRead(wf, n)
            == if kind.None? then Err(ValueError(PrefixError(KindPrefix(n))))
               else Ok(wf.(activities := wf.activities[n := Activities.NewActivity(kind.value, n, "")]))
  {
    BareName(n);
  }

  /** Declaring an activity again keeps its kind, its successors and its
      hits, and replaces its expression only by a non-empty one; nothing
      else changes. */
  lemma RedeclareActivity(wf: Workflow, line: string)
    requires ActivityOfLine(line).0 in wf.activities
    ensures var (n, expr) := ActivityOfLine(line);
            var a := wf.activities[n];
            ActivityRead(wf, line).Ok?
            && ActivityRead(wf, line).value == wf.(activities := wf.activities[n := a.(expression := if expr == [] then a.expression else expr)])
  {
    var (n, expr) := ActivityOfLine(line);
    if expr == [] {
      assert wf.activities[n := wf.activities[n]] == wf.activities;
    }
  }

  /** A role header followed by a body line opens a prompt that is stored
      only at the end of the input: a "# " section header after it ends the
      prompts section and the buffered prompt is lost. */
  lemma PromptLostBeforeSection(wf: Workflow, hdr: string, body: string, next: string)
    requires RoleHeader(Strip(hdr)).Some?
    requires !IsHeader(body) && RoleHeader(Strip(body)).None? && body != []
    requires IsHeader(next)
    ensures PromptsSectionFrom(wf, hdr, "", None, "", [body, next], 0) == Ok(Resume(wf, Some(Strip(next)), 2))
  {
    RoleHeaderNotSection(Strip(hdr));
    var lines := [body, next];
    var key := Strip(ReplaceAll(Strip(hdr), "## ", ""));
    var role := RoleHeader(Strip(hdr));
    assert PromptsSectionFrom(wf, hdr, "", None, "", lines, 0)
        == PromptsSectionFrom(wf, body, "", role, key, lines, 1);
    assert PromptsSectionFrom(wf, body, "", role, key, lines, 1)
        == PromptsSectionFrom(wf, next, body, role, key, lines, 2);
  }

  /** The same prompt at the end of the input is stored under the header
      text without "## ". */
  lemma PromptKeptAtEnd(wf: Workflow, hdr: string, body: string)
    requires RoleHeader(Strip(hdr)).Some?
    requires !IsHeader(body) && RoleHeader(Strip(body)).None? && body != []
    ensures var key := Strip(ReplaceAll(Strip(hdr), "## ", ""));
            var p := NewPrompt(RoleHeader(Strip(hdr)).value, body);
            p.Ok? && PromptsSectionFrom(wf, hdr, "", None, "", [body], 0)
                     == Ok(Resume(wf.(prompts := Put(wf.prompts, key, p.value)), None, 1))
  {
    RoleHeaderNotSection(Strip(hdr));
    var key := Strip(ReplaceAll(Strip(hdr), "## ", ""));
    var role := RoleHeader(Strip(hdr));
    assert PromptsSectionFrom(wf, hdr, "", None, "", [body], 0)
        == PromptsSectionFrom(wf, body, "", role, key, [body], 1);
    assert "" + body == body;
    var p := NewPrompt(role.value, body);
    assert Flush(wf, body, role, key) == Ok(wf.(prompts := Put(wf.prompts, key, p.value)));
    assert PromptsSectionFrom(wf, body, "", role, key, [body], 1)
        == Ok(Resume(wf.(prompts := Put(wf.prompts, key, p.value)), None, 1));
  }

  /** A role header is not a section header, and its role is one a prompt
      accepts. */
  lemma RoleHeaderNotSection(ls: string)
    requires RoleHeader(ls).Some?
    ensures !StartsWith(ls, "# ")
    ensures RoleHeader(ls).value in AllowedRoles
  {
    assert ls[1] == '#';
  }

  // ---------------------------------------------------------------------
  // The reader object

  /** The state a method leaves agrees with the result the function
      describes: the same workflow, or the same exception. */
  predicate Agrees(r: Result<Workflow>, wf: Workflow, err: Option<PyError>) {
    if r.Ok? then err.None? && wf == r.value else err == Some(r.error)
  }

  predicate AgreesResume(r: Result<Resume>, wf: Workflow, header: Option<string>, pos: nat, err: Option<PyError>) {
    if r.Ok? then err.None? && wf == r.value.wf && header == r.value.header && pos == r.value.pos
    else err == Some(r.error)
  }

  class WorkflowReader {
    var workflow: Workflow

    /** WorkflowReader(): nothing read yet.  The source holds None here; the
        model holds an empty workflow, which every load replaces before it
        is read. */
    constructor()
      ensures workflow == NewWorkflow("")
    {
      workflow := NewWorkflow("");
    }

    /** load_from_string: the workflow read, or the exception raised. */
    method LoadFromString(content: string) returns (r: Result<Workflow>)
      modifies this
      ensures r == StringRead(content)
    {
      workflow := NewWorkflow("");
      var err := ParseContent(Split(content, "\n"));
      if err.Some? {
        return Err(err.value);
      }
      return Ok(workflow);
    }

    /** _parse_content */
    method ParseContent(lines: seq<string>) returns (err: Option<PyError>)
      modifies this
      ensures Agrees(ContentRead(old(workflow), lines), workflow, err)
    {
      var section := NONE;
      var line := "";
      var i := 0;
      var done := false;
      ghost var body := ContentFrom(workflow, section, line, lines, i);
      ContentReadBody(workflow, lines);
      err := None;
      while !done
        invariant i <= |lines|
        invariant !done ==> ContentFrom(workflow, section, line, lines, i) == body
        invariant done ==> body == Ok(workflow)
        decreases |lines| - i + (if done then 0 else 1)
      {
        section, line, i, done, err := ContentLine(section, line, lines, i);
        if err.Some? {
          return;
        }
      }
      err := SetEntryPoints();
    }

    /** One turn of the loop of _parse_content: the line is a header, a
        description line, or the first line of a section, which the section's
        parser reads up to the next header. */
    method ContentLine(section: Section, line: string, lines: seq<string>, i: nat)
      returns (section': Section, line': string, i': nat, done: bool, err: Option<PyError>)
      requires i <= |lines|
      modifies this
      ensures i <= i' <= |lines|
      ensures err.Some? ==> ContentFrom(old(workflow), section, line, lines, i) == Err(err.value)
      ensures err.None? && done ==> ContentFrom(old(workflow), section, line, lines, i) == Ok(workflow)
      ensures err.None? && !done ==>
                i' > i && ContentFrom(workflow, section', line', lines, i') == ContentFrom(old(workflow), section, line, lines, i)
    {
      section', line', i', done, err := section, line, i, false, None;
      if StartsWith(Strip(line), "# ") || section == NONE {
        section' := ReadLine(section, line);
        if i == |lines| {
          done := true;
        } else {
          line' := lines[i];
          i' := i + 1;
        }
      } else {
        var header: Option<string>;
        header, i', err := ParseSection(section, line, lines, i);
        if err.None? {
          if header.None? {
            done := true;
          } else {
            line' := header.value;
          }
        }
      }
    }

    /** A header or a description line. */
    method ReadLine(section: Section, line: string) returns (section': Section)
      modifies this
      ensures (workflow, section') == LineRead(old(workflow), section, line)
    {
      var ls := Strip(line);
      section' := section;
      if StartsWith(ls, "# ") {
        section' := CheckSection(ls);
        if section' == NONE {
          workflow := workflow.(name := Strip(ReplaceAll(line, "# ", "")));
        }
      } else if |ls| > 0 {
        workflow := workflow.(description := workflow.description + line);
      }
    }

    /** The section's parser, read up to the next header. */
    method ParseSection(section: Section, line: string, lines: seq<string>, i: nat)
      returns (header: Option<string>, pos: nat, err: Option<PyError>)
      requires i <= |lines|
      modifies this
      ensures i <= pos <= |lines|
      ensures AgreesResume(SectionRead(old(workflow), section, line, lines, i), workflow, header, pos, err)
    {
      if section == WORKFLOW {
        header, pos, err := ParseSectionWorkflow(line, lines, i);
      } else {
        header, pos, err := ParseSectionPrompts(line, lines, i);
      }
    }

    /** The end of _parse_content: start, on_failed and on_success. */
    method SetEntryPoints() returns (err: Option<PyError>)
      modifies this
      ensures Agrees(EntryPoints(old(workflow)), workflow, err)
    {
      if workflow.start.None? {
        if "START" !in workflow.activities {
          return Some(KeyError("START"));
        }
        workflow := workflow.(start := Some("START"));
      }
      if workflow.onFailed.None? && "ON_FAILED" in workflow.activities {
        workflow := workflow.(onFailed := Some("ON_FAILED"));
      }
      if workflow.onSuccess.None? && "ON_START" in workflow.activities {
        workflow := workflow.(onSuccess := Some("ON_START"));
      }
      err := None;
    }

    /** _parse_section_workflow */
    method ParseSectionWorkflow(line0: string, lines: seq<string>, i0: nat)
      returns (header: Option<string>, pos: nat, err: Option<PyError>)
      requires i0 <= |lines|
      modifies this
      ensures i0 <= pos <= |lines|
      ensures AgreesResume(WorkflowSectionFrom(old(workflow), line0, false, false, lines, i0),
                           workflow, header, pos, err)
    {
      var inMermaid := false;
      var inFlowchart := false;
      var line := line0;
      var i := i0;
      while !StartsWith(Strip(line), "# ")
        invariant i0 <= i <= |lines|
        invariant WorkflowSectionFrom(workflow, line, inMermaid, inFlowchart, lines, i)
               == WorkflowSectionFrom(old(workflow), line0, false, false, lines, i0)
        decreases |lines| - i
      {
        ghost var before := workflow;
        ghost var (m, f) := (inMermaid, inFlowchart);
        ghost var step := if IsFlowchartLine(Strip(line), m, f) then FlowchartLineRead(before, Strip(line)) else Ok(before);
        assert WorkflowSectionFrom(before, line, m, f, lines, i)
            == if step.Err? then Err(step.error)
               else if i == |lines| then Ok(Resume(step.value, None, i))
               else WorkflowSectionFrom(step.value, lines[i], Fence(Strip(line), m, f).0, Fence(Strip(line), m, f).1, lines, i + 1);
        inMermaid, inFlowchart, err := SectionWorkflowLine(Strip(line), inMermaid, inFlowchart);
        if err.Some? {
          return None, i, err;
        }
        if i == |lines| {
          return None, i, None;
        }
        line := lines[i];
        i := i + 1;
      }
      return Some(Strip(line)), i, None;
    }

    /** The body of the loop of _parse_section_workflow for a trimmed line
        that is not a header. */
    method SectionWorkflowLine(ls: string, inMermaid: bool, inFlowchart: bool)
      returns (inMermaid': bool, inFlowchart': bool, err: Option<PyError>)
      modifies this
      ensures (inMermaid', inFlowchart') == Fence(ls, inMermaid, inFlowchart)
      ensures Agrees(if IsFlowchartLine(ls, inMermaid, inFlowchart) then FlowchartLineRead(old(workflow), ls)
                     else Ok(old(workflow)), workflow, err)
    {
      inMermaid', inFlowchart', err := inMermaid, inFlowchart, None;
      if StartsWith(ls, "```mermaid") {
        inMermaid' := true;
      } else if inMermaid && StartsWith(ls, "flowchart") {
        inFlowchart' := true;
      } else if StartsWith(ls, "```") {
        inMermaid' := false;
        inFlowchart' := false;
      } else if |ls| > 0 && inMermaid && inFlowchart {
        err := ParseFlowchartLine(ls);
      }
    }

    /** _parse_section_prompts */
    method ParseSectionPrompts(line0: string, lines: seq<string>, i0: nat)
      returns (header: Option<string>, pos: nat, err: Option<PyError>)
      requires i0 <= |lines|
      modifies this
      ensures i0 <= pos <= |lines|
      ensures AgreesResume(PromptsSectionFrom(old(workflow), line0, "", None, "", lines, i0),
                           workflow, header, pos, err)
    {
      var buffer := PromptBuffer("", None, "");
      var line := line0;
      var i := i0;
      while !StartsWith(Strip(line), "# ")
        invariant i0 <= i <= |lines|
        invariant PromptsSectionFrom(workflow, line, buffer.content, buffer.role, buffer.key, lines, i)
               == PromptsSectionFrom(old(workflow), line0, "", None, "", lines, i0)
        decreases |lines| - i
      {
        buffer, err := ReadPromptLine(buffer, line);
        if err.Some? {
          return None, i, err;
        }
        if i == |lines| {
          err := FlushPrompt(buffer.content, buffer.role, buffer.key);
          return None, i, err;
        }
        line := lines[i];
        i := i + 1;
      }
      return Some(Strip(line)), i, None;
    }

    /** One line of _parse_section_prompts. */
    method ReadPromptLine(b: PromptBuffer, line: string) returns (b': PromptBuffer, err: Option<PyError>)
      modifies this
      ensures var r := PromptLineRead(old(workflow), b, line);
              if r.Ok? then err.None? && workflow == r.value.0 && b' == r.value.1 else err == Some(r.error)
    {
      var ls := Strip(line);
      var newRole := RoleHeader(ls);
      b', err := b, None;
      if newRole.Some? {
        err := FlushPrompt(b.content, b.role, b.key);
        if err.Some? {
          return;
        }
        b' := PromptBuffer("", newRole, Strip(ReplaceAll(ls, "## ", "")));
      } else if b.role.Some? {
        b' := b.(content := b.content + line);
      }
    }

    /** Stores the buffered prompt under its key, when there is one. */
    method FlushPrompt(content: string, role: Option<string>, key: string) returns (err: Option<PyError>)
      modifies this
      ensures Agrees(Flush(old(workflow), content, role, key), workflow, err)
    {
      err := None;
      if |content| > 0 {
        var p := NewPrompt(RoleText(role), content);
        if p.Err? {
          return Some(p.error);
        }
        workflow := workflow.(prompts := Put(workflow.prompts, key, p.value));
      }
    }

    /** _parse_flowchart_line */
    method ParseFlowchartLine(line: string) returns (err: Option<PyError>)
      modifies this
      ensures Agrees(FlowchartLineRead(old(workflow), line), workflow, err)
    {
      if StartsWith(line, "%%") {
        return None;
      }
      var pos := Find(line, "-->");
      if pos > 0 {
        ghost var wf0 := workflow;
        var left := Strip(line[..pos]);
        err := ParseActivity(left);
        if err.Some? {
          assert ActivityRead(wf0, left).Err?;
          return;
        }
        ghost var wf1 := workflow;
        var right := Strip(line[pos + 3..]);
        err := ParseActivity(right);
        if err.Some? {
          assert ActivityRead(wf1, right).Err?;
          return;
        }
        err := ParseFlow(line, left, right);
      } else {
        err := ParseActivity(line);
      }
    }

    /** _parse_flow */
    method ParseFlow(line: string, left: string, right: string) returns (err: Option<PyError>)
      modifies this
      ensures Agrees(FlowRead(old(workflow), line, left, right), workflow, err)
    {
      var l := EdgeLeft(left);
      var (attr, r) := EdgeRight(right);
      if l !in workflow.activities {
        return Some(KeyError(l));
      }
      if r !in workflow.activities {
        return Some(KeyError(r));
      }
      var a := workflow.activities[l];
      if |attr| == 0 {
        a := a.(next := Some(r));
      } else if Upper(attr) in Activities.FailedNames {
        a := a.(other := Some(r));
      } else if Upper(attr) in Activities.SucceededNames {
        a := a.(next := Some(r));
      } else {
        return Some(ValueError(FlowError(attr, line)));
      }
      workflow := workflow.(activities := workflow.activities[l := a]);
      err := None;
    }

    /** _parse_activity */
    method ParseActivity(line: string) returns (err: Option<PyError>)
      modifies this
      ensures Agrees(ActivityRead(old(workflow), line), workflow, err)
    {
      var (name, expr) := ActivityOfLine(line);
      if name !in workflow.activities {
        var prefix := KindPrefix(name);
        if prefix == "PARAMS" {
          err := ParseParams(expr);
        } else {
          var kind := Activities.ParseKind(prefix);
          if kind.None? {
            return Some(ValueError(PrefixError(prefix)));
          }
          workflow := workflow.(activities := workflow.activities[name := Activities.NewActivity(kind.value, name, expr)]);
          err := None;
        }
      } else {
        if |expr| > 0 {
          var a := workflow.activities[name];
          workflow := workflow.(activities := workflow.activities[name := a.(expression := expr)]);
        }
        err := None;
      }
    }

    /** _parse_params */
    method ParseParams(expr: string) returns (err: Option<PyError>)
      modifies this
      ensures Agrees(ParamsRead(old(workflow), expr), workflow, err)
    {
      var pieces := Split(QuotedBody(expr), ",");
      for i := 0 to |pieces|
        invariant workflow == old(workflow).(params := workflow.params)
        invariant AddParams(workflow.params, pieces[i..]) == AddParams(old(workflow).params, pieces)
      {
        AddParamsStep(workflow.params, pieces, i);
        var p := Strip(pieces[i]);
        if |p| > 0 {
          if Find(p, "=") > 0 {
            var kv := Split(p, "=");
            if |kv| != 2 {
              return Some(UnpackError);
            }
            workflow := workflow.(params := Put(workflow.params, kv[0], kv[1]));
          } else {
            workflow := workflow.(params := Put(workflow.params, p, ""));
          }
        }
      }
      assert pieces[|pieces|..] == [];
      err := None;
    }
  }
}
