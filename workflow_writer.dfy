/**
 * Saving a workflow as markdown: the general section (name, description,
 * file path), the flowchart section (a mermaid block written by one
 * activity writer from start, on_success and on_failed), the prompts, the
 * variables of a run and its history, and the default name of a history
 * file.
 */
module WorkflowWriters {
  import opened Wrappers
  import opened PyStrings
  import opened Dicts
  import opened Prompts
  import opened Workflows
  import opened TextFiles
  import opened ActivityWriters
  import opened Histories
  import ReaderScan

  // ---------------------------------------------------------------------
  // The sections, as text

  /** _write_general */
  function GeneralText(w: Workflow, includeDescription: bool, writePath: bool): (r: string)
    ensures StartsWith(r, "# " + w.name + "\n\n")
    ensures EndsWith(r, "\n")
  {
    var head := "# " + w.name + "\n\n";
    var desc := if includeDescription then w.description + "\n" else "";
    var path := if writePath then "- filepath=" + w.filepath + "\n" else "";
    assert head + desc + path + "\n" == head + (desc + path + "\n");
    head + desc + path + "\n"
  }

  const FlowchartHead: string := "# Workflow\n" + "```mermaid\n" + "flowchart TD\n"
  const FlowchartTail: string := "```\n\n"
  const StyleAttributes: string := "stroke:#000,stroke-width:4px,fill:#80a0ff\n"

  /** The comment written before an event handler. */
  function HandlerComment(name: string): string {
    "\n  %% Event-handler: " + name + "\n"
  }

  /** The line that highlights the current activity. */
  function StyleLine(name: string): string {
    "\n  style " + name + " " + StyleAttributes
  }

  /** accept(writer) on an optional entry point. */
  function Visit(g: map<string, Activities.Activity>, visited: set<string>, entry: Option<string>): (r: (seq<Line>, set<string>))
    ensures visited <= r.1
  {
    if entry.Some? then Traverse(g, visited, entry.value) else ([], visited)
  }

  /** The lines written from start, on_success and on_failed, in that
      order, by one writer: each sees what the earlier ones visited. */
  function EntryLines(w: Workflow): (seq<Line>, seq<Line>, seq<Line>) {
    var t0 := Visit(w.activities, {}, w.start);
    var t1 := Visit(w.activities, t0.1, w.onSuccess);
    var t2 := Visit(w.activities, t1.1, w.onFailed);
    (t0.0, t1.0, t2.0)
  }

  /** An entry point's part of the flowchart: its lines, after its
      comment when it is an event handler. */
  function EntryText(entry: Option<string>, ls: seq<Line>, handler: bool): string {
    if entry.None? then "" else (if handler then HandlerComment(entry.value) else "") + Text(ls)
  }

  /** _write_flowchart, with the name of the current activity if any. */
  function FlowchartText(w: Workflow, current: Option<string>): string {
    var (l0, l1, l2) := EntryLines(w);
    FlowchartHead + EntryText(w.start, l0, false) + EntryText(w.onSuccess, l1, true) + EntryText(w.onFailed, l2, true)
    + (if current.Some? then StyleLine(current.value) else "") + FlowchartTail
  }

  /** One prompt of _write_prompts. */
  function PromptText(key: string, p: Prompt): string {
    "## " + key + "\n\n" + p.content + "\n\n"
  }

  /** The prompts, in dictionary order. */
  function PromptsText(ps: Dict<Prompt>): string {
    if ps == [] then "" else PromptsText(ps[..|ps| - 1]) + PromptText(ps[|ps| - 1].0, ps[|ps| - 1].1)
  }

  /** _write_prompts */
  function PromptsSection(ps: Dict<Prompt>): string {
    "# Prompts\n\n" + PromptsText(ps)
  }

  /** One variable of _write_variables: a value holding a line break after
      its first character is written below the key, any other value after
      "=". */
  function VariableText(key: string, value: string): string {
    if |value| > 0 && Find(value, "\n") > 0 then "- **" + key + "**:  \n" + value + "  \n"
    else "- **" + key + "**=" + value + "  \n"
  }

  function VariablesText(vars: Dict<string>): string {
    if vars == [] then "" else VariablesText(vars[..|vars| - 1]) + VariableText(vars[|vars| - 1].0, vars[|vars| - 1].1)
  }

  /** _write_variables: nothing without a context, else the context's
      variables. */
  function VariablesSection(vars: Option<Dict<string>>): string {
    if vars.None? then "" else "## Variables:  \n" + VariablesText(vars.value) + "\n\n"
  }

  /** One record of _write_history, numbered n. */
  function RecordText(n: int, r: HistoryRecord): string {
    "## " + IntToString(n) + ". " + r.activityCaption + " " + " => " + StatusName(r.status) + "\n"
    + "<!-- ts=" + r.timestamp + " -->\n"
    + (if r.result.Some? && |r.result.value| > 0 then r.result.value + "\n\n" else "\n")
  }

  /** The records, numbered from `first` on in list order. */
  function RecordsText(rs: seq<HistoryRecord>, first: int): string {
    Numbered(rs, first, RecordText)
  }

  /** The texts `text` gives the records, numbered from `first` on. */
  function Numbered(rs: seq<HistoryRecord>, first: int, text: (int, HistoryRecord) -> string): string {
    if rs == [] then "" else Numbered(rs[..|rs| - 1], first, text) + text(first + |rs| - 1, rs[|rs| - 1])
  }

  /** _write_history */
  function HistorySection(rs: seq<HistoryRecord>): string {
    "# History\n\n" + RecordsText(rs, 1)
  }

  /** save_definition, after opening the file. */
  function DefinitionText(w: Workflow): string {
    GeneralText(w, true, false) + FlowchartText(w, None) + PromptsSection(w.prompts)
  }

  /** save_history, after opening the file. */
  function HistoryText(w: Workflow, current: Option<string>, vars: Option<Dict<string>>, rs: seq<HistoryRecord>): string {
    GeneralText(w, false, true) + FlowchartText(w, current) + VariablesSection(vars) + HistorySection(rs)
  }

  // ---------------------------------------------------------------------
  // The default history file name

  /** f"{n:02d}": at least two characters; a single digit gets a leading
      zero, while the sign of -1 to -9 fills the width, so they print as
      "-d". */
  function Pad2(n: int): (r: string)
    ensures |r| >= 2
  {
    if 0 <= n < 10 then "0" + IntToString(n)
    else if n < 0 then (if -n < 10 then "-" + IntToString(-n) else IntToString(n))
    else IntToString(n)
  }

  /** os.path.basename: the text after the last "/". */
  function Basename(path: string): string {
    path[ReaderScan.LastIndex(path, '/') + 1..]
  }

  /** The file name save_history uses when none is given. */
  function HistoryFileName(instanceNr: int, filepath: string): string {
    Pad2(instanceNr) + "_" + ReplaceAll(Basename(filepath), ".wf.md", ".wfh.md")
  }

  // ---------------------------------------------------------------------
  // Properties

  /** Every activity of the flowchart has one node line: the handlers'
      writer has already visited what start reaches, so an activity shared
      by the main flow and a handler is written once, and the nodes
      written are exactly the activities visited. */
  lemma FlowchartNodesOnce(w: Workflow)
    ensures var (l0, l1, l2) := EntryLines(w);
            var all := NodeNames(l0 + l1 + l2);
            NoDuplicates(all)
            && Elements(all) == Visit(w.activities, Visit(w.activities, Visit(w.activities, {}, w.start).1, w.onSuccess).1, w.onFailed).1
  {
    var g := w.activities;
    var t0 := Visit(g, {}, w.start);
    var t1 := Visit(g, t0.1, w.onSuccess);
    var t2 := Visit(g, t1.1, w.onFailed);
    VisitNodesOnce(g, {}, w.start);
    VisitNodesOnce(g, t0.1, w.onSuccess);
    VisitNodesOnce(g, t1.1, w.onFailed);
    NodeNamesAppend(t0.0 + t1.0, t2.0);
    NodeNamesAppend(t0.0, t1.0);
    NoDuplicatesJoin(NodeNames(t0.0), NodeNames(t1.0));
    NoDuplicatesJoin(NodeNames(t0.0) + NodeNames(t1.0), NodeNames(t2.0));
  }

  lemma VisitNodesOnce(g: map<string, Activities.Activity>, visited: set<string>, entry: Option<string>)
    ensures var r := Visit(g, visited, entry);
            NoDuplicates(NodeNames(r.0)) && Elements(NodeNames(r.0)) == r.1 - visited
  {
    if entry.Some? {
      NodesOnce(g, visited, entry.value);
    } else {
      assert NodeNames([]) == [];
    }
  }

  /** Giving the current activity adds its style line just before the
      closing fence, and changes nothing else. */
  lemma StyleAtEnd(w: Workflow, current: string)
    ensures var plain := FlowchartText(w, None);
            |plain| >= |FlowchartTail|
            && FlowchartText(w, Some(current)) == plain[..|plain| - |FlowchartTail|] + StyleLine(current) + FlowchartTail
  {
    var (l0, l1, l2) := EntryLines(w);
    var body := FlowchartHead + EntryText(w.start, l0, false) + EntryText(w.onSuccess, l1, true) + EntryText(w.onFailed, l2, true);
    var plain := FlowchartText(w, None);
    assert plain == body + "" + FlowchartTail;
    assert plain[..|plain| - |FlowchartTail|] == body;
  }

  /** Prompts are written in dictionary order: the text of a dictionary
      with one more entry is the old text followed by that entry. */
  lemma {:induction false} PromptsTextSplit(ps: Dict<Prompt>, k: nat)
    requires k <= |ps|
    ensures PromptsText(ps) == PromptsText(ps[..k]) + PromptsText(ps[k..])
    decreases |ps|
  {
    if k < |ps| {
      var n := |ps| - 1;
      PromptsTextSplit(ps[..n], k);
      assert ps[..n][..k] == ps[..k];
      assert ps[k..][..|ps[k..]| - 1] == ps[..n][k..];
      assert ps[k..][|ps[k..]| - 1] == ps[n];
      AppendAssoc(PromptsText(ps[..k]), PromptsText(ps[..n][k..]), PromptText(ps[n].0, ps[n].1));
    } else {
      assert ps[..k] == ps;
      assert ps[k..] == [];
    }
  }

  /** A prompt heading and its content: the text of a one-entry
      dictionary. */
  lemma PromptsTextSingle(key: string, p: Prompt)
    ensures PromptsText([(key, p)]) == "## " + key + "\n\n" + p.content + "\n\n"
  {
    assert [(key, p)][..0] == [];
  }

  /** The variable's line breaks: a value without one is written on one
      line; a value with a line break after its first character gets a
      line of its own below the key. */
  lemma VariableLines(key: string, value: string)
    requires '\n' !in key
    ensures Count(VariableText(key, value), '\n')
            == Count(value, '\n') + (if |value| > 0 && Find(value, "\n") > 0 then 2 else 1)
  {
    KeyBreaks(key);
    if |value| > 0 && Find(value, "\n") > 0 {
      CountParts("- **" + key + "**:  \n", value, "  \n");
    } else {
      CountParts("- **" + key + "**=", value, "  \n");
    }
  }

  /** The two ways of writing a key hold one line break and none. */
  lemma KeyBreaks(key: string)
    requires '\n' !in key
    ensures Count("- **" + key + "**:  \n", '\n') == 1
    ensures Count("- **" + key + "**=", '\n') == 0
    ensures Count("  \n", '\n') == 1
  {
    CountNoneOf(key, '\n');
    CountNone("- **", '\n');
    CountNone("**=", '\n');
    CountNone("**:  ", '\n');
    CountNone("  ", '\n');
    assert Count("\n", '\n') == 1;
    CountAppend("- **", key, '\n');
    CountAppend("- **" + key, "**=", '\n');
    assert "**:  \n" == "**:  " + "\n";
    CountAppend("**:  ", "\n", '\n');
    CountAppend("- **" + key, "**:  \n", '\n');
    assert "  \n" == "  " + "\n";
    CountAppend("  ", "\n", '\n');
  }

  lemma CountParts(a: string, b: string, c: string)
    ensures Count(a + b + c, '\n') == Count(a, '\n') + Count(b, '\n') + Count(c, '\n')
  {
    CountAppend(a + b, c, '\n');
    CountAppend(a, b, '\n');
  }

  lemma CountNone(s: string, c: char)
    requires c !in s
    ensures Count(s, c) == 0
  {
    CountNoneOf(s, c);
  }

  lemma {:induction false} CountNoneOf(s: string, c: char)
    requires c !in s
    ensures Count(s, c) == 0
    decreases |s|
  {
    if s != [] {
      assert s[0] != c;
      assert forall x | x in s[1..] :: x in s;
      CountNoneOf(s[1..], c);
    }
  }

  /** Numbering is consecutive in list order: the records from position k
      on continue the numbering of those before. */
  lemma {:induction false} NumberedSplit(rs: seq<HistoryRecord>, first: int, k: nat,
                                         text: (int, HistoryRecord) -> string)
    requires k <= |rs|
    ensures Numbered(rs, first, text) == Numbered(rs[..k], first, text) + Numbered(rs[k..], first + k, text)
    decreases |rs|
  {
    if k < |rs| {
      var n := |rs| - 1;
      var last := text(first + n, rs[n]);
      var a, b := Numbered(rs[..k], first, text), Numbered(rs[..n][k..], first + k, text);
      calc {
        Numbered(rs, first, text);
        Numbered(rs[..n], first, text) + last;
        { NumberedSplit(rs[..n], first, k, text); assert rs[..n][..k] == rs[..k]; }
        a + b + last;
        { AppendAssoc(a, b, last); }
        a + (b + last);
        { assert rs[k..][..|rs[k..]| - 1] == rs[..n][k..]; assert rs[k..][|rs[k..]| - 1] == rs[n]; }
        a + Numbered(rs[k..], first + k, text);
      }
    } else {
      assert rs[..k] == rs;
      assert rs[k..] == [];
    }
  }

  /** The first record gets the first number and the others the ones after. */
  lemma NumberedFirst(r: HistoryRecord, rs: seq<HistoryRecord>, first: int, text: (int, HistoryRecord) -> string)
    ensures Numbered([r] + rs, first, text) == text(first, r) + Numbered(rs, first + 1, text)
  {
    NumberedSplit([r] + rs, first, 1, text);
    assert ([r] + rs)[..1] == [r];
    assert ([r] + rs)[1..] == rs;
    assert [r][..0] == [];
  }

  /** The first record is number 1 and the others follow from 2 on. */
  lemma HistoryFirstRecord(r: HistoryRecord, rs: seq<HistoryRecord>)
    ensures HistorySection([r] + rs) == "# History\n\n" + RecordText(1, r) + RecordsText(rs, 2)
  {
    NumberedFirst(r, rs, 1, RecordText);
    AppendAssoc("# History\n\n", RecordText(1, r), RecordsText(rs, 2));
  }

  /** A record added to the history appears as one more entry, numbered
      after the ones before it. */
  lemma HistoryAfterAdd(rs: seq<HistoryRecord>, caption: string, status: Status, result: Option<string>, now: string)
    ensures HistorySection(rs + [NewRecord(caption, status, result, None, now)])
            == HistorySection(rs) + RecordText(|rs| + 1, HistoryRecord(now, caption, status, result))
  {
    var r := NewRecord(caption, status, result, None, now);
    assert (rs + [r])[..|rs|] == rs;
    AppendAssoc("# History\n\n", RecordsText(rs, 1), RecordText(|rs| + 1, r));
  }

  /** Two-digit numbers and negative ones are printed as str() prints
      them; one digit gets a leading zero. */
  lemma Pad2Digits(n: int)
    ensures 0 <= n < 10 ==> Pad2(n) == ['0', ('0' as int + n) as char]
    ensures (n >= 10 || n <= -10) ==> Pad2(n) == IntToString(n)
    ensures -10 < n < 0 ==> Pad2(n) == ['-', ('0' as int - n) as char]
  {
  }

  /** A workflow file "<dir>/<stem>.wf.md" is saved with history as
      "<nn>_<stem>.wfh.md". */
  lemma HistoryFileNameOfDefinition(instanceNr: int, dir: string, stem: string)
    requires '/' !in stem && '.' !in stem
    ensures HistoryFileName(instanceNr, dir + "/" + stem + ".wf.md") == Pad2(instanceNr) + "_" + stem + ".wfh.md"
  {
    var path := dir + "/" + stem + ".wf.md";
    var base := stem + ".wf.md";
    assert path == dir + "/" + base;
    BasenameAfterSlash(dir, base);
    ReplaceAfterPlain(stem, ".wf.md", ".wfh.md", ".wf.md");
    assert ".wf.md" + "" == ".wf.md";
    ReplaceLeading(".wf.md", "", ".wfh.md");
    assert ReplaceAll("", ".wf.md", ".wfh.md") == "";
    assert ReplaceAll(base, ".wf.md", ".wfh.md") == stem + ".wfh.md";
  }

  lemma BasenameAfterSlash(dir: string, base: string)
    requires '/' !in base
    ensures Basename(dir + "/" + base) == base
  {
    var path := dir + "/" + base;
    assert path[|dir|] == '/';
    var k := ReaderScan.LastIndex(path, '/');
    assert forall j :: |dir| < j < |path| ==> path[j] == base[j - |dir| - 1];
    assert path[|dir| + 1..] == base;
  }

  /** A text without the pattern's first character is copied before the
      replacement goes on. */
  lemma {:induction false} ReplaceAfterPlain(a: string, pat: string, rep: string, rest: string)
    requires pat != [] && pat[0] !in a
    ensures ReplaceAll(a + rest, pat, rep) == a + ReplaceAll(rest, pat, rep)
    decreases |a|
  {
    if a != [] {
      var s := a + rest;
      if |s| >= |pat| {
        assert s[..|pat|][0] == a[0];
        assert s[1..] == a[1..] + rest;
        assert forall x | x in a[1..] :: x in a;
        ReplaceAfterPlain(a[1..], pat, rep, rest);
      } else {
        assert |rest| < |pat|;
        assert ReplaceAll(rest, pat, rep) == rest;
      }
    } else {
      assert a + rest == rest;
    }
  }

  // ---------------------------------------------------------------------
  // The writer

  class WorkflowWriter {
    const workflow: Workflow

    constructor(workflow: Workflow)
      ensures this.workflow == workflow
    {
      this.workflow := workflow;
    }

    /** save_definition, once the file is open. */
    method SaveDefinition(file: TextFile)
      modifies file
      ensures file.text == old(file.text) + DefinitionText(workflow)
    {
      ghost var t0 := file.text;
      WriteGeneral(file, true, false);
      WriteFlowchart(file, None);
      WritePrompts(file);
      AppendAssoc(t0 + GeneralText(workflow, true, false), FlowchartText(workflow, None), PromptsSection(workflow.prompts));
      AppendAssoc(t0, GeneralText(workflow, true, false), FlowchartText(workflow, None));
      AppendAssoc(t0, GeneralText(workflow, true, false) + FlowchartText(workflow, None), PromptsSection(workflow.prompts));
    }

    /** save_history, once the file is open: the variables are the
        context's, None when there is no context. */
    method SaveHistory(file: TextFile, current: Option<string>, vars: Option<Dict<string>>, history: History)
      modifies file
      ensures file.text == old(file.text) + HistoryText(workflow, current, vars, history.records)
    {
      ghost var t0 := file.text;
      var g := GeneralText(workflow, false, true);
      var f := FlowchartText(workflow, current);
      var v := VariablesSection(vars);
      WriteGeneral(file, false, true);
      WriteFlowchart(file, current);
      WriteVariables(file, vars);
      WriteHistory(file, history);
      var h := HistorySection(history.records);
      assert file.text == t0 + g + f + v + h;
      Concat4(t0, g, f, v, h);
    }

    /** _write_general */
    method WriteGeneral(file: TextFile, includeDescription: bool, writePath: bool)
      modifies file
      ensures file.text == old(file.text) + GeneralText(workflow, includeDescription, writePath)
    {
      ghost var t0 := file.text;
      var head := "# " + workflow.name + "\n\n";
      var desc := if includeDescription then workflow.description + "\n" else "";
      var path := if writePath then "- filepath=" + workflow.filepath + "\n" else "";
      file.Write(head);
      if includeDescription {
        file.Write(workflow.description + "\n");
      }
      if writePath {
        file.Write("- filepath=" + workflow.filepath + "\n");
      }
      file.Write("\n");
      assert file.text == t0 + head + desc + path + "\n";
      GeneralTextParts(t0, workflow, includeDescription, writePath);
    }

    /** _write_flowchart */
    method WriteFlowchart(file: TextFile, current: Option<string>)
      modifies file
      ensures file.text == old(file.text) + FlowchartText(workflow, current)
    {
      ghost var t0 := file.text;
      var g := workflow.activities;
      file.Write(FlowchartHead);
      var writer := new ActivityWriter(file);
      WriteEntry(writer, g, workflow.start, false);
      ghost var v0 := Visit(g, {}, workflow.start);
      WriteEntry(writer, g, workflow.onSuccess, true);
      ghost var v1 := Visit(g, v0.1, workflow.onSuccess);
      WriteEntry(writer, g, workflow.onFailed, true);
      ghost var v2 := Visit(g, v1.1, workflow.onFailed);
      ghost var main := EntryText(workflow.start, v0.0, false);
      ghost var success := EntryText(workflow.onSuccess, v1.0, true);
      ghost var failed := EntryText(workflow.onFailed, v2.0, true);
      ghost var style := if current.Some? then StyleLine(current.value) else "";
      if current.Some? {
        file.Write(StyleLine(current.value));
      }
      file.Write(FlowchartTail);
      FlowchartParts(workflow, current, main, success, failed, style);
      Concat6(t0, FlowchartHead, main, success, failed, style, FlowchartTail);
    }

    /** accept(writer) on an entry point, after its event-handler comment
        when it is a handler. */
    method WriteEntry(writer: ActivityWriter, g: map<string, Activities.Activity>, entry: Option<string>, handler: bool)
      modifies writer, writer.file
      ensures writer.file.text == old(writer.file.text) + EntryText(entry, Visit(g, old(writer.visited), entry).0, handler)
      ensures writer.visited == Visit(g, old(writer.visited), entry).1
    {
      if entry.None? {
        assert writer.file.text + "" == writer.file.text;
        return;
      }
      ghost var t0 := writer.file.text;
      ghost var v0 := writer.visited;
      ghost var lines := Traverse(g, v0, entry.value).0;
      ghost var comment := if handler then HandlerComment(entry.value) else "";
      if handler {
        writer.file.Write(HandlerComment(entry.value));
      }
      assert writer.file.text == t0 + comment;
      writer.Write(g, entry.value);
      AppendAssoc(t0, comment, Text(lines));
      assert Visit(g, v0, entry) == Traverse(g, v0, entry.value);
      assert EntryText(entry, lines, handler) == comment + Text(lines);
    }

    /** _write_prompts */
    method WritePrompts(file: TextFile)
      modifies file
      ensures file.text == old(file.text) + PromptsSection(workflow.prompts)
    {
      var ps := workflow.prompts;
      file.Write("# Prompts\n\n");
      ghost var t0 := file.text;
      for i := 0 to |ps|
        invariant file.text == t0 + PromptsText(ps[..i])
      {
        assert ps[..i + 1][..i] == ps[..i];
        file.Write("## " + ps[i].0 + "\n\n" + ps[i].1.content + "\n\n");
        AppendAssoc(t0, PromptsText(ps[..i]), PromptText(ps[i].0, ps[i].1));
      }
      assert ps[..|ps|] == ps;
      AppendAssoc(old(file.text), "# Prompts\n\n", PromptsText(ps));
    }

    /** _write_variables */
    method WriteVariables(file: TextFile, vars: Option<Dict<string>>)
      modifies file
      ensures file.text == old(file.text) + VariablesSection(vars)
    {
      if vars.None? {
        assert file.text + "" == file.text;
        return;
      }
      var vs := vars.value;
      file.Write("## Variables:  \n");
      ghost var t0 := file.text;
      for i := 0 to |vs|
        invariant file.text == t0 + VariablesText(vs[..i])
      {
        VariablesTextStep(vs, i);
        WriteVariable(file, vs[i].0, vs[i].1);
        AppendAssoc(t0, VariablesText(vs[..i]), VariableText(vs[i].0, vs[i].1));
      }
      file.Write("\n\n");
      assert vs[..|vs|] == vs;
      AppendAssoc3(old(file.text), "## Variables:  \n", VariablesText(vs), "\n\n");
    }

    /** One variable of _write_variables. */
    method WriteVariable(file: TextFile, key: string, value: string)
      modifies file
      ensures file.text == old(file.text) + VariableText(key, value)
    {
      if |value| > 0 && Find(value, "\n") > 0 {
        file.Write("- **" + key + "**:  \n" + value + "  \n");
      } else {
        file.Write("- **" + key + "**=" + value + "  \n");
      }
    }

    /** _write_history */
    method WriteHistory(file: TextFile, history: History)
      modifies file
      ensures file.text == old(file.text) + HistorySection(history.records)
    {
      var rs := history.records;
      file.Write("# History\n\n");
      ghost var t0 := file.text;
      var counter := 1;
      for i := 0 to |rs|
        invariant counter == i + 1
        invariant file.text == t0 + RecordsText(rs[..i], 1)
      {
        assert rs[..i + 1][..i] == rs[..i];
        var r := rs[i];
        file.Write("## " + IntToString(counter) + ". " + r.activityCaption + " " + " => " + StatusName(r.status) + "\n");
        file.Write("<!-- ts=" + r.timestamp + " -->\n");
        if r.result.Some? && |r.result.value| > 0 {
          file.Write(r.result.value + "\n\n");
        } else {
          file.Write("\n");
        }
        RecordParts(t0 + RecordsText(rs[..i], 1), counter, r);
        AppendAssoc(t0, RecordsText(rs[..i], 1), RecordText(counter, r));
        counter := counter + 1;
      }
      assert rs[..|rs|] == rs;
      AppendAssoc(old(file.text), "# History\n\n", RecordsText(rs, 1));
    }
  }

  /** The flowchart is written in parts: head, the entry points, the
      style line and the closing fence. */
  lemma FlowchartParts(w: Workflow, current: Option<string>,
                       main: string, success: string, failed: string, style: string)
    requires var (l0, l1, l2) := EntryLines(w);
             main == EntryText(w.start, l0, false) && success == EntryText(w.onSuccess, l1, true)
             && failed == EntryText(w.onFailed, l2, true)
    requires style == if current.Some? then StyleLine(current.value) else ""
    ensures FlowchartHead + main + success + failed + style + FlowchartTail == FlowchartText(w, current)
  {
  }

  /** The general section is written in four parts. */
  lemma GeneralTextParts(t: string, w: Workflow, includeDescription: bool, writePath: bool)
    ensures var head := "# " + w.name + "\n\n";
            var desc := if includeDescription then w.description + "\n" else "";
            var path := if writePath then "- filepath=" + w.filepath + "\n" else "";
            t + head + desc + path + "\n" == t + GeneralText(w, includeDescription, writePath)
  {
    var head := "# " + w.name + "\n\n";
    var desc := if includeDescription then w.description + "\n" else "";
    var path := if writePath then "- filepath=" + w.filepath + "\n" else "";
    AppendAssoc(t + head + desc, path, "\n");
    AppendAssoc(t + head, desc, path + "\n");
    AppendAssoc(t, head, desc + (path + "\n"));
  }

  lemma Concat4(t: string, a: string, b: string, c: string, d: string)
    ensures t + a + b + c + d == t + (a + b + c + d)
  {
    AppendAssoc(t + a + b, c, d);
    AppendAssoc(t + a, b, c + d);
    AppendAssoc(t, a, b + (c + d));
    AppendAssoc(a + b, c, d);
    AppendAssoc(a, b, c + d);
  }

  lemma Concat6(t: string, a: string, b: string, c: string, d: string, e: string, f: string)
    ensures t + a + b + c + d + e + f == t + (a + b + c + d + e + f)
  {
  }

  /** A record is written in three writes. */
  lemma RecordParts(t: string, n: int, r: HistoryRecord)
    ensures var head := "## " + IntToString(n) + ". " + r.activityCaption + " " + " => " + StatusName(r.status) + "\n";
            var ts := "<!-- ts=" + r.timestamp + " -->\n";
            var tail := if r.result.Some? && |r.result.value| > 0 then r.result.value + "\n\n" else "\n";
            t + head + ts + tail == t + RecordText(n, r)
  {
    var head := "## " + IntToString(n) + ". " + r.activityCaption + " " + " => " + StatusName(r.status) + "\n";
    var ts := "<!-- ts=" + r.timestamp + " -->\n";
    var tail := if r.result.Some? && |r.result.value| > 0 then r.result.value + "\n\n" else "\n";
    assert RecordText(n, r) == head + ts + tail;
    AppendAssoc3(t, head, ts, tail);
  }

  /** The variables text grows by one variable at a time. */
  lemma VariablesTextStep(vs: Dict<string>, i: nat)
    requires i < |vs|
    ensures VariablesText(vs[..i + 1]) == VariablesText(vs[..i]) + VariableText(vs[i].0, vs[i].1)
  {
    assert vs[..i + 1][..i] == vs[..i];
  }
}
