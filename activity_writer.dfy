/**
 * Writing the activity graph as mermaid flowchart lines.  From an
 * activity the writer emits its node line (the name and a caption that
 * depends on the kind), then the edge to `next` and the subtree below it,
 * then the edge to `other` and the subtree below that.  A set of visited
 * activities makes every node line appear once, so the traversal ends on
 * graphs with cycles.
 *
 * Lines are kept as values (node or edge) and rendered to text; the
 * ActivityWriter class appends the rendered text to its output buffer,
 * which stands for the file it writes to.  Activities are identified by
 * their key in the workflow's activity map.
 */
module ActivityWriters {
  import opened Wrappers
  import opened PyStrings
  import opened Activities
  import opened ReaderScan
  import Reader
  import Workflows
  import opened TextFiles

  /** The mermaid shape attributes, between "@{" and "}", of the nodes that
      carry no expression for the reader. */
  const StartShape: string := " shape: f-circ, label: \"start\""
  const StadiumShape: string := " shape: stadium  "
  function AskShape(a: Activity): string {
    " shape: manual-input, label: \"" + KindValue(a.kind) + ": " + a.expression + "\" "
  }

  /** The caption each visit_* method passes to _write. */
  function Caption(a: Activity): string {
    match a.kind
    case START => "@{" + StartShape + "}"
    case SET => "[" + KindValue(a.kind) + ": " + a.expression + "]"
    case ASSIGN => "[" + KindValue(a.kind) + ": " + a.expression + "]"
    case CHECK => "{" + a.expression + "}"
    case PROMPT => "[" + KindValue(a.kind) + ": " + a.expression + "]"
    case ASK => "@{" + AskShape(a) + "}"
    case EXECUTE => "[\"" + KindValue(a.kind) + ": " + a.expression + "\"]"
    case CALL => "[[" + a.expression + "]]"
    case SUCCESS => "@{" + StadiumShape + "}"
    case FAILED => "@{" + StadiumShape + "}"
    case ON => "@{" + StadiumShape + "}"
  }

  /** The label on the edge to `next`: TRUE for CHECK, none otherwise. */
  function NextLabel(k: Kind): string {
    if k == CHECK then "TRUE" else ""
  }

  /** The label on the edge to `other`: FALSE for CHECK, FAILED for CALL,
      none otherwise. */
  function OtherLabel(k: Kind): string {
    if k == CHECK then "FALSE" else if k == CALL then "FAILED" else ""
  }

  /** A written line: a node with its caption, or an edge with an optional
      label ("" for none). */
  datatype Line = Node(name: string, caption: string) | Edge(from: string, tag: string, to: string)

  function LabelText(tag: string): string {
    if tag == "" then "" else "|" + tag + "| "
  }

  /** The line as it appears in the file, indented by two spaces. */
  function LineText(l: Line): string {
    match l
    case Node(n, c) => "  " + n + c + "\n"
    case Edge(f, tag, t) => "  " + f + " --> " + LabelText(tag) + t + "\n"
  }

  function Text(ls: seq<Line>): string {
    if ls == [] then "" else LineText(ls[0]) + Text(ls[1..])
  }

  /** _write, starting from the activity called `name` with the activities
      in `visited` already written: the lines written and the new visited
      set.  A missing or already visited activity writes nothing. */
  function Traverse(g: map<string, Activity>, visited: set<string>, name: string): (r: (seq<Line>, set<string>))
    ensures visited <= r.1 <= visited + g.Keys
    ensures name in g ==> name in r.1
    decreases g.Keys - visited, 0
  {
    if name !in g || name in visited then ([], visited)
    else
      var a := g[name];
      var s1 := Successor(g, visited + {name}, name, a.next, NextLabel(a.kind));
      var s2 := Successor(g, s1.1, name, a.other, OtherLabel(a.kind));
      ([Node(name, Caption(a))] + s1.0 + s2.0, s2.1)
  }

  /** The part of _write for one successor slot: the edge to it and
      everything written from it, or nothing when the slot is empty. */
  function Successor(g: map<string, Activity>, visited: set<string>, from: string,
                     to: Option<string>, tag: string): (r: (seq<Line>, set<string>))
    ensures visited <= r.1 <= visited + g.Keys
    decreases g.Keys - visited, 1
  {
    if to.None? then ([], visited)
    else
      var t := Traverse(g, visited, to.value);
      ([Edge(from, tag, to.value)] + t.0, t.1)
  }

  // ---------------------------------------------------------------------
  // Properties of the traversal

  function NodeNames(ls: seq<Line>): seq<string> {
    if ls == [] then []
    else (if ls[0].Node? then [ls[0].name] else []) + NodeNames(ls[1..])
  }

  predicate NoDuplicates(s: seq<string>) {
    forall i, j :: 0 <= i < j < |s| ==> s[i] != s[j]
  }

  function Elements(s: seq<string>): set<string> {
    set x | x in s
  }

  lemma {:induction false} NodeNamesAppend(a: seq<Line>, b: seq<Line>)
    ensures NodeNames(a + b) == NodeNames(a) + NodeNames(b)
    decreases |a|
  {
    if a == [] {
      assert a + b == b;
    } else {
      assert (a + b)[0] == a[0] && (a + b)[1..] == a[1..] + b;
      NodeNamesAppend(a[1..], b);
    }
  }

  lemma {:induction false} TextAppend(a: seq<Line>, b: seq<Line>)
    ensures Text(a + b) == Text(a) + Text(b)
    decreases |a|
  {
    if a == [] {
      assert a + b == b;
    } else {
      assert (a + b)[0] == a[0] && (a + b)[1..] == a[1..] + b;
      TextAppend(a[1..], b);
    }
  }

  /** Two sequences without duplicates and with disjoint elements join
      into one without duplicates. */
  lemma NoDuplicatesJoin(a: seq<string>, b: seq<string>)
    requires NoDuplicates(a) && NoDuplicates(b) && Elements(a) !! Elements(b)
    ensures NoDuplicates(a + b) && Elements(a + b) == Elements(a) + Elements(b)
  {
    forall i, j | 0 <= i < j < |a + b|
      ensures (a + b)[i] != (a + b)[j]
    {
      if i < |a| && j >= |a| {
        assert (a + b)[i] in Elements(a) && (a + b)[j] in Elements(b);
      }
    }
  }

  /** Every activity gets exactly one node line: the names of the node
      lines written are pairwise different and are exactly the activities
      newly visited, so reaching a written activity again writes no second
      node line. */
  lemma {:induction false} NodesOnce(g: map<string, Activity>, visited: set<string>, name: string)
    ensures var r := Traverse(g, visited, name);
            NoDuplicates(NodeNames(r.0)) && Elements(NodeNames(r.0)) == r.1 - visited
    decreases g.Keys - visited, 0
  {
    if name in g && name !in visited {
      var a := g[name];
      var s1 := Successor(g, visited + {name}, name, a.next, NextLabel(a.kind));
      var s2 := Successor(g, s1.1, name, a.other, OtherLabel(a.kind));
      var n1, n2 := NodeNames(s1.0), NodeNames(s2.0);
      SuccessorNodesOnce(g, visited + {name}, name, a.next, NextLabel(a.kind));
      SuccessorNodesOnce(g, s1.1, name, a.other, OtherLabel(a.kind));
      assert NodeNames(Traverse(g, visited, name).0) == [name] + n1 + n2 by {
        NodeNamesAppend([Node(name, Caption(a))] + s1.0, s2.0);
        NodeNamesAppend([Node(name, Caption(a))], s1.0);
        assert NodeNames([Node(name, Caption(a))]) == [name];
      }
      assert Elements([name]) == {name};
      NoDuplicatesJoin([name], n1);
      NoDuplicatesJoin([name] + n1, n2);
    } else {
      assert NodeNames([]) == [];
    }
  }

  lemma {:induction false} SuccessorNodesOnce(g: map<string, Activity>, visited: set<string>, from: string,
                                              to: Option<string>, tag: string)
    ensures var r := Successor(g, visited, from, to, tag);
            NoDuplicates(NodeNames(r.0)) && Elements(NodeNames(r.0)) == r.1 - visited
    decreases g.Keys - visited, 1
  {
    if to.Some? {
      var t := Traverse(g, visited, to.value);
      NodesOnce(g, visited, to.value);
      NodeNamesAppend([Edge(from, tag, to.value)], t.0);
      assert NodeNames([Edge(from, tag, to.value)]) == [];
    } else {
      assert NodeNames([]) == [];
    }
  }

  /** An edge line appears only for a real successor: from an activity of
      the graph to its `next` with the next label, or to its `other` with
      the other label. */
  predicate EdgeOfGraph(g: map<string, Activity>, l: Line) {
    l.Edge? ==>
      l.from in g &&
      ((g[l.from].next == Some(l.to) && l.tag == NextLabel(g[l.from].kind))
       || (g[l.from].other == Some(l.to) && l.tag == OtherLabel(g[l.from].kind)))
  }

  lemma {:induction false} EdgesOfGraph(g: map<string, Activity>, visited: set<string>, name: string)
    ensures forall l | l in Traverse(g, visited, name).0 :: EdgeOfGraph(g, l)
    decreases g.Keys - visited, 0
  {
    if name in g && name !in visited {
      var a := g[name];
      var s1 := Successor(g, visited + {name}, name, a.next, NextLabel(a.kind));
      SuccessorEdgesOfGraph(g, visited + {name}, name, a.next, NextLabel(a.kind));
      SuccessorEdgesOfGraph(g, s1.1, name, a.other, OtherLabel(a.kind));
    }
  }

  lemma {:induction false} SuccessorEdgesOfGraph(g: map<string, Activity>, visited: set<string>, from: string,
                                                 to: Option<string>, tag: string)
    requires to.Some? ==> from in g
    requires to.Some? ==> (to == g[from].next && tag == NextLabel(g[from].kind))
                          || (to == g[from].other && tag == OtherLabel(g[from].kind))
    ensures forall l | l in Successor(g, visited, from, to, tag).0 :: EdgeOfGraph(g, l)
    decreases g.Keys - visited, 1
  {
    if to.Some? {
      EdgesOfGraph(g, visited, to.value);
    }
  }

  // ---------------------------------------------------------------------
  // Writing and reading back

  /** The labels the writer puts on edges are ones the reader classifies
      onto the same slot: TRUE is positive, FALSE and FAILED are negative. */
  lemma LabelsReadBack(k: Kind)
    ensures NextLabel(k) == "" || (Upper(NextLabel(k)) in SucceededNames && Upper(NextLabel(k)) !in FailedNames)
    ensures OtherLabel(k) == "" || Upper(OtherLabel(k)) in FailedNames
    ensures OtherLabel(k) == "" <==> k != CHECK && k != CALL
  {
    assert Upper("TRUE") == "TRUE";
    assert Upper("FALSE") == "FALSE";
    assert Upper("FAILED") == "FAILED";
  }

  /** Two leading spaces do not survive a strip. */
  lemma StripIndent(s: string)
    requires s != [] && !IsSpace(s[0]) && !IsSpace(s[|s| - 1])
    ensures Strip("  " + s) == s
  {
    assert "  " + s == [' '] + ([' '] + s);
    StripLeadingSpace(' ', [' '] + s);
    StripLeadingSpace(' ', s);
    StripTrimmed(s);
  }

  /** The written edge line without its line break. */
  lemma EdgeLineText(from: string, tag: string, to: string)
    ensures var text := LineText(Edge(from, tag, to));
            |text| > 0 && text[..|text| - 1] == "  " + (from + " --> " + LabelText(tag) + to)
  {
    var text := LineText(Edge(from, tag, to));
    var line := from + " --> " + LabelText(tag) + to;
    assert text == "  " + line + "\n";
  }

  /** The indentation of an edge line does not survive a strip. */
  lemma EdgeLineStrip(from: string, tag: string, to: string)
    requires IsName(from) && from != [] && IsName(to) && to != []
    ensures var line := from + " --> " + LabelText(tag) + to;
            Strip("  " + line) == line
  {
    var line := from + " --> " + LabelText(tag) + to;
    assert line[0] == from[0] && line[|line| - 1] == to[|to| - 1];
    assert IsNameChar(from[0]) && IsNameChar(to[|to| - 1]);
    StripIndent(line);
  }

  /** The flowchart line the reader sees for an edge the writer emits: the
      written line without its line break, stripped. */
  lemma EdgeLineSeen(from: string, tag: string, to: string)
    requires IsName(from) && from != [] && IsName(to) && to != []
    ensures var text := LineText(Edge(from, tag, to));
            |text| > 0 && Strip(text[..|text| - 1]) == from + " --> " + LabelText(tag) + to
  {
    EdgeLineText(from, tag, to);
    EdgeLineStrip(from, tag, to);
  }

  /** Reading a written edge line is reading "<from> --> <label><to>". */
  lemma WrittenEdgeRead(wf: Workflows.Workflow, from: string, tag: string, to: string)
    requires IsName(from) && from != [] && IsName(to) && to != []
    ensures var text := LineText(Edge(from, tag, to));
            |text| > 0 && Reader.FlowchartLineRead(wf, Strip(text[..|text| - 1]))
                          == Reader.FlowchartLineRead(wf, from + " --> " + LabelText(tag) + to)
  {
    EdgeLineSeen(from, tag, to);
  }

  /** The labels the writer uses are labels the reader accepts, already in
      upper case, and TRUE is the only one of them that means success. */
  lemma WrittenTag(tag: string)
    requires tag == "TRUE" || tag == "FALSE" || tag == "FAILED"
    ensures IsLabel(tag) && Upper(tag) == tag
    ensures tag == "TRUE" ==> tag in Activities.SucceededNames && tag !in Activities.FailedNames
    ensures tag != "TRUE" ==> tag in Activities.FailedNames
  {
  }

  /** A labelled edge line spelled out. */
  lemma LabelSpelled(from: string, tag: string, to: string)
    requires tag != ""
    ensures from + " --> " + LabelText(tag) + to == from + " --> |" + tag + "| " + to
  {
  }

  /** A label the writer uses, read back, selects `next` (positive) or
      `other` (negative). */
  lemma WrittenLabelRead(wf: Workflows.Workflow, from: string, tag: string, to: string, positive: bool)
    requires IsName(from) && from != [] && IsName(to) && to != []
    requires from in wf.activities && to in wf.activities
    requires if positive then tag == "TRUE" else tag == "FALSE" || tag == "FAILED"
    ensures var a := wf.activities[from];
            Reader.FlowchartLineRead(wf, from + " --> " + LabelText(tag) + to)
            == if positive then Ok(wf.(activities := wf.activities[from := a.(next := Some(to))]))
               else Ok(wf.(activities := wf.activities[from := a.(other := Some(to))]))
  {
    WrittenTag(tag);
    LabelSpelled(from, tag, to);
    Reader.LabelledEdgeRead(wf, from, tag, to);
  }

  /** An unlabelled written edge is read back as `next`. */
  lemma UnlabelledRead(wf: Workflows.Workflow, from: string, to: string)
    requires IsName(from) && from != [] && IsName(to) && to != []
    requires from in wf.activities && to in wf.activities
    ensures Reader.FlowchartLineRead(wf, from + " --> " + LabelText("") + to)
            == Ok(wf.(activities := wf.activities[from := wf.activities[from].(next := Some(to))]))
  {
    assert from + " --> " + LabelText("") + to == from + " --> " + to;
    Reader.PlainEdgeRead(wf, from, to);
  }

  /** The `next` edge the writer emits, read back by the workflow reader
      (as a stripped flowchart line), sets `next` again. */
  lemma NextEdgeReadBack(wf: Workflows.Workflow, from: string, k: Kind, to: string)
    requires IsName(from) && from != [] && IsName(to) && to != []
    requires from in wf.activities && to in wf.activities
    ensures var text := LineText(Edge(from, NextLabel(k), to));
            |text| > 0 && Reader.FlowchartLineRead(wf, Strip(text[..|text| - 1]))
                          == Ok(wf.(activities := wf.activities[from := wf.activities[from].(next := Some(to))]))
  {
    WrittenEdgeRead(wf, from, NextLabel(k), to);
    if k == CHECK {
      WrittenLabelRead(wf, from, "TRUE", to, true);
    } else {
      UnlabelledRead(wf, from, to);
    }
  }

  /** The `other` edge the writer emits, read back by the workflow reader,
      sets `other` again for CHECK and CALL.  For any other kind it is
      written without a label and so is read back as `next`. */
  lemma OtherEdgeReadBack(wf: Workflows.Workflow, from: string, k: Kind, to: string)
    requires IsName(from) && from != [] && IsName(to) && to != []
    requires from in wf.activities && to in wf.activities
    ensures var text := LineText(Edge(from, OtherLabel(k), to));
            var a := wf.activities[from];
            |text| > 0 && Reader.FlowchartLineRead(wf, Strip(text[..|text| - 1]))
            == if k == CHECK || k == CALL then Ok(wf.(activities := wf.activities[from := a.(other := Some(to))]))
               else Ok(wf.(activities := wf.activities[from := a.(next := Some(to))]))
  {
    WrittenEdgeRead(wf, from, OtherLabel(k), to);
    if k == CHECK {
      WrittenLabelRead(wf, from, "FALSE", to, false);
    } else if k == CALL {
      WrittenLabelRead(wf, from, "FAILED", to, false);
    } else {
      UnlabelledRead(wf, from, to);
    }
  }

  /** An expression the reader takes as it is: no ":", and no opening
      character the reader would strip or discard. */
  predicate PlainExpression(e: string) {
    ':' !in e && (e == [] || (e[0] != '(' && e[0] != '[' && e[0] != '"' && e[0] != '{'))
  }

  /** A plain expression comes through the expression clean-up unchanged. */
  lemma PlainExpressionKept(n: string, e: string)
    requires PlainExpression(e)
    ensures Unwrapped(e) == e
    ensures ActivityExpr(n, e + "}") == e
  {
    assert CloseDropped(e + "}") == e by {
      assert (e + "}")[..|e + "}"| - 1] == e;
    }
    assert Unwrapped(e) == e;
    assert ShapeCleared(n, e) == e;
    assert CaptionCut(e) == e by {
      FindCharAbsent(e, ':');
    }
  }

  /** "{<e>}" after a name: the CHECK caption. */
  lemma BracedNode(n: string, e: string)
    requires IsName(n) && n != [] && PlainExpression(e)
    ensures ActivityOfLine(n + "{" + e + "}") == (n, e)
  {
    assert n + "{" + e + "}" == n + ['{'] + (e + "}");
    NameThenBracket(n, '{', e + "}");
    PlainExpressionKept(n, e);
  }

  /** "[[<e>]]" after a name: the CALL caption. */
  lemma DoubleBracketNode(n: string, e: string)
    requires IsName(n) && n != [] && PlainExpression(e)
    ensures ActivityOfLine(n + "[[" + e + "]]") == (n, e)
  {
    var raw := "[" + e + "]" + "]";
    assert n + "[[" + e + "]]" == n + ['['] + raw;
    NameThenBracket(n, '[', raw);
    BracketedExpr(n, e);
  }

  /** The reader's expression for "[<e>]]" is the plain expression e. */
  lemma BracketedExpr(n: string, e: string)
    requires PlainExpression(e)
    ensures ActivityExpr(n, "[" + e + "]" + "]") == e
  {
    var e1 := "[" + e + "]";
    assert CloseDropped(e1 + "]") == e1 by {
      assert (e1 + "]")[..|e1 + "]"| - 1] == e1;
    }
    assert Unwrapped(e1) == e by {
      assert Unwrap(e1, '(', ')') == e1;
      assert Inner(e1) == e;
      PlainExpressionKept(n, e);
    }
    ExprStages(n, e1 + "]", e1, e);
    assert CaptionCut(e) == e by {
      FindCharAbsent(e, ':');
    }
  }

  /** The quoted caption text of EXECUTE without its closing bracket and
      quotes. */
  lemma QuotedUnwrapped(kind: string, e: string)
    ensures CloseDropped("\"" + kind + ": " + e + "\"]") == "\"" + kind + ": " + e + "\""
    ensures Unwrapped("\"" + kind + ": " + e + "\"") == kind + ": " + e
  {
    var raw := "\"" + kind + ": " + e + "\"]";
    var e1 := "\"" + kind + ": " + e + "\"";
    assert raw[..|raw| - 1] == e1;
    assert e1[0] == '"' && e1[|e1| - 1] == '"';
    assert Inner(e1) == kind + ": " + e;
  }

  /** The reader's expression for the quoted caption "\"<Kind>: <e>\"]" is
      the trimmed expression. */
  lemma QuotedCaptionExpr(n: string, kind: string, e: string)
    requires kind != [] && forall k :: 0 <= k < |kind| ==> 'A' <= kind[k] <= 'Z' || 'a' <= kind[k] <= 'z'
    ensures ActivityExpr(n, "\"" + kind + ": " + e + "\"]") == Strip(e)
  {
    var e2 := kind + ": " + e;
    QuotedUnwrapped(kind, e);
    CaptionUnwrapped(kind, e);
    ExprStages(n, "\"" + kind + ": " + e + "\"]", "\"" + kind + ": " + e + "\"", e2);
    CaptionColon(kind, e);
    CaptionCutAt(e2, |kind|);
  }

  /** "[\"<Kind>: <e>\"]" after a name: the EXECUTE caption. */
  lemma QuotedCaptionNode(n: string, kind: string, e: string)
    requires IsName(n) && n != []
    requires kind != [] && forall k :: 0 <= k < |kind| ==> 'A' <= kind[k] <= 'Z' || 'a' <= kind[k] <= 'z'
    ensures ActivityOfLine(n + "[\"" + kind + ": " + e + "\"]") == (n, Strip(e))
  {
    var raw := "\"" + kind + ": " + e + "\"]";
    assert n + "[\"" + kind + ": " + e + "\"]" == n + ['['] + raw;
    NameThenBracket(n, '[', raw);
    QuotedCaptionExpr(n, kind, e);
  }

  /** "@{<body>}" after a name: the shape captions; they carry no expression
      for the reader. */
  lemma ShapeNode(n: string, body: string)
    requires IsName(n) && n != [] && !StartsWith(n, "PARAMS")
    ensures ActivityOfLine(n + "@{" + body + "}") == (n, "")
  {
    var shape := "{" + body + "}";
    assert n + "@{" + body + "}" == n + ['@'] + shape;
    NameThenBracket(n, '@', shape);
    ShapeExpr(n, "{" + body);
  }

  /** A {...} shape carries no expression, unless the activity is PARAMS. */
  lemma ShapeExpr(n: string, e1: string)
    requires e1 != [] && e1[0] == '{' && !StartsWith(n, "PARAMS")
    ensures ActivityExpr(n, e1 + "}") == ""
  {
    assert CloseDropped(e1 + "}") == e1 by {
      assert (e1 + "}")[..|e1 + "}"| - 1] == e1;
    }
    assert Unwrapped(e1) == e1;
    assert ShapeCleared(n, e1) == "";
    assert CaptionCut("") == "" by {
      assert Find("", ":") == -1;
    }
  }

  /** The node lines of SET, ASSIGN, PROMPT and EXECUTE read back as the
      name and the trimmed expression. */
  lemma CaptionReadBack(n: string, a: Activity)
    requires IsName(n) && n != []
    requires a.kind in {SET, ASSIGN, PROMPT, EXECUTE}
    ensures ActivityOfLine(n + Caption(a)) == (n, Strip(a.expression))
  {
    var e := a.expression;
    var v := KindValue(a.kind);
    if a.kind == EXECUTE {
      assert v == "Execute";
      assert n + Caption(a) == n + "[\"" + v + ": " + e + "\"]";
      QuotedCaptionNode(n, v, e);
    } else {
      assert v == "Set" || v == "Assign" || v == "Prompt";
      assert n + Caption(a) == n + "[" + v + ": " + e + "]";
      CaptionedNode(n, v, e);
    }
  }

  /** The node lines of CHECK and CALL read back as the name and the
      expression, when the expression is plain. */
  lemma BracketReadBack(n: string, a: Activity)
    requires IsName(n) && n != [] && PlainExpression(a.expression)
    requires a.kind in {CHECK, CALL}
    ensures ActivityOfLine(n + Caption(a)) == (n, a.expression)
  {
    var e := a.expression;
    if a.kind == CHECK {
      assert n + Caption(a) == n + "{" + e + "}";
      BracedNode(n, e);
    } else {
      assert n + Caption(a) == n + "[[" + e + "]]";
      DoubleBracketNode(n, e);
    }
  }

  /** The shape node lines of START, ASK, SUCCESS, FAILED and ON read back
      as the name with no expression. */
  lemma ShapeReadBack(n: string, a: Activity)
    requires IsName(n) && n != [] && !StartsWith(n, "PARAMS")
    requires a.kind in {START, ASK, SUCCESS, FAILED, ON}
    ensures ActivityOfLine(n + Caption(a)) == (n, "")
  {
    var body := if a.kind == START then StartShape else if a.kind == ASK then AskShape(a) else StadiumShape;
    assert Caption(a) == "@{" + body + "}";
    assert n + Caption(a) == n + "@{" + body + "}";
    ShapeNode(n, body);
  }

  /** Every node line the writer emits reads back as the activity's name;
      the expression comes back, trimmed, for SET, ASSIGN, PROMPT and
      EXECUTE, as it is for CHECK and CALL when it is plain, and not at all
      for the shapes of START, ASK, SUCCESS, FAILED and ON. */
  lemma NodeReadBack(n: string, a: Activity)
    requires IsName(n) && n != [] && !StartsWith(n, "PARAMS")
    ensures a.kind in {SET, ASSIGN, PROMPT, EXECUTE} ==> ActivityOfLine(n + Caption(a)) == (n, Strip(a.expression))
    ensures a.kind in {CHECK, CALL} && PlainExpression(a.expression) ==> ActivityOfLine(n + Caption(a)) == (n, a.expression)
    ensures a.kind in {START, ASK, SUCCESS, FAILED, ON} ==> ActivityOfLine(n + Caption(a)) == (n, "")
  {
    match a.kind
    case SET => CaptionReadBack(n, a);
    case ASSIGN => CaptionReadBack(n, a);
    case PROMPT => CaptionReadBack(n, a);
    case EXECUTE => CaptionReadBack(n, a);
    case CHECK => if PlainExpression(a.expression) { BracketReadBack(n, a); }
    case CALL => if PlainExpression(a.expression) { BracketReadBack(n, a); }
    case START => ShapeReadBack(n, a);
    case ASK => ShapeReadBack(n, a);
    case SUCCESS => ShapeReadBack(n, a);
    case FAILED => ShapeReadBack(n, a);
    case ON => ShapeReadBack(n, a);
  }

  // ---------------------------------------------------------------------
  // Node lines through the flowchart line dispatch

  /** No "-->" anywhere in the text. */
  ghost predicate ArrowFree(s: string) {
    forall k :: !OccursAt(s, "-->", k)
  }

  /** Text without a dash holds no arrow. */
  lemma DashFreeArrowFree(s: string)
    requires '-' !in s
    ensures ArrowFree(s)
  {
    forall k
      ensures !OccursAt(s, "-->", k)
    {
      if 0 <= k && k + 3 <= |s| {
        assert s[k..k + 3][0] == s[k];
      }
    }
  }

  /** Joining two texts without an arrow makes none, unless the first ends
      in a dash and the second starts with a dash or with ">". */
  lemma ArrowFreeJoin(x: string, y: string)
    requires ArrowFree(x) && ArrowFree(y)
    requires x == [] || x[|x| - 1] != '-' || y == [] || (y[0] != '-' && y[0] != '>')
    ensures ArrowFree(x + y)
  {
    var s := x + y;
    forall k | 0 <= k && k + 3 <= |s|
      ensures !OccursAt(s, "-->", k)
    {
      var w := s[k..k + 3];
      if k + 3 <= |x| {
        assert w == x[k..k + 3] by {
          forall i | 0 <= i < 3
            ensures w[i] == x[k + i]
          {
          }
        }
        assert !OccursAt(x, "-->", k);
      } else if k >= |x| {
        assert w == y[k - |x|..k - |x| + 3] by {
          forall i | 0 <= i < 3
            ensures w[i] == y[k - |x| + i]
          {
          }
        }
        assert !OccursAt(y, "-->", k - |x|);
      } else if k == |x| - 1 {
        assert w[0] == x[|x| - 1] && w[1] == y[0];
      } else {
        assert w[1] == x[|x| - 1] && w[2] == y[0];
      }
    }
  }

  /** An arrow-free text between a dash-free head and a dash-free tail that
      does not start with ">" makes an arrow-free text. */
  lemma FramedArrowFree(head: string, e: string, tail: string)
    requires '-' !in head && '-' !in tail && ArrowFree(e)
    requires tail == [] || tail[0] != '>'
    ensures ArrowFree(head + e + tail)
  {
    DashFreeArrowFree(head);
    DashFreeArrowFree(tail);
    if head != [] {
      assert head[|head| - 1] in head;
    }
    ArrowFreeJoin(head, e);
    if tail != [] {
      assert tail[0] in tail;
    }
    ArrowFreeJoin(head + e, tail);
  }

  /** The start shape holds one dash, in "f-circ", and no arrow. */
  lemma StartShapeArrowFree()
    ensures ArrowFree(StartShape) && '\n' !in StartShape
  {
    assert StartShape == " shape: f" + "-" + "circ, label: \"start\"";
    FramedArrowFree(" shape: f", "-", "circ, label: \"start\"");
  }

  lemma KindValueDashFree(k: Kind)
    ensures '-' !in KindValue(k) && '\n' !in KindValue(k)
  {
  }

  /** The ask shape holds one dash, in "manual-input", and no arrow unless
      the expression holds one. */
  lemma AskShapeArrowFree(a: Activity)
    requires ArrowFree(a.expression) && '\n' !in a.expression
    ensures ArrowFree(AskShape(a)) && '\n' !in AskShape(a)
  {
    var head := " shape: manual";
    var caption := "input, label: \"" + KindValue(a.kind) + ": ";
    var tail := caption + a.expression + "\" ";
    assert " shape: manual-input, label: \"" == head + "-" + "input, label: \"";
    assert AskShape(a) == head + "-" + tail;
    KindValueDashFree(a.kind);
    FramedArrowFree(head, "-", []);
    assert head + "-" + [] == head + "-";
    FramedArrowFree(caption, a.expression, "\" ");
    ArrowFreeJoin(head + "-", tail);
  }

  lemma NameDashFree(n: string)
    requires IsName(n)
    ensures '-' !in n && '\n' !in n
  {
    forall k | 0 <= k < |n|
      ensures n[k] != '-' && n[k] != '\n'
    {
      assert IsNameChar(n[k]);
    }
  }

  /** A caption holds no arrow and no line break unless the expression
      does, and it ends in a closing bracket or brace. */
  lemma CaptionArrowFree(a: Activity)
    requires ArrowFree(a.expression) && '\n' !in a.expression
    ensures ArrowFree(Caption(a)) && '\n' !in Caption(a)
    ensures |Caption(a)| > 0 && (Caption(a)[|Caption(a)| - 1] == ']' || Caption(a)[|Caption(a)| - 1] == '}')
  {
    var e := a.expression;
    var k := KindValue(a.kind);
    match a.kind
    case START =>
      StartShapeArrowFree();
      FramedArrowFree("@{", StartShape, "}");
    case ASK =>
      AskShapeArrowFree(a);
      FramedArrowFree("@{", AskShape(a), "}");
    case EXECUTE => FramedArrowFree("[\"" + k + ": ", e, "\"]");
    case CHECK => FramedArrowFree("{", e, "}");
    case CALL => FramedArrowFree("[[", e, "]]");
    case SUCCESS =>
      DashFreeArrowFree(StadiumShape);
      FramedArrowFree("@{", StadiumShape, "}");
    case FAILED =>
      DashFreeArrowFree(StadiumShape);
      FramedArrowFree("@{", StadiumShape, "}");
    case ON =>
      DashFreeArrowFree(StadiumShape);
      FramedArrowFree("@{", StadiumShape, "}");
    case SET => FramedArrowFree("[" + k + ": ", e, "]");
    case ASSIGN => FramedArrowFree("[" + k + ": ", e, "]");
    case PROMPT => FramedArrowFree("[" + k + ": ", e, "]");
  }

  /** The node line without its indentation holds no arrow and no line
      break unless the expression does. */
  lemma NodeLineShape(n: string, a: Activity)
    requires IsName(n)
    requires ArrowFree(a.expression) && '\n' !in a.expression
    ensures ArrowFree(n + Caption(a)) && '\n' !in n + Caption(a)
  {
    NameDashFree(n);
    CaptionArrowFree(a);
    DashFreeArrowFree(n);
    if n != [] {
      assert n[|n| - 1] in n;
    }
    ArrowFreeJoin(n, Caption(a));
  }

  /** The flowchart line the reader sees for a node line the writer emits:
      the written line without its line break, stripped, is the name and
      the caption, and it is not an edge. */
  lemma NodeLineSeen(n: string, a: Activity)
    requires IsName(n) && n != []
    requires ArrowFree(a.expression) && '\n' !in a.expression
    ensures var text := LineText(Node(n, Caption(a)));
            |text| > 0 && '\n' !in text[..|text| - 1]
            && Strip(text[..|text| - 1]) == n + Caption(a)
            && !StartsWith(n + Caption(a), "%%") && Find(n + Caption(a), "-->") == -1
  {
    NodeLineShape(n, a);
    CaptionArrowFree(a);
    NodeTextSeen(n, Caption(a));
  }

  lemma NodeTextSeen(n: string, c: string)
    requires IsName(n) && n != [] && c != [] && (c[|c| - 1] == ']' || c[|c| - 1] == '}')
    requires ArrowFree(n + c) && '\n' !in n + c
    ensures var text := LineText(Node(n, c));
            |text| > 0 && '\n' !in text[..|text| - 1]
            && Strip(text[..|text| - 1]) == n + c
            && !StartsWith(n + c, "%%") && Find(n + c, "-->") == -1
  {
    var line := n + c;
    assert LineText(Node(n, c)) == "  " + line + "\n";
    assert line[0] == n[0] && IsNameChar(n[0]);
    assert line[|line| - 1] == c[|c| - 1];
    IndentedLineSeen(line);
    assert !StartsWith(line, "%%") by {
      assert line[0] != "%%"[0];
    }
    ArrowFreeNotFound(line);
  }

  /** A line written with two spaces in front and a line break after is
      seen again, stripped, as it was. */
  lemma IndentedLineSeen(line: string)
    requires line != [] && !IsSpace(line[0]) && !IsSpace(line[|line| - 1]) && '\n' !in line
    ensures var text := "  " + line + "\n";
            '\n' !in text[..|text| - 1] && Strip(text[..|text| - 1]) == line
  {
    var text := "  " + line + "\n";
    assert text[..|text| - 1] == "  " + line;
    StripIndent(line);
  }

  lemma ArrowFreeNotFound(s: string)
    requires ArrowFree(s)
    ensures Find(s, "-->") == -1
  {
  }

  /** The expression a node line reads back as: trimmed for SET, ASSIGN,
      PROMPT and EXECUTE, as written for CHECK and CALL, none for the
      shapes. */
  function ReadBackExpression(a: Activity): string {
    if a.kind in {SET, ASSIGN, PROMPT, EXECUTE} then Strip(a.expression)
    else if a.kind in {CHECK, CALL} then a.expression
    else ""
  }

  /** A node line the writer emits, read as a flowchart line, declares the
      activity called `n` with the expression it reads back as, or sets
      that expression on an activity of that name already declared (an
      empty one keeps the old expression); a name whose prefix is no kind
      is refused.  This holds when the expression holds no "-->", which
      would make the line an edge, and no line break, which would split it
      in two; a CHECK or CALL expression must also be plain. */
  lemma NodeLineReadBack(wf: Workflows.Workflow, n: string, a: Activity)
    requires IsName(n) && n != [] && !StartsWith(n, "PARAMS")
    requires !Contains(a.expression, "-->") && '\n' !in a.expression
    requires a.kind in {CHECK, CALL} ==> PlainExpression(a.expression)
    ensures var text := LineText(Node(n, Caption(a)));
            var x := ReadBackExpression(a);
            var kind := ParseKind(Reader.KindPrefix(n));
            |text| > 0 && '\n' !in text[..|text| - 1]
            && Reader.FlowchartLineRead(wf, Strip(text[..|text| - 1]))
               == if n in wf.activities then
                    Ok(wf.(activities := wf.activities[n := wf.activities[n].(expression := if x == [] then wf.activities[n].expression else x)]))
                  else if kind.None? then Err(ValueError(Reader.PrefixError(Reader.KindPrefix(n))))
                  else Ok(wf.(activities := wf.activities[n := NewActivity(kind.value, n, x)]))
  {
    var line := n + Caption(a);
    var x := ReadBackExpression(a);
    var r := Find(a.expression, "-->");
    assert r == -1;
    NodeLineSeen(n, a);
    NodeExpressionReadBack(n, a);
    PrefixNotParams(n);
    NotAnEdge(wf, line);
    WrittenNodeRead(wf, line, n, x);
  }

  /** NodeReadBack in terms of ReadBackExpression. */
  lemma NodeExpressionReadBack(n: string, a: Activity)
    requires IsName(n) && n != [] && !StartsWith(n, "PARAMS")
    requires a.kind in {CHECK, CALL} ==> PlainExpression(a.expression)
    ensures ActivityOfLine(n + Caption(a)) == (n, ReadBackExpression(a))
  {
    var line := n + Caption(a);
    if a.kind in {SET, ASSIGN, PROMPT, EXECUTE} {
      CaptionReadBack(n, a);
      assert ActivityOfLine(line) == (n, Strip(a.expression));
    } else if a.kind in {CHECK, CALL} {
      BracketReadBack(n, a);
      assert ActivityOfLine(line) == (n, a.expression);
    } else {
      ShapeReadBack(n, a);
      assert ActivityOfLine(line) == (n, "");
    }
  }

  /** A name that does not start with PARAMS has another kind prefix. */
  lemma PrefixNotParams(n: string)
    requires !StartsWith(n, "PARAMS")
    ensures Reader.KindPrefix(n) != "PARAMS"
  {
    var pos := Find(n, "_");
    if pos > 0 {
      assert n[..pos] <= n;
    }
  }

  /** A line that is no comment and holds no arrow is read as an activity. */
  lemma NotAnEdge(wf: Workflows.Workflow, line: string)
    requires !StartsWith(line, "%%") && Find(line, "-->") == -1
    ensures Reader.FlowchartLineRead(wf, line) == Reader.ActivityRead(wf, line)
  {
  }

  /** _parse_activity on a line that reads as the name `n` and the
      expression `x`, the name being no PARAMS line. */
  lemma WrittenNodeRead(wf: Workflows.Workflow, line: string, n: string, x: string)
    requires ActivityOfLine(line) == (n, x) && Reader.KindPrefix(n) != "PARAMS"
    ensures var kind := ParseKind(Reader.KindPrefix(n));
            Reader.ActivityRead(wf, line)
            == if n in wf.activities then
                 Ok(wf.(activities := wf.activities[n := wf.activities[n].(expression := if x == [] then wf.activities[n].expression else x)]))
               else if kind.None? then Err(ValueError(Reader.PrefixError(Reader.KindPrefix(n))))
               else Ok(wf.(activities := wf.activities[n := NewActivity(kind.value, n, x)]))
  {
    if n in wf.activities && x == [] {
      assert wf.activities[n := wf.activities[n].(expression := wf.activities[n].expression)] == wf.activities;
    }
  }

  /** An expression holding "-->" breaks the node line: the line written
      for it is taken for an edge, as "SET_A[Set: x-->y]" is. */
  lemma ArrowExpressionReadAsEdge(n: string, a: Activity)
    requires IsName(n) && n != [] && a.kind in {SET, ASSIGN, PROMPT, EXECUTE, CHECK, CALL}
    requires Contains(a.expression, "-->")
    ensures var text := LineText(Node(n, Caption(a)));
            |text| > 0 && Find(Strip(text[..|text| - 1]), "-->") > 0
  {
    var e := a.expression;
    var k := KindValue(a.kind);
    match a.kind
    case EXECUTE => FramedNodeReadAsEdge(n, Caption(a), "[\"" + k + ": ", e, "\"]");
    case CHECK => FramedNodeReadAsEdge(n, Caption(a), "{", e, "}");
    case CALL => FramedNodeReadAsEdge(n, Caption(a), "[[", e, "]]");
    case SET => FramedNodeReadAsEdge(n, Caption(a), "[" + k + ": ", e, "]");
    case ASSIGN => FramedNodeReadAsEdge(n, Caption(a), "[" + k + ": ", e, "]");
    case PROMPT => FramedNodeReadAsEdge(n, Caption(a), "[" + k + ": ", e, "]");
  }

  lemma FramedNodeReadAsEdge(n: string, c: string, head: string, e: string, tail: string)
    requires IsName(n) && n != [] && c == head + e + tail && Contains(e, "-->")
    requires tail != [] && !IsSpace(tail[|tail| - 1])
    ensures var text := LineText(Node(n, c));
            |text| > 0 && Find(Strip(text[..|text| - 1]), "-->") > 0
  {
    var text := LineText(Node(n, c));
    var line := n + c;
    assert text[..|text| - 1] == "  " + line by {
      assert text == "  " + line + "\n";
    }
    assert line[0] == n[0] && IsNameChar(n[0]);
    assert line[|line| - 1] == tail[|tail| - 1];
    StripIndent(line);
    ArrowInFrame(head, e, tail);
    ArrowAfterName(n, c);
  }

  /** An arrow in the expression is an arrow in the caption. */
  lemma ArrowInFrame(head: string, e: string, tail: string)
    requires Contains(e, "-->")
    ensures Contains(head + e + tail, "-->")
  {
    var s := head + e + tail;
    var j := Find(e, "-->");
    assert s[|head| + j..|head| + j + 3] == e[j..j + 3];
    assert OccursAt(s, "-->", |head| + j);
  }

  /** An arrow after a name is found after index 0. */
  lemma ArrowAfterName(n: string, c: string)
    requires IsName(n) && n != [] && Contains(c, "-->")
    ensures Find(n + c, "-->") > 0
  {
    var s := n + c;
    var j := Find(c, "-->");
    assert s[|n| + j..|n| + j + 3] == c[j..j + 3];
    assert OccursAt(s, "-->", |n| + j);
    assert s[0] == n[0] && IsNameChar(n[0]);
    assert s[0..3][0] == s[0];
    assert !OccursAt(s, "-->", 0);
  }

  // ---------------------------------------------------------------------
  // The writer object

  class ActivityWriter {
    /** The file the lines are written to. */
    const file: TextFile
    /** The names of the activities whose node line is written. */
    var visited: set<string>

    constructor(file: TextFile)
      ensures this.file == file && visited == {}
    {
      this.file := file;
      visited := {};
    }

    /** accept(writer) on the activity called `name`, that is _write with
        its caption. */
    method Write(g: map<string, Activity>, name: string)
      modifies this, file
      ensures file.text == old(file.text) + Text(Traverse(g, old(visited), name).0)
      ensures visited == Traverse(g, old(visited), name).1
      decreases g.Keys - visited, 0
    {
      if name !in g || name in visited {
        assert file.text + Text([]) == file.text;
        return;
      }
      ghost var v0 := visited;
      ghost var o := file.text;
      var a := g[name];
      file.Write(LineText(Node(name, Caption(a))));
      visited := visited + {name};
      WriteSuccessor(g, name, a.next, NextLabel(a.kind));
      ghost var s1 := Successor(g, v0 + {name}, name, a.next, NextLabel(a.kind));
      WriteSuccessor(g, name, a.other, OtherLabel(a.kind));
      ghost var s2 := Successor(g, s1.1, name, a.other, OtherLabel(a.kind));
      TraverseText(g, v0, name);
      AppendAssoc3(o, LineText(Node(name, Caption(a))), Text(s1.0), Text(s2.0));
    }

    /** The flow to one successor in _write: the edge line, then accept on
        the successor. */
    method WriteSuccessor(g: map<string, Activity>, from: string, to: Option<string>, tag: string)
      modifies this, file
      ensures file.text == old(file.text) + Text(Successor(g, old(visited), from, to, tag).0)
      ensures visited == Successor(g, old(visited), from, to, tag).1
      decreases g.Keys - visited, 1
    {
      if to.None? {
        assert file.text + Text([]) == file.text;
        return;
      }
      ghost var v0 := visited;
      ghost var o := file.text;
      file.Write(LineText(Edge(from, tag, to.value)));
      Write(g, to.value);
      SuccessorText(g, v0, from, to, tag);
      AppendAssoc(o, LineText(Edge(from, tag, to.value)), Text(Traverse(g, v0, to.value).0));
    }
  }

  /** The text _write produces for a new activity: its node line, then the
      text for `next`, then the text for `other`. */
  lemma TraverseText(g: map<string, Activity>, visited: set<string>, name: string)
    requires name in g && name !in visited
    ensures var a := g[name];
            var s1 := Successor(g, visited + {name}, name, a.next, NextLabel(a.kind));
            var s2 := Successor(g, s1.1, name, a.other, OtherLabel(a.kind));
            Text(Traverse(g, visited, name).0) == LineText(Node(name, Caption(a))) + Text(s1.0) + Text(s2.0)
            && Traverse(g, visited, name).1 == s2.1
  {
    var a := g[name];
    var s1 := Successor(g, visited + {name}, name, a.next, NextLabel(a.kind));
    var s2 := Successor(g, s1.1, name, a.other, OtherLabel(a.kind));
    TextVisit(Node(name, Caption(a)), s1.0, s2.0);
  }

  /** The text for a present successor: the edge line, then the text
      _write produces from the successor. */
  lemma SuccessorText(g: map<string, Activity>, visited: set<string>, from: string, to: Option<string>, tag: string)
    requires to.Some?
    ensures var t := Traverse(g, visited, to.value);
            Text(Successor(g, visited, from, to, tag).0) == LineText(Edge(from, tag, to.value)) + Text(t.0)
            && Successor(g, visited, from, to, tag).1 == t.1
  {
    var t := Traverse(g, visited, to.value);
    TextVisit(Edge(from, tag, to.value), t.0, []);
    assert [Edge(from, tag, to.value)] + t.0 + [] == [Edge(from, tag, to.value)] + t.0;
    assert Text([]) == "";
  }

  /** The text of a line followed by two runs of lines is the text of its
      parts, in order. */
  lemma TextVisit(l: Line, a: seq<Line>, b: seq<Line>)
    ensures Text([l] + a + b) == LineText(l) + Text(a) + Text(b)
  {
    TextAppend([l] + a, b);
    TextAppend([l], a);
    assert Text([l]) == LineText(l) + Text([]);
  }
}
