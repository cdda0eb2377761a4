/**
 * Hand-written scanners for the regular expressions the workflow reader
 * applies to flowchart lines.  Flowchart lines reach them stripped, so they
 * hold no line break and "." matches every character.  Activity names are
 * runs of upper-case ASCII letters and "_".
 *
 *   activity:  (\|.*\|)?\s*([A-Z_]*)[@\{\[]?(.*)?[\}\]]?   (group 2, group 3)
 *   edge left: ([A-Z_]*)[@\{\[]                             (group 1)
 *   edge right:(\|.*\|)?\s*\s*([A-Z_]*)[@\{\[]?             (group 1, group 2)
 *   params:    "(.*)"                                      (group 1)
 *
 * Each pattern is searched for with re.search.  The first two patterns
 * always match at index 0, since everything in them is optional; greedy
 * matching then fixes each group as computed below.
 */
module ReaderScan {
  import opened PyStrings

  /** [A-Z_] */
  predicate IsNameChar(c: char) {
    ('A' <= c <= 'Z') || c == '_'
  }

  /** [@\{\[] */
  predicate IsOpenBracket(c: char) {
    c == '@' || c == '{' || c == '['
  }

  /** The last index of c in s, or -1. */
  function LastIndex(s: string, c: char): (k: int)
    ensures -1 <= k < |s|
    ensures k >= 0 ==> s[k] == c
    ensures forall j :: k < j < |s| ==> s[j] != c
  {
    if s == [] then -1
    else if s[|s| - 1] == c then |s| - 1
    else LastIndex(s[..|s| - 1], c)
  }

  /** Where the optional group (\|.*\|) ends: after the last "|" when the
      text starts with "|" and has another one; 0 when the group does not
      take part. */
  function BarEnd(s: string): (e: nat)
    ensures e <= |s|
    ensures e > 0 ==> e >= 2 && s[0] == '|' && s[e - 1] == '|'
                      && forall j :: e <= j < |s| ==> s[j] != '|'
    ensures e == 0 ==> s == [] || s[0] != '|' || forall j :: 1 <= j < |s| ==> s[j] != '|'
  {
    var k := LastIndex(s, '|');
    if |s| > 0 && s[0] == '|' && k >= 1 then k + 1 else 0
  }

  /** The end of the run of whitespace (\s*) from `from`. */
  function SpaceEnd(s: string, from: nat): (q: nat)
    requires from <= |s|
    ensures from <= q <= |s|
    ensures forall k :: from <= k < q ==> IsSpace(s[k])
    ensures q < |s| ==> !IsSpace(s[q])
    decreases |s| - from
  {
    if from < |s| && IsSpace(s[from]) then SpaceEnd(s, from + 1) else from
  }

  /** The end of the run of name characters ([A-Z_]*) from `from`. */
  function NameEnd(s: string, from: nat): (q: nat)
    requires from <= |s|
    ensures from <= q <= |s|
    ensures forall k :: from <= k < q ==> IsNameChar(s[k])
    ensures q < |s| ==> !IsNameChar(s[q])
    decreases |s| - from
  {
    if from < |s| && IsNameChar(s[from]) then NameEnd(s, from + 1) else from
  }

  /** Groups 2 and 3 of the activity pattern: the name after an optional
      |label| and spaces, and everything after the name and one optional
      opening bracket. */
  function ActivityGroups(line: string): (string, string) {
    var p := SpaceEnd(line, BarEnd(line));
    var q := NameEnd(line, p);
    var r := if q < |line| && IsOpenBracket(line[q]) then q + 1 else q;
    (line[p..q], line[r..])
  }

  /** s[1:-1] */
  function Inner(s: string): string {
    if |s| >= 2 then s[1..|s| - 1] else ""
  }

  /** Removes one pair of enclosing characters, when present. */
  function Unwrap(s: string, open: char, close: char): string {
    if |s| > 0 && s[0] == open && s[|s| - 1] == close then Inner(s) else s
  }

  /** The expression of a parsed activity: without one closing bracket,
      without enclosing (), [] and "" (in that order), emptied when it is a
      mermaid {...} shape (unless the activity is PARAMS), and cut after a
      caption prefix "...:". */
  function ActivityExpr(name: string, raw: string): string {
    CaptionCut(ShapeCleared(name, Unwrapped(CloseDropped(raw))))
  }

  /** Without one closing "]" or "}". */
  function CloseDropped(raw: string): string {
    if |raw| > 0 && (raw[|raw| - 1] == ']' || raw[|raw| - 1] == '}') then raw[..|raw| - 1] else raw
  }

  /** Without enclosing (), [] and "", in that order. */
  function Unwrapped(e: string): string {
    Unwrap(Unwrap(Unwrap(e, '(', ')'), '[', ']'), '"', '"')
  }

  /** Emptied when it is a {...} shape, unless the activity is PARAMS. */
  function ShapeCleared(name: string, e: string): string {
    if |e| > 0 && e[0] == '{' && !StartsWith(name, "PARAMS") then "" else e
  }

  /** Cut after a caption prefix "...:", and stripped then. */
  function CaptionCut(e: string): string {
    var c := Find(e, ":");
    if c > 0 then Strip(e[c + 1..]) else e
  }

  /** The expression of a text that is no {...} shape once unwrapped is its
      unwrapped text, cut after a caption prefix. */
  lemma ExprStages(n: string, raw: string, e1: string, e2: string)
    requires CloseDropped(raw) == e1 && Unwrapped(e1) == e2 && (e2 == [] || e2[0] != '{')
    ensures ActivityExpr(n, raw) == CaptionCut(e2)
  {
    assert ShapeCleared(n, e2) == e2;
  }

  /** The caption prefix ends at the first colon, when that is not the
      first character. */
  lemma CaptionCutAt(e: string, c: nat)
    requires Find(e, ":") == c > 0
    ensures CaptionCut(e) == Strip(e[c + 1..])
  {
  }

  /** The name and expression _parse_activity reads from a line. */
  function ActivityOfLine(line: string): (string, string) {
    var (name, raw) := ActivityGroups(line);
    (name, ActivityExpr(name, raw))
  }

  /** The first index at or after `from` holding an opening bracket, or -1. */
  function FirstBracket(s: string, from: nat): (b: int)
    requires from <= |s|
    ensures b == -1 || from <= b < |s|
    ensures b >= 0 ==> IsOpenBracket(s[b])
    ensures forall k :: from <= k < |s| && (b < 0 || k < b) ==> !IsOpenBracket(s[k])
    decreases |s| - from
  {
    if from == |s| then -1
    else if IsOpenBracket(s[from]) then from
    else FirstBracket(s, from + 1)
  }

  /** The start of the run of name characters that ends at b. */
  function RunStart(s: string, b: nat): (p: nat)
    requires b <= |s|
    ensures p <= b
    ensures forall k :: p <= k < b ==> IsNameChar(s[k])
    ensures p > 0 ==> !IsNameChar(s[p - 1])
  {
    if b > 0 && IsNameChar(s[b - 1]) then RunStart(s, b - 1) else b
  }

  /** The left end of an edge: the name right before the first opening
      bracket, or the whole text when there is none. */
  function EdgeLeft(left: string): string {
    var b := FirstBracket(left, 0);
    if b < 0 then left else left[RunStart(left, b)..b]
  }

  /** The right end of an edge: the label (between the bars, trimmed, when
      longer than two characters) and the target name. */
  function EdgeRight(right: string): (string, string) {
    var e := BarEnd(right);
    var attr := if e > 2 then Strip(Inner(right[..e])) else right[..e];
    var p := SpaceEnd(right, e);
    (attr, right[p..NameEnd(right, p)])
  }

  /** The text between the first and the last double quote, or the whole
      text when it holds fewer than two. */
  function QuotedBody(s: string): string {
    var a := Find(s, "\"");
    var z := LastIndex(s, '"');
    if a >= 0 && z > a then s[a + 1..z] else s
  }

  // ---------------------------------------------------------------------

  /** A run of name characters ends where the name does. */
  lemma {:induction false} NameEndAt(s: string, from: nat, q: nat)
    requires from <= q <= |s|
    requires forall k :: from <= k < q ==> IsNameChar(s[k])
    requires q < |s| ==> !IsNameChar(s[q])
    ensures NameEnd(s, from) == q
    decreases q - from
  {
    if from < q {
      NameEndAt(s, from + 1, q);
    }
  }

  /** A run of spaces ends where the spaces do. */
  lemma {:induction false} SpaceEndAt(s: string, from: nat, q: nat)
    requires from <= q <= |s|
    requires forall k :: from <= k < q ==> IsSpace(s[k])
    requires q < |s| ==> !IsSpace(s[q])
    ensures SpaceEnd(s, from) == q
    decreases q - from
  {
    if from < q {
      SpaceEndAt(s, from + 1, q);
    }
  }

  predicate IsName(n: string) {
    forall k :: 0 <= k < |n| ==> IsNameChar(n[k])
  }

  /** A bare name reads as that name with an empty expression. */
  lemma BareName(n: string)
    requires IsName(n)
    ensures ActivityOfLine(n) == (n, "")
    ensures EdgeLeft(n) == n
  {
    assert BarEnd(n) == 0 by {
      if n != [] {
        assert !IsSpace(n[0]) && n[0] != '|';
      }
    }
    assert ActivityGroups(n) == (n, "") by {
      SpaceEndAt(n, 0, 0);
      NameEndAt(n, 0, |n|);
      assert n[|n|..] == [] && n[0..|n|] == n;
    }
    assert ActivityExpr(n, "") == "" by {
      assert CaptionCut("") == "" by {
        assert Find("", ":") == -1;
      }
    }
    assert FirstBracket(n, 0) == -1;
  }

  /** Leading whitespace does not survive a strip. */
  lemma StripLeadingSpace(c: char, s: string)
    requires IsSpace(c)
    ensures Strip([c] + s) == Strip(s)
  {
    assert ([c] + s)[1..] == s;
  }

  /** A name directly followed by an opening bracket: the name is group 2
      and the text after the bracket group 3. */
  lemma NameThenBracket(n: string, bracket: char, rest: string)
    requires IsName(n) && n != [] && IsOpenBracket(bracket)
    ensures ActivityGroups(n + [bracket] + rest) == (n, rest)
  {
    var line := n + [bracket] + rest;
    assert line[0] == n[0] && !IsSpace(line[0]) && line[0] != '|';
    assert BarEnd(line) == 0;
    SpaceEndAt(line, 0, 0);
    assert line[|n|] == bracket;
    NameEndAt(line, 0, |n|);
    assert line[|n| + 1..] == rest;
    assert line[..|n|] == n;
  }

  /** The caption "<Kind>: <expr>]" yields the trimmed expression. */
  lemma CaptionExpr(n: string, kind: string, expr: string)
    requires kind != [] && forall k :: 0 <= k < |kind| ==> 'A' <= kind[k] <= 'Z' || 'a' <= kind[k] <= 'z'
    ensures ActivityExpr(n, kind + ": " + expr + "]") == Strip(expr)
  {
    var e1 := kind + ": " + expr;
    CaptionUnwrapped(kind, expr);
    CaptionColon(kind, expr);
    BracketedCaption(n, e1);
  }

  /** A text closed by "]" that is not unwrapped, is no shape and holds a
      colon after its first character keeps what follows that colon. */
  lemma BracketedCaption(n: string, e1: string)
    requires e1 != [] && e1[0] != '{' && Unwrapped(e1) == e1
    requires Find(e1, ":") > 0
    ensures ActivityExpr(n, e1 + "]") == Strip(e1[Find(e1, ":") + 1..])
  {
    var raw := e1 + "]";
    assert CloseDropped(raw) == e1 by {
      assert raw[|raw| - 1] == ']' && raw[..|raw| - 1] == e1;
    }
    ExprStages(n, raw, e1, e1);
    CaptionCutAt(e1, Find(e1, ":"));
  }

  /** A caption starting with a letter is not unwrapped and is no {...}
      shape. */
  lemma CaptionUnwrapped(kind: string, expr: string)
    requires kind != [] && ('A' <= kind[0] <= 'Z' || 'a' <= kind[0] <= 'z')
    ensures var e1 := kind + ": " + expr;
            Unwrapped(e1) == e1 && e1[0] != '{'
  {
    assert (kind + ": " + expr)[0] == kind[0];
  }

  /** The first colon of "<Kind>: <expr>" follows the kind, and what comes
      after it strips to the stripped expression. */
  lemma CaptionColon(kind: string, expr: string)
    requires forall k :: 0 <= k < |kind| ==> 'A' <= kind[k] <= 'Z' || 'a' <= kind[k] <= 'z'
    ensures var e1 := kind + ": " + expr;
            Find(e1, ":") == |kind| && Strip(e1[|kind| + 1..]) == Strip(expr)
  {
    var e1 := kind + ": " + expr;
    assert e1 == kind + [':'] + (" " + expr);
    assert ':' !in kind;
    FindCharAt(kind, ':', " " + expr);
    assert e1[|kind| + 1..] == [' '] + expr;
    StripLeadingSpace(' ', expr);
  }

  /** The node line the activity writer emits for SET, ASSIGN and PROMPT,
      "<name>[<Kind>: <expr>]", reads back as the name and the trimmed
      expression. */
  lemma CaptionedNode(n: string, kind: string, expr: string)
    requires IsName(n) && n != []
    requires kind != [] && forall k :: 0 <= k < |kind| ==> 'A' <= kind[k] <= 'Z' || 'a' <= kind[k] <= 'z'
    ensures ActivityOfLine(n + "[" + kind + ": " + expr + "]") == (n, Strip(expr))
  {
    assert n + "[" + kind + ": " + expr + "]" == n + ['['] + (kind + ": " + expr + "]");
    NameThenBracket(n, '[', kind + ": " + expr + "]");
    CaptionExpr(n, kind, expr);
  }

  /** A label that can stand between the bars of an edge: non-empty,
      without "|" and without whitespace at either end. */
  predicate IsLabel(tag: string) {
    |tag| > 0 && '|' !in tag && !IsSpace(tag[0]) && !IsSpace(tag[|tag| - 1])
  }

  /** Where the label group of "|<LABEL>| <name>" ends. */
  lemma LabelEnd(tag: string, n: string)
    requires IsLabel(tag) && IsName(n)
    ensures BarEnd("|" + tag + "| " + n) == |tag| + 2
    ensures SpaceEnd("|" + tag + "| " + n, |tag| + 2) == |tag| + 3
    ensures NameEnd("|" + tag + "| " + n, |tag| + 3) == |tag| + 3 + |n|
    ensures ("|" + tag + "| " + n)[|tag| + 3..] == n
  {
    var right := "|" + tag + "| " + n;
    var e := |tag| + 2;
    assert right[e + 1..] == n;
    LabelBarEnd(tag, n);
    LabelSpaceEnd(tag, n);
    NameEndAt(right, e + 1, |right|);
  }

  /** The bar group of "|<LABEL>| <name>" closes at the second bar. */
  lemma LabelBarEnd(tag: string, n: string)
    requires IsLabel(tag) && IsName(n)
    ensures BarEnd("|" + tag + "| " + n) == |tag| + 2
  {
    var right := "|" + tag + "| " + n;
    var e := |tag| + 2;
    assert right[0] == '|' && right[e - 1] == '|';
    forall j | e <= j < |right|
      ensures right[j] != '|'
    {
      if j > e {
        assert right[j] == n[j - e - 1];
      }
    }
    assert LastIndex(right, '|') == e - 1;
  }

  /** One space separates the bar group from the name. */
  lemma LabelSpaceEnd(tag: string, n: string)
    requires IsLabel(tag) && IsName(n)
    ensures SpaceEnd("|" + tag + "| " + n, |tag| + 2) == |tag| + 3
  {
    var right := "|" + tag + "| " + n;
    var e := |tag| + 2;
    assert right[e] == ' ';
    if n != [] {
      assert right[e + 1] == n[0];
    }
    SpaceEndAt(right, e, e + 1);
  }

  /** The edge target the activity writer emits, "|<LABEL>| <name>", reads
      back as that label and name. */
  lemma LabelledTarget(tag: string, n: string)
    requires IsLabel(tag) && IsName(n)
    ensures EdgeRight("|" + tag + "| " + n) == (tag, n)
  {
    var right := "|" + tag + "| " + n;
    var e := |tag| + 2;
    LabelEnd(tag, n);
    assert Strip(Inner(right[..e])) == tag by {
      assert right[..e] == "|" + tag + "|";
      assert Inner(right[..e]) == tag;
      StripTrimmed(tag);
    }
    assert right[e + 1..|right|] == n by {
      assert right[e + 1..|right|] == right[e + 1..];
    }
  }

  /** The same text read as an activity: that name, no expression. */
  lemma LabelledNode(tag: string, n: string)
    requires IsLabel(tag) && IsName(n)
    ensures ActivityOfLine("|" + tag + "| " + n) == (n, "")
  {
    var right := "|" + tag + "| " + n;
    LabelEnd(tag, n);
    assert right[|right|..] == [];
    assert right[|tag| + 3..|right|] == n;
    assert ActivityGroups(right) == (n, "");
    assert Find("", ":") == -1;
  }

  /** An unlabelled edge target is just the name. */
  lemma PlainTarget(n: string)
    requires IsName(n)
    ensures EdgeRight(n) == ("", n)
  {
    if n != [] {
      assert !IsSpace(n[0]) && n[0] != '|';
    }
    assert BarEnd(n) == 0;
    assert n[..0] == "";
    SpaceEndAt(n, 0, 0);
    NameEndAt(n, 0, |n|);
    assert n[0..|n|] == n;
  }
}
