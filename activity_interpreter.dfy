/**
 * The per-activity semantics of a workflow run.  Each visit reads and
 * updates the context (status, result, variables) and the interpreter's own
 * flags: whether the activity succeeded, whether the run is inside the
 * on_failed handler, whether the workflow ended, and which activity to
 * run next when a handler takes over.
 *
 * The step functions below are the specification; the ActivityInterpreter
 * class at the end performs the same steps by updating its fields and the
 * context in place, and each of its methods is proved to match its step.
 */
module Interpreter {
  import opened Wrappers
  import opened PyStrings
  import opened Dicts
  import opened Workflows
  import opened Contexts
  import Activities
  import Operations
  import Commands
  import CommandParser

  // ---------------------------------------------------------------------
  // Placeholders {{name}}

  /** \w on the ASCII range. */
  predicate IsWordChar(c: char) {
    ('a' <= c <= 'z') || ('A' <= c <= 'Z') || ('0' <= c <= '9') || c == '_'
  }

  /** The end of the run of word characters starting at `from`. */
  function WordEnd(s: string, from: nat): (q: nat)
    requires from <= |s|
    ensures from <= q <= |s|
    ensures forall k :: from <= k < q ==> IsWordChar(s[k])
    ensures q < |s| ==> !IsWordChar(s[q])
    decreases |s| - from
  {
    if from < |s| && IsWordChar(s[from]) then WordEnd(s, from + 1) else from
  }

  /** "{{" starts at index k of s. */
  predicate OpensAt(s: string, k: nat) {
    k + 2 <= |s| && s[k] == '{' && s[k + 1] == '{'
  }

  /** "}}" starts at index k of s. */
  predicate ClosesAt(s: string, k: nat) {
    k + 2 <= |s| && s[k] == '}' && s[k + 1] == '}'
  }

  /** A match of {{\w*}}. */
  predicate IsPlaceholder(m: string) {
    |m| >= 4 && OpensAt(m, 0) && ClosesAt(m, |m| - 2)
    && forall k :: 2 <= k < |m| - 2 ==> IsWordChar(m[k])
  }

  /** The variable name inside a placeholder. */
  function PlaceholderName(m: string): string
    requires IsPlaceholder(m)
  {
    m[2..|m| - 2]
  }

  /** re.findall(r"{{\w*}}", s[from:]): the non-overlapping matches from left
      to right. */
  function Placeholders(s: string, from: nat): (ms: seq<string>)
    requires from <= |s|
    ensures forall i :: 0 <= i < |ms| ==> IsPlaceholder(ms[i])
    decreases |s| - from
  {
    if from + 4 > |s| then []
    else if OpensAt(s, from) then
      var q := WordEnd(s, from + 2);
      if ClosesAt(s, q) then
        var m := s[from..q + 2];
        assert OpensAt(m, 0) && ClosesAt(m, |m| - 2);
        [m] + Placeholders(s, q + 2)
      else Placeholders(s, from + 1)
    else Placeholders(s, from + 1)
  }

  /** What the step functions read besides the machine state: the context's
      workflow, environment, files and command executor, and the two
      functions CHECK needs (regular-expression search and float()). */
  datatype Env = Env(w: Workflow, o: Outside,
                     executor: Option<Commands.Command -> string>,
                     search: (string, string) -> bool,
                     toFloat: string -> Option<Operations.PyFloat>)

  function Resolve(s: State, e: Env, name: string, default: Option<string>): Option<string> {
    Lookup(s, e.w, e.o, name, default)
  }

  /** Replaces each placeholder in turn, all its occurrences at once, by its
      value when the name resolves; unresolved placeholders are kept. */
  function ReplaceEach(s: State, e: Env, content: string, ms: seq<string>): string
    requires forall i :: 0 <= i < |ms| ==> IsPlaceholder(ms[i])
    decreases |ms|
  {
    if ms == [] then content
    else
      var v := Resolve(s, e, PlaceholderName(ms[0]), None);
      var next := if v.Some? then ReplaceAll(content, ms[0], v.value) else content;
      ReplaceEach(s, e, next, ms[1..])
  }

  /** ActivityInterpreter._render_content */
  function Render(s: State, e: Env, content: string): string {
    ReplaceEach(s, e, content, Placeholders(content, 0))
  }

  /** Where the scan at `from` finds its first match, if it finds one there. */
  predicate MatchAt(s: string, from: nat)
    requires from <= |s|
  {
    from + 4 <= |s| && OpensAt(s, from) && ClosesAt(s, WordEnd(s, from + 2))
  }

  lemma ScanStep(s: string, from: nat)
    requires from + 4 <= |s|
    ensures MatchAt(s, from) ==>
              Placeholders(s, from) == [s[from..WordEnd(s, from + 2) + 2]] + Placeholders(s, WordEnd(s, from + 2) + 2)
    ensures !MatchAt(s, from) ==> Placeholders(s, from) == Placeholders(s, from + 1)
  {
  }

  /** Every match the scanner reports is a {{word}} placeholder occurring in
      the text at or after the scan start. */
  lemma PlaceholdersOccur(s: string, from: nat, i: nat)
    requires from <= |s| && i < |Placeholders(s, from)|
    ensures exists k :: from <= k && OccursAt(s, Placeholders(s, from)[i], k)
  {
    var k := PlaceholderPosition(s, from, i);
  }

  /** Where the i-th match of the scan from `from` occurs. */
  lemma {:induction false} PlaceholderPosition(s: string, from: nat, i: nat) returns (k: nat)
    requires from <= |s| && i < |Placeholders(s, from)|
    ensures from <= k && OccursAt(s, Placeholders(s, from)[i], k)
    decreases |s| - from
  {
    assert from + 4 <= |s|;
    if !MatchAt(s, from) {
      ScanStep(s, from);
      k := PlaceholderPosition(s, from + 1, i);
    } else {
      var q := ScanMatch(s, from);
      var m, later := s[from..q + 2], Placeholders(s, q + 2);
      if i == 0 {
        assert Placeholders(s, from)[0] == m && OccursAt(s, m, from);
        k := from;
      } else {
        assert Placeholders(s, from)[i] == later[i - 1];
        k := PlaceholderPosition(s, q + 2, i - 1);
      }
    }
  }

  /** Where the scan at `from` finds a match, the match ends at q + 2 and the
      scan resumes there. */
  lemma ScanMatch(s: string, from: nat) returns (q: nat)
    requires from + 4 <= |s| && MatchAt(s, from)
    ensures from + 2 <= q <= |s| - 2
    ensures Placeholders(s, from) == [s[from..q + 2]] + Placeholders(s, q + 2)
  {
    ScanStep(s, from);
    q := WordEnd(s, from + 2);
  }

  /** Without a "{" there is no placeholder. */
  lemma {:induction false} NoBraceNoPlaceholders(s: string, from: nat)
    requires from <= |s|
    requires '{' !in s
    ensures Placeholders(s, from) == []
    decreases |s| - from
  {
    if from + 4 <= |s| {
      assert s[from] in s;
      NoBraceNoPlaceholders(s, from + 1);
    }
  }

  /** A text without "{" is rendered unchanged. */
  lemma RenderPlain(s: State, e: Env, content: string)
    requires '{' !in content
    ensures Render(s, e, content) == content
  {
    NoBraceNoPlaceholders(content, 0);
  }

  /** Placeholders whose names do not resolve are left as they are. */
  lemma {:induction false} ReplaceEachUnresolved(s: State, e: Env, content: string, ms: seq<string>)
    requires forall i :: 0 <= i < |ms| ==>
               IsPlaceholder(ms[i]) && Resolve(s, e, PlaceholderName(ms[i]), None).None?
    ensures ReplaceEach(s, e, content, ms) == content
    decreases |ms|
  {
    if ms != [] {
      ReplaceEachUnresolved(s, e, content, ms[1..]);
    }
  }

  /** The word run from `from` ends at q when s[from..q] is all word
      characters and s[q] is not one. */
  lemma {:induction false} WordEndAt(s: string, from: nat, q: nat)
    requires from <= q <= |s|
    requires forall k :: from <= k < q ==> IsWordChar(s[k])
    requires q < |s| ==> !IsWordChar(s[q])
    ensures WordEnd(s, from) == q
    decreases q - from
  {
    if from < q {
      WordEndAt(s, from + 1, q);
    }
  }

  /** A text that is one placeholder renders to the value of its name. */
  lemma RenderSinglePlaceholder(s: State, e: Env, name: string, value: string)
    requires forall k :: 0 <= k < |name| ==> IsWordChar(name[k])
    requires Resolve(s, e, name, None) == Some(value)
    ensures Render(s, e, "{{" + name + "}}") == value
  {
    var m := "{{" + name + "}}";
    assert m[2..2 + |name|] == name;
    assert m[0..2] == "{{";
    assert m[2 + |name|] == '}';
    WordEndAt(m, 2, 2 + |name|);
    assert m[2 + |name|..2 + |name| + 2] == "}}";
    assert m[0..2 + |name| + 2] == m;
    assert m[2 + |name|..] == "}}";
    assert Placeholders(m, |m|) == [];
    assert Placeholders(m, 0) == [m];
    assert PlaceholderName(m) == name;
    assert m + "" == m;
    ReplaceLeading(m, "", value);
    assert ReplaceAll(m, m, value) == value + ReplaceAll("", m, value);
    assert ReplaceAll("", m, value) == "";
    assert [m][1..] == [];
    assert ReplaceEach(s, e, m, [m]) == ReplaceEach(s, e, ReplaceAll(m, m, value), []);
  }

  // ---------------------------------------------------------------------
  // The interpreter's state and the steps

  /** The context state and the interpreter's flags. */
  datatype Machine = Machine(ctx: State, succeeded: bool, inOnFailed: bool,
                             ended: bool, next: Option<string>)

  /** The machine after a step, and the exception the step raised, if any. */
  datatype Outcome = Outcome(m: Machine, raised: Option<PyError>)

  /** A handler is taken when it exists and has not run yet. */
  predicate HandlerReady(w: Workflow, h: Option<string>) {
    h.Some? && h.value in w.activities && w.activities[h.value].hits == 0
  }

  /** The common failure of a malformed activity: status FAILED, a
      diagnostic result, outcome false. */
  function Fail(m: Machine, message: string): (m': Machine)
    ensures m'.ctx.status == FAILED && m'.ctx.result == Some(message) && !m'.succeeded
    ensures m'.ctx.variables == m.ctx.variables
    ensures m'.inOnFailed == m.inOnFailed && m'.ended == m.ended && m'.next == m.next
  {
    m.(ctx := m.ctx.(status := FAILED, result := Some(message)), succeeded := false)
  }

  /** visit_start */
  function StartStep(m: Machine): Machine {
    m.(ctx := m.ctx.(status := DOING))
  }

  function SetError(expr: string): string {
    "FAILED  \nSET expression=" + expr + " is not valid!\nSyntax: <variable>=<value>"
  }

  /** visit_set: "<name>=<value>"; the pieces after the first "=" are
      re-joined with single spaces, resolved with themselves as default,
      rendered and stored. */
  function SetStep(m: Machine, e: Env, expr: string): Machine {
    var parts := Split(expr, "=");
    if |parts| < 2 then Fail(m, SetError(expr))
    else
      var raw := Join(" ", parts[1..]);
      var value := Render(m.ctx, e, Resolve(m.ctx, e, raw, Some(raw)).GetOr(raw));
      m.(ctx := Assign(m.ctx, parts[0], value), succeeded := true)
  }

  const AssignError: string := "FAILED  \nASSIGN Value is not set!"

  /** The TypeError re.findall raises when handed None. */
  const NoneNotString: PyError := TypeError("expected string or bytes-like object, got 'NoneType'")

  /** visit_assign as written: an unresolved expression reaches
      _render_content as None, which raises before the failure branch. */
  function AssignStepAsWritten(m: Machine, e: Env, expr: string): Outcome {
    var content := Resolve(m.ctx, e, expr, None);
    if content.None? then Outcome(m, Some(NoneNotString))
    else Outcome(m.(ctx := m.ctx.(result := Some(Render(m.ctx, e, content.value))), succeeded := true), None)
  }

  /** visit_assign as its failure branch intends: an unresolved expression
      fails the activity. */
  function AssignStep(m: Machine, e: Env, expr: string): Machine {
    var content := Resolve(m.ctx, e, expr, None);
    if content.None? then Fail(m, AssignError)
    else m.(ctx := m.ctx.(result := Some(Render(m.ctx, e, content.value))), succeeded := true)
  }

  function CheckError(expr: string): string {
    "CHECK expression " + expr + " is not valid!\nSyntax: <variable> <operation> <expected>"
  }

  /** visit_check: "<variable> <operation> <expected...>" */
  function CheckStep(m: Machine, e: Env, expr: string): Machine {
    var parts := Split(expr, " ");
    if |parts| < 3 then Fail(m, CheckError(expr))
    else
      var left := Resolve(m.ctx, e, parts[0], None);
      var op := Operations.ParseOperation(parts[1]);
      var raw := Join(" ", parts[2..]);
      var right := Resolve(m.ctx, e, raw, Some(raw));
      if left.None? || op.None? || right.None? then Fail(m, CheckError(expr))
      else m.(succeeded := Operations.Interpret(op.value, left.value, right.value, e.search, e.toFloat))
  }

  /** "$ <line>\n" for each line of a command. */
  function DollarLines(lines: seq<string>): string {
    if lines == [] then ""
    else DollarLines(lines[..|lines| - 1]) + "$ " + lines[|lines| - 1] + "\n"
  }

  /** The lines of one command followed by its output and a newline, or by
      a bare newline when the output is empty. */
  function CommandText(c: Commands.Command, output: string): string {
    DollarLines(c.cmds) + (if |output| > 0 then output + "\n" else "\n")
  }

  /** The result EXECUTE builds from running the commands in order. */
  function ExecText(cs: seq<Commands.Command>, run: Commands.Command -> string): string {
    if cs == [] then ""
    else ExecText(cs[..|cs| - 1], run) + CommandText(cs[|cs| - 1], run(cs[|cs| - 1]))
  }

  const ExecutorError: string := "FAILED  \nCommandExecutor is not set!"

  /** The commands EXECUTE runs: one shell command holding the rendered
      expression, or else the commands found in the current result (None
      when there is no result to parse). */
  function ExecCommands(m: Machine, e: Env, expr: string): Option<seq<Commands.Command>> {
    if |expr| > 0 then Some([Commands.NewCommand(Commands.Shell, [Render(m.ctx, e, expr)])])
    else if m.ctx.result.None? then None
    else Some(CommandParser.ParsedCommands(m.ctx.result.value))
  }

  /** The AttributeError of parsing a missing result. */
  const NoResultToParse: PyError := AttributeError("'NoneType' object has no attribute 'splitlines'")

  /** The commands of visit_execute run one after another: their texts
      become the result and the activity succeeds.  Parsing a missing result
      raises. */
  function ExecuteBody(m: Machine, e: Env, expr: string): Outcome
    requires e.executor.Some?
  {
    var cs := ExecCommands(m, e, expr);
    if cs.None? then Outcome(m, Some(NoResultToParse))
    else Outcome(m.(ctx := m.ctx.(result := Some(ExecText(cs.value, e.executor.value))), succeeded := true), None)
  }

  /** The TypeError of len(None) in trunc_right. */
  const NoneHasNoLen: PyError := TypeError("object of type 'NoneType' has no len()")

  /** visit_execute as written: the first log line takes trunc_right of the
      result, which raises on a missing result before anything changes;
      without an executor it sets FAILED and then calls the result as a
      function, which raises. */
  function ExecuteStepAsWritten(m: Machine, e: Env, expr: string): Outcome {
    if m.ctx.result.None? then Outcome(m, Some(NoneHasNoLen))
    else if e.executor.None? then
      Outcome(m.(ctx := m.ctx.(status := FAILED)), Some(TypeError("'str' object is not callable")))
    else ExecuteBody(m, e, expr)
  }

  /** visit_execute as intended: logging never raises, and without an
      executor the activity fails with the diagnostic the source builds. */
  function ExecuteStep(m: Machine, e: Env, expr: string): Outcome {
    if e.executor.None? then Outcome(Fail(m, ExecutorError), None)
    else ExecuteBody(m, e, expr)
  }

  /** visit_success (and success()) */
  function SuccessStep(m: Machine, e: Env): Machine {
    if HandlerReady(e.w, e.w.onSuccess) then m.(next := e.w.onSuccess, ended := false)
    else m.(ctx := m.ctx.(status := SUCCESS), ended := true)
  }

  /** visit_failed */
  function FailedStep(m: Machine, e: Env): Machine {
    if HandlerReady(e.w, e.w.onFailed) then m.(next := e.w.onFailed, inOnFailed := true, ended := false)
    else m.(ctx := m.ctx.(status := FAILED), ended := true)
  }

  /** failed(result): the machine afterwards and the returned flag. */
  function FailedCall(m: Machine, e: Env, r: string): (Machine, bool) {
    if HandlerReady(e.w, e.w.onFailed) then
      var m1 := if |r| > 0 then m.(ctx := m.ctx.(result := Some(r), status := FAILED)) else m;
      (m1.(next := e.w.onFailed, inOnFailed := true), false)
    else
      var prev := m.ctx.result;
      var res :=
        if prev.None? || |prev.value| == 0 then (if |r| > 0 then Some(r) else prev)
        else if |r| > 0 then Some(r + "  \n" + prev.value)
        else prev;
      (m.(ctx := m.ctx.(result := res, status := FAILED)), true)
  }

  /** visit_on and visit_call: the outcome is success and nothing else changes. */
  function SucceedStep(m: Machine): Machine {
    m.(succeeded := true)
  }

  /** The kinds this model runs: PROMPT (an AI agent) and ASK (the console)
      are outside it. */
  predicate Interpretable(k: Activities.Kind) {
    !k.PROMPT? && !k.ASK?
  }

  /** Activity.accept(interpreter): the visit matching the kind. */
  function Step(m: Machine, e: Env, a: Activities.Activity): Outcome
    requires Interpretable(a.kind)
  {
    match a.kind
    case START => Outcome(StartStep(m), None)
    case SET => Outcome(SetStep(m, e, a.expression), None)
    case ASSIGN => Outcome(AssignStep(m, e, a.expression), None)
    case CHECK => Outcome(CheckStep(m, e, a.expression), None)
    case EXECUTE => ExecuteStep(m, e, a.expression)
    case CALL => Outcome(SucceedStep(m), None)
    case SUCCESS => Outcome(SuccessStep(m, e), None)
    case FAILED => Outcome(FailedStep(m, e), None)
    case ON => Outcome(SucceedStep(m), None)
  }

  // ---------------------------------------------------------------------
  // Properties of the steps

  /** A SET expression without "=" fails with the syntax diagnostic. */
  lemma SetWithoutEquals(m: Machine, e: Env, expr: string)
    requires '=' !in expr
    ensures SetStep(m, e, expr) == Fail(m, SetError(expr))
  {
    FindCharAbsent(expr, '=');
  }

  /** SET "<name>=<raw>" stores the resolved, rendered raw text under name,
      so that reading name back gives it (unless it is a "file:" reference),
      and every other name reads as before. */
  lemma SetThenGet(m: Machine, e: Env, name: string, raw: string, other: string, d: Option<string>)
    requires IsVariableName(name) && '=' !in name && '=' !in raw
    ensures var value := Render(m.ctx, e, Resolve(m.ctx, e, raw, Some(raw)).GetOr(raw));
            var m' := SetStep(m, e, name + "=" + raw);
            m'.succeeded
            && (!StartsWith(value, FilePrefix) ==> Resolve(m'.ctx, e, name, d) == Some(value))
            && (other != name ==> Resolve(m'.ctx, e, other, d) == Resolve(m.ctx, e, other, d))
  {
    var expr := name + "=" + raw;
    FindCharAt(name, '=', raw);
    assert expr[..|name|] == name && expr[|name| + 1..] == raw;
    FindCharAbsent(raw, '=');
    assert Split(expr, "=") == [name, raw];
    assert Split(expr, "=")[1..] == [raw];
    var value := Render(m.ctx, e, Resolve(m.ctx, e, raw, Some(raw)).GetOr(raw));
    assert SetStep(m, e, expr) == m.(ctx := Assign(m.ctx, name, value), succeeded := true);
    GetAfterSet(m.ctx, e.w, e.o, name, value, other, d);
  }

  /** SET foo='bar' makes foo read as bar. */
  lemma SetQuotedExample(m: Machine, e: Env)
    ensures Resolve(SetStep(m, e, "foo='bar'").ctx, e, "foo", None) == Some("bar")
  {
    assert "foo='bar'" == "foo" + "=" + "'bar'";
    assert Quoted("'bar'") && Unquote("'bar'") == "bar";
    assert Resolve(m.ctx, e, "'bar'", Some("'bar'")) == Some("bar");
    RenderPlain(m.ctx, e, "bar");
    assert !StartsWith("bar", FilePrefix);
    assert !Quoted("foo") && "foo"[..0] != FilePrefix;
    SetThenGet(m, e, "foo", "'bar'", "foo", None);
  }

  /** As written, ASSIGN of an expression that does not resolve raises a
      TypeError instead of failing the activity, and leaves the machine
      unchanged; the intended step fails it with a diagnostic. */
  lemma AssignUnresolvedRaises(m: Machine, e: Env, expr: string)
    requires Resolve(m.ctx, e, expr, None).None?
    ensures AssignStepAsWritten(m, e, expr) == Outcome(m, Some(NoneNotString))
    ensures AssignStep(m, e, expr) == Fail(m, AssignError)
  {
  }

  /** ASSIGN of the empty expression shows the discrepancy: the name ""
      never resolves. */
  lemma AssignEmptyExpression(m: Machine, e: Env)
    ensures AssignStepAsWritten(m, e, "").raised == Some(NoneNotString)
    ensures AssignStep(m, e, "").ctx.status == FAILED && !AssignStep(m, e, "").succeeded
  {
  }

  /** ASSIGN 'hello' makes RESULT read as hello. */
  lemma AssignQuotedExample(m: Machine, e: Env)
    ensures Resolve(AssignStep(m, e, "'hello'").ctx, e, "RESULT", None) == Some("hello")
    ensures AssignStep(m, e, "'hello'").succeeded
  {
    assert Quoted("'hello'") && Unquote("'hello'") == "hello";
    RenderPlain(m.ctx, e, "hello");
  }

  /** A CHECK expression with fewer than two spaces fails. */
  lemma CheckTooShort(m: Machine, e: Env, expr: string)
    requires |Split(expr, " ")| < 3
    ensures CheckStep(m, e, expr) == Fail(m, CheckError(expr))
  {
  }

  /** Three space-free words joined by single spaces split back into them. */
  lemma SplitThreeWords(a: string, b: string, c: string)
    requires ' ' !in a && ' ' !in b && ' ' !in c
    ensures Split(a + " " + b + " " + c, " ") == [a, b, c]
  {
    var expr := a + " " + b + " " + c;
    var tail := b + " " + c;
    assert expr == a + [' '] + tail;
    FindCharAt(a, ' ', tail);
    assert expr[..|a|] == a && expr[|a| + 1..] == tail;
    assert tail == b + [' '] + c;
    FindCharAt(b, ' ', c);
    assert tail[..|b|] == b && tail[|b| + 1..] == c;
    FindCharAbsent(c, ' ');
    assert Split(c, " ") == [c];
    assert Split(tail, " ") == [b, c];
  }

  /** A well-formed CHECK changes only the outcome, which is the operator
      applied to the resolved operands. */
  lemma CheckOutcome(m: Machine, e: Env, left: string, op: string, right: string)
    requires ' ' !in left && ' ' !in op && ' ' !in right
    requires Resolve(m.ctx, e, left, None).Some? && Operations.ParseOperation(op).Some?
    ensures var m' := CheckStep(m, e, left + " " + op + " " + right);
            m'.ctx == m.ctx && m'.ended == m.ended && m'.next == m.next
            && m'.succeeded == Operations.Interpret(Operations.ParseOperation(op).value,
                                 Resolve(m.ctx, e, left, None).value,
                                 Resolve(m.ctx, e, right, Some(right)).value, e.search, e.toFloat)
  {
    var expr := left + " " + op + " " + right;
    var parts := Split(expr, " ");
    assert parts == [left, op, right] by {
      SplitThreeWords(left, op, right);
    }
    assert Join(" ", parts[2..]) == right by {
      assert parts[2..] == [right];
    }
    var l, o, r := Resolve(m.ctx, e, left, None), Operations.ParseOperation(op), Resolve(m.ctx, e, right, Some(right));
    assert l.Some? && o.Some? && r.Some?;
    assert |parts| >= 3 && parts[0] == left && parts[1] == op;
    assert Resolve(m.ctx, e, parts[0], None) == l && Operations.ParseOperation(parts[1]) == o;
    assert Resolve(m.ctx, e, Join(" ", parts[2..]), Some(Join(" ", parts[2..]))) == r;
    assert CheckStep(m, e, expr) == m.(succeeded := Operations.Interpret(o.value, l.value, r.value, e.search, e.toFloat));
  }

  /** EQUALS holds between a one-line text and itself. */
  lemma EqualsItself(x: string, search: (string, string) -> bool, toFloat: string -> Option<Operations.PyFloat>)
    requires '\n' !in x
    ensures Operations.Interpret(Operations.EQUALS, x, x, search, toFloat)
  {
    FindCharAbsent(x, '\n');
    Operations.EqualsFirstLine(x, x, search, toFloat);
  }

  /** An upper-case word has no blank, line feed or quote, and stripping
      leaves it as it is. */
  lemma UpperWord(w: string)
    requires w != [] && forall i :: 0 <= i < |w| ==> 'A' <= w[i] <= 'Z'
    ensures ' ' !in w && '\n' !in w && '\'' !in w && Strip(w) == w
  {
    StripTrimmed(w);
  }

  /** Status names are single upper-case words. */
  lemma StatusNameWord(st: Status)
    ensures ' ' !in StatusName(st) && '\n' !in StatusName(st) && '\'' !in StatusName(st)
    ensures Strip(StatusName(st)) == StatusName(st)
  {
    var n := StatusName(st);
    assert n != [] && forall i :: 0 <= i < |n| ==> 'A' <= n[i] <= 'Z';
    UpperWord(n);
  }

  /** The words of CHECK STATUS == '<name>'. */
  lemma StatusCheckSpelled(name: string)
    ensures "STATUS == '" + name + "'" == "STATUS" + " " + "==" + " " + ("'" + name + "'")
  {
  }

  /** A quoted status name is one word and resolves to the name. */
  lemma QuotedStatusResolves(m: Machine, e: Env, st: Status)
    ensures var quoted := "'" + StatusName(st) + "'";
            ' ' !in quoted && Resolve(m.ctx, e, quoted, Some(quoted)) == Some(StatusName(st))
  {
    var quoted := "'" + StatusName(st) + "'";
    StatusNameWord(st);
    assert Quoted(quoted) && Unquote(quoted) == StatusName(st);
    LookupConstants(m.ctx, e.w, e.o, quoted, Some(quoted));
  }

  /** STATUS resolves to the current status name and == is EQUALS. */
  lemma StatusOperands(m: Machine, e: Env)
    ensures ' ' !in "STATUS" && Resolve(m.ctx, e, "STATUS", None) == Some(StatusName(m.ctx.status))
    ensures ' ' !in "==" && Operations.ParseOperation("==") == Some(Operations.EQUALS)
  {
    assert Upper("==") == "==";
  }

  /** CHECK STATUS == '<name>' compares the current status name with name. */
  lemma CheckStatusStep(m: Machine, e: Env, st: Status)
    ensures CheckStep(m, e, "STATUS == '" + StatusName(st) + "'")
         == m.(succeeded := Operations.Interpret(Operations.EQUALS, StatusName(m.ctx.status),
                                                 StatusName(st), e.search, e.toFloat))
  {
    var quoted := "'" + StatusName(st) + "'";
    StatusCheckSpelled(StatusName(st));
    QuotedStatusResolves(m, e, st);
    StatusOperands(m, e);
    CheckOutcome(m, e, "STATUS", "==", quoted);
  }

  /** Two status names are EQUALS exactly when the statuses are the same. */
  lemma EqualsStatusNames(a: Status, b: Status, search: (string, string) -> bool,
                          toFloat: string -> Option<Operations.PyFloat>)
    ensures Operations.Interpret(Operations.EQUALS, StatusName(a), StatusName(b), search, toFloat) <==> a == b
  {
    StatusNameWord(a);
    StatusNameWord(b);
    FindCharAbsent(StatusName(a), '\n');
    Operations.EqualsFirstLine(StatusName(a), StatusName(b), search, toFloat);
    StatusByNameIff(StatusName(a), a);
    StatusByNameIff(StatusName(a), b);
  }

  /** CHECK STATUS == '<name>' holds exactly when the context is in that
      status, and changes nothing else. */
  lemma CheckStatusIs(m: Machine, e: Env, st: Status)
    ensures CheckStep(m, e, "STATUS == '" + StatusName(st) + "'").succeeded <==> m.ctx.status == st
    ensures CheckStep(m, e, "STATUS == '" + StatusName(st) + "'").ctx == m.ctx
  {
    CheckStatusStep(m, e, st);
    EqualsStatusNames(m.ctx.status, st, e.search, e.toFloat);
  }

  /** Running commands one after another appends their texts. */
  lemma {:induction false} ExecTextAppend(a: seq<Commands.Command>, b: seq<Commands.Command>,
                                          run: Commands.Command -> string)
    ensures ExecText(a + b, run) == ExecText(a, run) + ExecText(b, run)
    decreases |b|
  {
    if b != [] {
      var ab := a + b;
      assert ab[..|ab| - 1] == a + b[..|b| - 1];
      assert ab[|ab| - 1] == b[|b| - 1];
      ExecTextAppend(a, b[..|b| - 1], run);
    } else {
      assert a + b == a;
    }
  }

  /** EXECUTE with an expression runs it as one shell command and the result
      is "$ <command>\n" followed by its output and a newline. */
  lemma ExecuteExpression(m: Machine, e: Env, expr: string)
    requires e.executor.Some? && |expr| > 0
    ensures var c := Commands.NewCommand(Commands.Shell, [Render(m.ctx, e, expr)]);
            var out := e.executor.value(c);
            ExecuteStep(m, e, expr)
              == Outcome(m.(ctx := m.ctx.(result := Some("$ " + Render(m.ctx, e, expr) + "\n"
                                                       + (if |out| > 0 then out + "\n" else "\n"))),
                            succeeded := true), None)
  {
    var line := Render(m.ctx, e, expr);
    var c := Commands.NewCommand(Commands.Shell, [line]);
    assert ExecCommands(m, e, expr) == Some([c]);
    assert c.cmds == [line];
    assert [c][..0] == [];
    assert [line][..0] == [];
    assert DollarLines(c.cmds) == "" + "$ " + line + "\n";
    var out := e.executor.value(c);
    assert ExecText([c], e.executor.value) == "" + CommandText(c, out);
    assert "" + CommandText(c, out) == "$ " + line + "\n" + (if |out| > 0 then out + "\n" else "\n");
  }

  /** Without an executor, the as-written step raises a TypeError after
      setting FAILED and keeps the old result; the intended step records the
      diagnostic as result and fails the activity. */
  lemma ExecuteWithoutExecutor(m: Machine, e: Env, expr: string)
    requires e.executor.None?
    ensures ExecuteStepAsWritten(m, e, expr).raised.Some?
    ensures ExecuteStepAsWritten(m, e, expr).m.ctx.result == m.ctx.result
    ensures ExecuteStepAsWritten(m, e, expr).m.succeeded == m.succeeded
    ensures m.ctx.result.Some? ==> ExecuteStepAsWritten(m, e, expr).m.ctx.status == FAILED
    ensures ExecuteStep(m, e, expr) == Outcome(Fail(m, ExecutorError), None)
  {
  }

  /** As written, EXECUTE on a context whose result was never set (a new
      context starts with None) raises in its first log line, whatever the
      expression and the executor; the intended step runs an expression
      command all the same. */
  lemma ExecuteWithoutResultRaises(m: Machine, e: Env, expr: string)
    requires m.ctx.result.None?
    ensures ExecuteStepAsWritten(m, e, expr) == Outcome(m, Some(NoneHasNoLen))
    ensures e.executor.Some? && |expr| > 0 ==>
              ExecuteStep(m, e, expr).raised.None? && ExecuteStep(m, e, expr).m.succeeded
              && ExecuteStep(m, e, expr).m.ctx.result.Some?
  {
  }

  /** EXECUTE always succeeds when it returns. */
  lemma ExecuteSucceeds(m: Machine, e: Env, expr: string)
    requires e.executor.Some?
    ensures ExecuteStep(m, e, expr).raised.None? ==> ExecuteStep(m, e, expr).m.succeeded
    ensures ExecuteStep(m, e, expr).raised.Some? <==> |expr| == 0 && m.ctx.result.None?
  {
  }

  /** SUCCESS hands over to an unvisited on_success handler without touching
      the status; otherwise it ends the workflow with status SUCCESS. */
  lemma SuccessOutcome(m: Machine, e: Env)
    ensures HandlerReady(e.w, e.w.onSuccess) ==>
              SuccessStep(m, e).ctx == m.ctx && SuccessStep(m, e).next == e.w.onSuccess
              && !SuccessStep(m, e).ended
    ensures !HandlerReady(e.w, e.w.onSuccess) ==>
              SuccessStep(m, e).ctx.status == SUCCESS && SuccessStep(m, e).ended
              && SuccessStep(m, e).ctx.result == m.ctx.result
  {
  }

  /** failed(r) reports whether the workflow finished; when it does, the
      status is FAILED and a previous non-empty result is kept after r. */
  lemma FailedCallOutcome(m: Machine, e: Env, r: string)
    ensures FailedCall(m, e, r).1 <==> !HandlerReady(e.w, e.w.onFailed)
    ensures !FailedCall(m, e, r).1 ==>
              FailedCall(m, e, r).0.next == e.w.onFailed && FailedCall(m, e, r).0.inOnFailed
    ensures FailedCall(m, e, r).1 ==> FailedCall(m, e, r).0.ctx.status == FAILED
    ensures FailedCall(m, e, r).1 && m.ctx.result.Some? && |m.ctx.result.value| > 0 ==>
              var res := FailedCall(m, e, r).0.ctx.result;
              res.Some? && EndsWith(res.value, m.ctx.result.value) && StartsWith(res.value, r)
    ensures |r| > 0 ==> FailedCall(m, e, r).0.ctx.result.Some? && StartsWith(FailedCall(m, e, r).0.ctx.result.value, r)
  {
  }

  /** Apart from EXECUTE, no interpretable step raises, and only the
      steps of malformed or failing activities set FAILED. */
  lemma StepRaisesOnlyInExecute(m: Machine, e: Env, a: Activities.Activity)
    requires Interpretable(a.kind)
    ensures Step(m, e, a).raised.Some? ==> a.kind.EXECUTE?
    ensures a.kind.CALL? || a.kind.ON? ==> Step(m, e, a).m == m.(succeeded := true)
  {
  }

  // ---------------------------------------------------------------------
  // The interpreter object

  class ActivityInterpreter {
    const context: Context
    const search: (string, string) -> bool
    const toFloat: string -> Option<Operations.PyFloat>
    var activitySucceeded: bool
    var isInOnFailed: bool
    var workflowEnded: bool
    var nextActivity: Option<string>

    function Environment(): Env {
      Env(context.workflow, context.outside, context.executor, search, toFloat)
    }

    function Snapshot(): Machine
      reads this, context
    {
      Machine(context.CurrentState(), activitySucceeded, isInOnFailed, workflowEnded, nextActivity)
    }

    /** ActivityInterpreter(context): outcome true, not in a handler, not
        ended, no next activity. */
    constructor(context: Context, search: (string, string) -> bool, toFloat: string -> Option<Operations.PyFloat>)
      ensures this.context == context && this.search == search && this.toFloat == toFloat
      ensures activitySucceeded && !isInOnFailed && !workflowEnded && nextActivity == None
    {
      this.context := context;
      this.search := search;
      this.toFloat := toFloat;
      activitySucceeded := true;
      isInOnFailed := false;
      workflowEnded := false;
      nextActivity := None;
    }

    /** _render_content */
    method RenderContent(content: string) returns (r: string)
      ensures r == Render(context.CurrentState(), Environment(), content)
    {
      var matches := Placeholders(content, 0);
      r := content;
      for i := 0 to |matches|
        invariant ReplaceEach(context.CurrentState(), Environment(), r, matches[i..])
               == Render(context.CurrentState(), Environment(), content)
      {
        assert matches[i..][0] == matches[i] && matches[i..][1..] == matches[i + 1..];
        var value := context.GetValue(PlaceholderName(matches[i]), None);
        if value.Some? {
          r := ReplaceAll(r, matches[i], value.value);
        }
      }
      assert matches[|matches|..] == [];
    }

    method VisitStart()
      modifies context
      ensures Snapshot() == StartStep(old(Snapshot()))
    {
      context.status := DOING;
    }

    method VisitSet(a: Activities.Activity)
      modifies this, context
      ensures Snapshot() == SetStep(old(Snapshot()), Environment(), a.expression)
    {
      var parts := Split(a.expression, "=");
      if |parts| < 2 {
        FailActivity(SetError(a.expression));
        return;
      }
      var name := parts[0];
      var value := Join(" ", parts[1..]);
      value := context.GetValue(value, Some(value)).GetOr(value);
      value := RenderContent(value);
      context.SetValue(name, value);
      activitySucceeded := true;
    }

    method VisitAssign(a: Activities.Activity)
      modifies this, context
      ensures Snapshot() == AssignStep(old(Snapshot()), Environment(), a.expression)
    {
      var content := context.GetValue(a.expression, None);
      if content.None? {
        FailActivity(AssignError);
        return;
      }
      var rendered := RenderContent(content.value);
      context.result := Some(rendered);
      activitySucceeded := true;
    }

    /** The failure path the visitors share: the context FAILED with the
        message as its result, and the activity not succeeded. */
    method FailActivity(message: string)
      modifies this, context
      ensures Snapshot() == Fail(old(Snapshot()), message)
    {
      context.status := FAILED;
      context.result := Some(message);
      activitySucceeded := false;
    }

    method VisitCheck(a: Activities.Activity)
      modifies this, context
      ensures Snapshot() == CheckStep(old(Snapshot()), Environment(), a.expression)
    {
      ghost var m0, env := Snapshot(), Environment();
      var parts := Split(a.expression, " ");
      if |parts| < 3 {
        assert CheckStep(m0, env, a.expression) == Fail(m0, CheckError(a.expression));
        FailActivity(CheckError(a.expression));
        return;
      }
      var left := context.GetValue(parts[0], None);
      var op := Operations.ParseOperation(parts[1]);
      var right := Join(" ", parts[2..]);
      var resolved := context.GetValue(right, Some(right));
      assert left == Resolve(m0.ctx, env, parts[0], None) && resolved == Resolve(m0.ctx, env, right, Some(right));
      if left.None? || op.None? || resolved.None? {
        assert CheckStep(m0, env, a.expression) == Fail(m0, CheckError(a.expression));
        FailActivity(CheckError(a.expression));
        return;
      }
      assert CheckStep(m0, env, a.expression)
          == m0.(succeeded := Operations.Interpret(op.value, left.value, resolved.value, search, toFloat));
      activitySucceeded := Operations.Interpret(op.value, left.value, resolved.value, search, toFloat);
    }

    method VisitExecute(a: Activities.Activity) returns (raised: Option<PyError>)
      modifies this, context
      ensures Outcome(Snapshot(), raised) == ExecuteStep(old(Snapshot()), Environment(), a.expression)
    {
      if context.executor.None? {
        FailActivity(ExecutorError);
        return None;
      }
      var commands: seq<Commands.Command>;
      if |a.expression| > 0 {
        var command := RenderContent(a.expression);
        commands := [Commands.NewCommand(Commands.Shell, [command])];
      } else {
        if context.result.None? {
          return Some(NoResultToParse);
        }
        commands := CommandParser.Parse(context.result.value);
      }
      assert ExecCommands(old(Snapshot()), Environment(), a.expression) == Some(commands);
      context.result := Some("");
      RunCommands(commands, context.executor.value);
      activitySucceeded := true;
      raised := None;
    }

    /** The loop of visit_execute: runs each command and appends its text to
        the result. */
    method RunCommands(commands: seq<Commands.Command>, run: Commands.Command -> string)
      requires context.result == Some("")
      modifies context
      ensures context.result == Some(ExecText(commands, run))
      ensures context.status == old(context.status) && context.variables == old(context.variables)
    {
      for i := 0 to |commands|
        invariant context.result == Some(ExecText(commands[..i], run))
        invariant context.status == old(context.status) && context.variables == old(context.variables)
      {
        var cmd := commands[i];
        var output := run(cmd);
        AppendCommand(cmd, output);
        assert commands[..i + 1][..i] == commands[..i];
      }
      assert commands[..|commands|] == commands;
    }

    /** One round of that loop: the command's lines, then its output. */
    method AppendCommand(cmd: Commands.Command, output: string)
      requires context.result.Some?
      modifies context
      ensures context.result == Some(old(context.result.value) + CommandText(cmd, output))
      ensures context.status == old(context.status) && context.variables == old(context.variables)
    {
      ghost var prefix := context.result.value;
      assert DollarLines(cmd.cmds[..0]) == "";
      assert prefix + "" == prefix;
      for j := 0 to |cmd.cmds|
        invariant context.result == Some(prefix + DollarLines(cmd.cmds[..j]))
        invariant context.status == old(context.status) && context.variables == old(context.variables)
      {
        assert cmd.cmds[..j + 1][..j] == cmd.cmds[..j] && cmd.cmds[..j + 1][j] == cmd.cmds[j];
        assert DollarLines(cmd.cmds[..j + 1]) == DollarLines(cmd.cmds[..j]) + "$ " + cmd.cmds[j] + "\n";
        assert prefix + DollarLines(cmd.cmds[..j]) + "$ " + cmd.cmds[j] + "\n"
            == prefix + (DollarLines(cmd.cmds[..j]) + "$ " + cmd.cmds[j] + "\n");
        context.result := Some(context.result.value + "$ " + cmd.cmds[j] + "\n");
      }
      assert cmd.cmds[..|cmd.cmds|] == cmd.cmds;
      if |output| > 0 {
        assert prefix + DollarLines(cmd.cmds) + output + "\n" == prefix + CommandText(cmd, output);
        context.result := Some(context.result.value + output + "\n");
      } else {
        assert prefix + DollarLines(cmd.cmds) + "\n" == prefix + CommandText(cmd, output);
        context.result := Some(context.result.value + "\n");
      }
    }

    method VisitCall()
      modifies this
      ensures Snapshot() == SucceedStep(old(Snapshot()))
    {
      activitySucceeded := true;
    }

    method VisitSuccess()
      modifies this, context
      ensures Snapshot() == SuccessStep(old(Snapshot()), Environment())
    {
      var onSuccess := context.workflow.onSuccess;
      if HandlerReady(context.workflow, onSuccess) {
        nextActivity := onSuccess;
        workflowEnded := false;
        return;
      }
      context.status := SUCCESS;
      workflowEnded := true;
    }

    /** success(): finish the workflow as a SUCCESS activity would. */
    method Success()
      modifies this, context
      ensures Snapshot() == SuccessStep(old(Snapshot()), Environment())
    {
      VisitSuccess();
    }

    method VisitFailed()
      modifies this, context
      ensures Snapshot() == FailedStep(old(Snapshot()), Environment())
    {
      var onFailed := context.workflow.onFailed;
      if HandlerReady(context.workflow, onFailed) {
        nextActivity := onFailed;
        isInOnFailed := true;
        workflowEnded := false;
        return;
      }
      context.status := FAILED;
      workflowEnded := true;
    }

    /** failed(result) */
    method Failed(r: string) returns (finished: bool)
      modifies this, context
      ensures (Snapshot(), finished) == FailedCall(old(Snapshot()), Environment(), r)
    {
      var onFailed := context.workflow.onFailed;
      if HandlerReady(context.workflow, onFailed) {
        if |r| > 0 {
          context.result := Some(r);
          context.status := FAILED;
        }
        nextActivity := onFailed;
        isInOnFailed := true;
        return false;
      }
      if context.result.None? || |context.result.value| == 0 {
        if |r| > 0 {
          context.result := Some(r);
        }
      } else {
        if |r| > 0 {
          context.result := Some(r + "  \n" + context.result.value);
        }
      }
      context.status := FAILED;
      return true;
    }

    method VisitOn()
      modifies this
      ensures Snapshot() == SucceedStep(old(Snapshot()))
    {
      activitySucceeded := true;
    }

    /** Activity.accept(self) */
    method Accept(a: Activities.Activity) returns (raised: Option<PyError>)
      requires Interpretable(a.kind)
      modifies this, context
      ensures Outcome(Snapshot(), raised) == Step(old(Snapshot()), Environment(), a)
    {
      raised := None;
      match a.kind
      case START => VisitStart();
      case SET => VisitSet(a);
      case ASSIGN => VisitAssign(a);
      case CHECK => VisitCheck(a);
      case EXECUTE => raised := VisitExecute(a);
      case CALL => VisitCall();
      case SUCCESS => VisitSuccess();
      case FAILED => VisitFailed();
      case ON => VisitOn();
    }
  }
}
