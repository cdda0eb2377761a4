/**
 * WorkflowInterpreter: the hard-wired interpreter that runs one workflow
 * step by step.  Modelled here are the three operations that need no
 * agent: executing the commands of the current result, and checking the
 * status and the result.  The command executor is a function from a
 * command to the output it leaves in `cmd.output`.
 */
module LegacyInterpreters {
  import opened Wrappers
  import opened PyStrings
  import opened Commands
  import opened CommandParser
  import opened Workflows

  /** The two result checks. */
  const CheckResultEquals: int := 0
  const CheckResultContains: int := 1

  const ExecutorNotSet: string := "CommandExecutor is not set"

  /** What Python raises on a result that was never set. */
  const NoneNotIterable: string := "argument of type 'NoneType' is not iterable"
  const NoneHasNoStrip: string := "'NoneType' object has no attribute 'strip'"
  const NoneHasNoSplitLines: string := "'NoneType' object has no attribute 'splitlines'"

  /** The outputs of the commands, in order, with nothing between them. */
  function Outputs(cs: seq<Command>, run: Command -> string): string {
    if cs == [] then "" else Outputs(cs[..|cs| - 1], run) + run(cs[|cs| - 1])
  }

  /** Running two lists of commands one after the other yields the two
      outputs one after the other. */
  lemma {:induction false} OutputsAppend(a: seq<Command>, b: seq<Command>, run: Command -> string)
    ensures Outputs(a + b, run) == Outputs(a, run) + Outputs(b, run)
    decreases |b|
  {
    if b == [] {
      assert a + b == a;
    } else {
      var b' := b[..|b| - 1];
      assert (a + b)[..|a + b| - 1] == a + b';
      OutputsAppend(a, b', run);
    }
  }

  /** The output of every command appears in the result, at the offset
      given by the outputs before it. */
  lemma OutputsContain(cs: seq<Command>, run: Command -> string, k: nat)
    requires k < |cs|
    ensures OccursAt(Outputs(cs, run), run(cs[k]), |Outputs(cs[..k], run)|)
  {
    assert cs == cs[..k] + [cs[k]] + cs[k + 1..];
    OutputsAppend(cs[..k] + [cs[k]], cs[k + 1..], run);
    OutputsAppend(cs[..k], [cs[k]], run);
    assert Outputs([cs[k]], run) == Outputs([], run) + run(cs[k]);
    var pre := Outputs(cs[..k], run);
    var all := Outputs(cs, run);
    assert all == pre + run(cs[k]) + Outputs(cs[k + 1..], run);
    assert all[|pre|..|pre| + |run(cs[k])|] == run(cs[k]);
  }

  /** The commands execute runs: one shell command for an explicit command
      line, otherwise the commands parsed from the current result, which
      fails when there is no result. */
  function CommandsToRun(command: Option<string>, result: Option<string>): (r: Result<seq<Command>>)
    ensures command.Some? ==> r.Ok? && |r.value| == 1
    ensures command.None? ==> (r.Ok? <==> result.Some?)
    ensures r.Err? ==> r.error == AttributeError(NoneHasNoSplitLines)
  {
    if command.Some? then Ok([NewCommand(Shell, [command.value])])
    else if result.None? then Err(AttributeError(NoneHasNoSplitLines))
    else Ok(ParsedCommands(result.value))
  }

  /** An explicit command line runs as exactly one "sh" command holding that
      line, and the result becomes its output. */
  lemma ExplicitCommand(line: string, result: Option<string>, run: Command -> string)
    ensures CommandsToRun(Some(line), result).Ok?
    ensures var cs := CommandsToRun(Some(line), result).value;
            cs[0].cmdType == Shell && cs[0].cmds == [line]
            && Outputs(cs, run) == run(NewCommand(Shell, [line]))
  {
    var cs := CommandsToRun(Some(line), result).value;
    assert cs[..0] == [];
    assert Lower(Shell) == Shell;
  }

  /** A result without command blocks runs nothing and leaves an empty
      result. */
  lemma NoBlocksEmptyResult(msg: string, run: Command -> string)
    requires forall i :: 0 <= i < |SplitLines(msg)| ==> !IsFence(SplitLines(msg)[i])
    ensures CommandsToRun(None, Some(msg)) == Ok([])
    ensures Outputs(CommandsToRun(None, Some(msg)).value, run) == ""
  {
    NoFencesNoCommands(msg);
  }

  class WorkflowInterpreter {
    var workflow: Workflow
    var executor: Option<Command -> string>

    /** WorkflowInterpreter(workflow): no executor until one is set from
        outside. */
    constructor(workflow: Workflow)
      ensures this.workflow == workflow && executor == None
    {
      this.workflow := workflow;
      executor := None;
    }

    /** execute(command): without an executor a ValueError; otherwise the
        result is replaced by the outputs of the commands to run, in order. */
    method Execute(command: Option<string>) returns (err: Option<PyError>)
      modifies this
      ensures executor == old(executor)
      ensures old(executor).None? ==> err == Some(ValueError(ExecutorNotSet)) && workflow == old(workflow)
      ensures old(executor).Some? && CommandsToRun(command, old(workflow.result)).Err? ==>
                err == Some(CommandsToRun(command, old(workflow.result)).error) && workflow == old(workflow)
      ensures old(executor).Some? && CommandsToRun(command, old(workflow.result)).Ok? ==>
                err == None
                && workflow == old(workflow).(result := Some(Outputs(CommandsToRun(command, old(workflow.result)).value,
                                                                     old(executor).value)))
    {
      if executor.None? {
        return Some(ValueError(ExecutorNotSet));
      }
      var run := executor.value;
      var commands: seq<Command>;
      if command.Some? {
        commands := [NewCommand(Shell, [command.value])];
      } else if workflow.result.None? {
        return Some(AttributeError(NoneHasNoSplitLines));
      } else {
        commands := Parse(workflow.result.value);
      }
      workflow := workflow.(result := Some(""));
      for i := 0 to |commands|
        invariant executor == old(executor)
        invariant workflow == old(workflow).(result := Some(Outputs(commands[..i], run)))
      {
        assert commands[..i + 1][..i] == commands[..i];
        workflow := workflow.(result := Some(workflow.result.value + run(commands[i])));
      }
      assert commands[..|commands|] == commands;
      err := None;
    }

    /** check_status(expected) as written: the status is an Enum member and
        the expected status an int, and a Python Enum member never equals
        an int, so the check never holds. */
    function CheckStatusAsWritten(expected: int): bool
      reads this
    {
      false
    }

    /** check_status(expected) as intended: the status has the expected
        enum value. */
    function CheckStatus(expected: int): (r: bool)
      reads this
      ensures r <==> StatusValue(workflow.status) == expected
    {
      StatusValue(workflow.status) == expected
    }

    /** check_result(expected, operation): CONTAINS tests whether the
        expected text occurs in the result as it is; every other operation
        compares both texts stripped.  A result never set raises. */
    function CheckResult(expected: string, operation: int): (r: Result<bool>)
      reads this
      ensures r.Ok? <==> workflow.result.Some?
    {
      if operation == CheckResultContains then
        if workflow.result.None? then Err(TypeError(NoneNotIterable))
        else Ok(Contains(workflow.result.value, expected))
      else
        if workflow.result.None? then Err(AttributeError(NoneHasNoStrip))
        else Ok(Strip(workflow.result.value) == Strip(expected))
    }
  }

  /** The intended status check holds for exactly the workflow's own status. */
  lemma CheckStatusExactly(i: WorkflowInterpreter, s: Status)
    ensures i.CheckStatus(StatusValue(s)) <==> i.workflow.status == s
  {
    StatusValueInjective(i.workflow.status, s);
  }

  /** A running workflow checked against DOING's value (0): the check as
      written says no, the intended check says yes. */
  lemma CheckStatusAsWrittenMisses(i: WorkflowInterpreter)
    requires i.workflow.status == DOING
    ensures !i.CheckStatusAsWritten(0)
    ensures i.CheckStatus(0)
  {
  }

  /** A result that is the expected text padded with whitespace passes the
      equality check. */
  lemma CheckResultPadded(i: WorkflowInterpreter, lead: string, text: string, tail: string)
    requires i.workflow.result == Some(lead + text + tail)
    requires forall k :: 0 <= k < |lead| ==> IsSpace(lead[k])
    requires forall k :: 0 <= k < |tail| ==> IsSpace(tail[k])
    requires text == [] || (!IsSpace(text[0]) && !IsSpace(text[|text| - 1]))
    ensures i.CheckResult(text, CheckResultEquals) == Ok(true)
  {
    StripPadded(lead, text, tail);
    StripTrimmed(text);
  }

  /** A trimmed expected text that passes the equality check also passes the
      containment check. */
  lemma CheckEqualsThenContains(i: WorkflowInterpreter, expected: string)
    requires expected == [] || (!IsSpace(expected[0]) && !IsSpace(expected[|expected| - 1]))
    requires i.CheckResult(expected, CheckResultEquals) == Ok(true)
    ensures i.CheckResult(expected, CheckResultContains) == Ok(true)
  {
    StripTrimmed(expected);
    StripContained(i.workflow.result.value);
  }

  /** Containment is on the untrimmed texts: a leading blank in the
      expected text, which the equality check ignores, makes it fail. */
  lemma CheckContainsUntrimmed(i: WorkflowInterpreter, text: string)
    requires i.workflow.result == Some(text)
    requires text == [] || (!IsSpace(text[0]) && !IsSpace(text[|text| - 1]))
    ensures i.CheckResult(" " + text, CheckResultEquals) == Ok(true)
    ensures i.CheckResult(" " + text, CheckResultContains) == Ok(false)
  {
    var padded := " " + text;
    assert Strip(padded) == text by {
      StripPadded(" ", text, "");
      assert " " + text + "" == padded;
    }
    StripTrimmed(text);
    assert !Contains(text, padded) by {
      var f := Find(text, padded);
      assert f == -1 || OccursAt(text, padded, f);
      assert |padded| > |text|;
    }
  }
}
