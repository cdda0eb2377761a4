/**
 * ShellCommandExecutor: runs the lines of a command one by one in a
 * persistent shell.  Each line is written to the shell's stdin followed by
 * an echo of a marker line; the output is then collected from the lines the
 * shell has written to stdout and stderr until the marker comes back.
 *
 * The shell process and its reader threads are not modelled: the lines
 * the shell writes are given as the two queues, and the marker's hash text
 * (randomised per process in the source) is a function `hashHex` given to
 * the executor.  When the queues run out before the marker, the source
 * keeps polling; the model stops there and reports that it is still
 * waiting.
 */
module ShellExecutors {
  import opened Wrappers
  import opened PyStrings
  import opened Commands

  /** The marker line echoed after a command, for the hash text of the command. */
  function Marker(hash: string): (m: string)
    ensures |m| > 0 && m[|m| - 1] == '\n'
  {
    "COMMAND_" + hash + "_DONE_MARKER.\n"
  }

  const CrLf: string := "\r\n"
  const Lf: string := "\n"

  /** What one command line sends to stdin: the line with CRLF turned into
      LF, then a blank line and the echo of the marker. */
  function Payload(cmd: string, marker: string): string {
    ReplaceAll(cmd, CrLf, Lf) + ReplaceAll("\necho " + marker + "\n", CrLf, Lf)
  }

  /** What one collection pass yields: the output with the collected lines
      appended, the lines left in each queue, and whether the marker was
      seen. */
  datatype Collected = Collected(text: string, out: seq<string>, err: seq<string>, found: bool)

  function Rest(q: seq<string>): seq<string> {
    if q == [] then [] else q[1..]
  }

  /** The polling loop, appending to `acc`: each round takes one stdout
      line, if any, and then one stderr line, if any.  The marker line on
      stdout ends the loop at once; other stdout lines ending with the
      marker are dropped; every other line is appended. */
  function Collect(acc: string, out: seq<string>, err: seq<string>, marker: string): (c: Collected)
    ensures |c.out| <= |out| && |c.err| <= |err|
    ensures c.found ==> |c.out| < |out|
    decreases |out| + |err|
  {
    if out == [] && err == [] then Collected(acc, [], [], false)
    else if out != [] && out[0] == marker then Collected(acc, out[1..], err, true)
    else
      Collect(acc + StdoutPart(out, marker) + StderrPart(err), Rest(out), Rest(err), marker)
  }

  /** The stdout line a round appends: the next one unless it ends with the
      marker. */
  function StdoutPart(out: seq<string>, marker: string): string {
    if out != [] && !EndsWith(out[0], marker) then out[0] else ""
  }

  /** The stderr line a round appends: the next one, if any. */
  function StderrPart(err: seq<string>): string {
    if err != [] then err[0] else ""
  }

  /** The clean-up after a command: one leading newline and then one
      trailing blank line are removed when present. */
  function TrimBlankEnds(s: string): (r: string)
    ensures |s| - 3 <= |r| <= |s|
  {
    var t := if StartsWith(s, "\n") then s[1..] else s;
    if EndsWith(t, "\n\n") then t[..|t| - 2] else t
  }

  /** What a run of command lines yields: the output, the lines left in the
      queues, everything written to stdin, and whether every marker came
      back. */
  datatype Session = Session(output: string, out: seq<string>, err: seq<string>, sent: string, done: bool)

  /** The command lines run in order, each one's payload appended to what
      was sent and its lines to the output, which is trimmed after each
      one. */
  function Run(cmds: seq<string>, out: seq<string>, err: seq<string>, acc: string, sent: string,
               hashHex: string -> string): (s: Session)
    ensures s.done ==> |s.out| <= |out| - |cmds|
    decreases |cmds|
  {
    if cmds == [] then Session(acc, out, err, sent, true)
    else
      var marker := Marker(hashHex(cmds[0]));
      var c := Collect(acc, out, err, marker);
      var sent' := sent + Payload(cmds[0], marker);
      if !c.found then Session(c.text, c.out, c.err, sent', false)
      else Run(cmds[1..], c.out, c.err, TrimBlankEnds(c.text), sent', hashHex)
  }

  /** The marker is seen exactly when it is among the stdout lines. */
  lemma {:induction false} CollectFound(acc: string, out: seq<string>, err: seq<string>, marker: string)
    ensures Collect(acc, out, err, marker).found <==> marker in out
    decreases |out| + |err|
  {
    if out == [] && err == [] {
    } else if out != [] && out[0] == marker {
    } else {
      CollectFound(acc + StdoutPart(out, marker) + StderrPart(err), Rest(out), Rest(err), marker);
      if out != [] {
        assert out == [out[0]] + out[1..];
      }
    }
  }

  /** The lines appended from stdout alone: those before the marker that
      do not end with it. */
  function Kept(lines: seq<string>, marker: string): string {
    if lines == [] then ""
    else (if EndsWith(lines[0], marker) then "" else lines[0]) + Kept(lines[1..], marker)
  }

  /** With nothing on stderr, the marker splits stdout: the kept lines
      before it are appended and the lines after it stay queued. */
  lemma {:induction false} CollectStdout(acc: string, pre: seq<string>, post: seq<string>, marker: string)
    requires marker !in pre
    ensures Collect(acc, pre + [marker] + post, [], marker) == Collected(acc + Kept(pre, marker), post, [], true)
    decreases |pre|
  {
    var out := pre + [marker] + post;
    if pre == [] {
      assert out == [marker] + post;
      assert acc + Kept(pre, marker) == acc;
    } else {
      assert out[0] == pre[0] && out[1..] == pre[1..] + [marker] + post;
      var none: seq<string> := [];
      assert Rest(none) == [];
      var a := if !EndsWith(pre[0], marker) then pre[0] else "";
      CollectStdout(acc + a + "", pre[1..], post, marker);
      assert acc + a + "" + Kept(pre[1..], marker) == acc + Kept(pre, marker);
    }
  }

  /** Running two lists of lines is running the first and then, if every
      marker came back, the second from where the first left off: the
      output is carried over, not reset in between. */
  lemma {:induction false} RunAppend(a: seq<string>, b: seq<string>, out: seq<string>, err: seq<string>,
                                     acc: string, sent: string, hashHex: string -> string)
    ensures var s := Run(a, out, err, acc, sent, hashHex);
            Run(a + b, out, err, acc, sent, hashHex)
            == (if s.done then Run(b, s.out, s.err, s.output, s.sent, hashHex) else s)
    decreases |a|
  {
    if a == [] {
      assert a + b == b;
    } else {
      assert (a + b)[0] == a[0] && (a + b)[1..] == a[1..] + b;
      var marker := Marker(hashHex(a[0]));
      var c := Collect(acc, out, err, marker);
      if c.found {
        RunAppend(a[1..], b, c.out, c.err, TrimBlankEnds(c.text), sent + Payload(a[0], marker), hashHex);
      }
    }
  }

  /** Text framed by a leading newline and a trailing blank line comes back
      as it was. */
  lemma TrimFramed(t: string)
    ensures TrimBlankEnds("\n" + t + "\n\n") == t
  {
    var s := "\n" + t + "\n\n";
    assert StartsWith(s, "\n");
    assert s[1..] == t + "\n\n";
    assert EndsWith(t + "\n\n", "\n\n");
    assert (t + "\n\n")[..|t|] == t;
  }

  /** Text without a leading newline or a trailing blank line is kept. */
  lemma TrimKeeps(t: string)
    requires !StartsWith(t, "\n") && !EndsWith(t, "\n\n")
    ensures TrimBlankEnds(t) == t
  {
  }

  class ShellCommandExecutor {
    const hashHex: string -> string
    var currentOutput: string
    var stdin: string
    var stdoutQueue: seq<string>
    var stderrQueue: seq<string>

    /** A new executor: the shell starts in the home directory, so "cd ~" is
        sent first. */
    constructor(hashHex: string -> string, out: seq<string>, err: seq<string>)
      ensures this.hashHex == hashHex
      ensures var s := Run(["cd ~"], out, err, "", "", hashHex);
              currentOutput == s.output && stdoutQueue == s.out && stderrQueue == s.err && stdin == s.sent
    {
      this.hashHex := hashHex;
      currentOutput := "";
      stdin := "";
      stdoutQueue := out;
      stderrQueue := err;
      new;
      var done := SendCommandToShell(["cd ~"]);
    }

    /** _read_shell_output(marker): the lines are appended as Collect says;
        once the marker is seen the output is trimmed. */
    method ReadShellOutput(marker: string) returns (found: bool)
      modifies this
      ensures var c := Collect(old(currentOutput), old(stdoutQueue), old(stderrQueue), marker);
              found == c.found && stdoutQueue == c.out && stderrQueue == c.err
              && currentOutput == (if found then TrimBlankEnds(c.text) else c.text)
      ensures stdin == old(stdin)
    {
      ghost var c0 := Collect(currentOutput, stdoutQueue, stderrQueue, marker);
      found := false;
      while stdoutQueue != [] || stderrQueue != []
        invariant stdin == old(stdin) && !found
        invariant Collect(currentOutput, stdoutQueue, stderrQueue, marker) == c0
        decreases |stdoutQueue| + |stderrQueue|
      {
        ghost var acc, out, err := currentOutput, stdoutQueue, stderrQueue;
        if stdoutQueue != [] {
          var line := stdoutQueue[0];
          stdoutQueue := stdoutQueue[1..];
          if line == marker {
            found := true;
            break;
          }
          if !EndsWith(line, marker) {
            currentOutput := currentOutput + line;
          }
        }
        if stderrQueue != [] {
          var line := stderrQueue[0];
          stderrQueue := stderrQueue[1..];
          currentOutput := currentOutput + line;
        }
        assert stdoutQueue == Rest(out) && stderrQueue == Rest(err);
        assert currentOutput == acc + StdoutPart(out, marker) + StderrPart(err);
      }
      if found {
        currentOutput := TrimBlankEnds(currentOutput);
      }
    }

    /** _send_command_to_shell(cmds): the output is reset once, then each
        line is sent and its output collected, as Run says. */
    method SendCommandToShell(cmds: seq<string>) returns (done: bool)
      modifies this
      ensures var s := Run(cmds, old(stdoutQueue), old(stderrQueue), "", old(stdin), hashHex);
              currentOutput == s.output && stdoutQueue == s.out && stderrQueue == s.err
              && stdin == s.sent && done == s.done
    {
      ghost var s0 := Run(cmds, stdoutQueue, stderrQueue, "", stdin, hashHex);
      currentOutput := "";
      for i := 0 to |cmds|
        invariant Run(cmds[i..], stdoutQueue, stderrQueue, currentOutput, stdin, hashHex) == s0
      {
        var cmd := cmds[i];
        assert cmds[i..][0] == cmd && cmds[i..][1..] == cmds[i + 1..];
        var marker := Marker(hashHex(cmd));
        ghost var sent := stdin;
        stdin := stdin + ReplaceAll(cmd, CrLf, Lf);
        stdin := stdin + ReplaceAll("\necho " + marker + "\n", CrLf, Lf);
        AppendAssoc(sent, ReplaceAll(cmd, CrLf, Lf), ReplaceAll("\necho " + marker + "\n", CrLf, Lf));
        assert stdin == sent + Payload(cmd, marker);
        var found := ReadShellOutput(marker);
        if !found {
          return false;
        }
      }
      assert cmds[|cmds|..] == [];
      done := true;
    }

    /** execute(command): the command's lines are run and the command gets
        the collected output and exit code 0, and 0 is returned.  None
        stands for a run that is still waiting for a marker. */
    method Execute(command: Command) returns (code: Option<int>, cmd: Command)
      modifies this
      ensures var s := Run(command.cmds, old(stdoutQueue), old(stderrQueue), "", old(stdin), hashHex);
              currentOutput == s.output && stdin == s.sent
              && (s.done ==> code == Some(0) && cmd == command.(output := s.output, exitCode := 0))
              && (!s.done ==> code == None && cmd == command)
    {
      var done := SendCommandToShell(command.cmds);
      if !done {
        return None, command;
      }
      cmd := command.(output := currentOutput, exitCode := 0);
      code := Some(0);
    }
  }

  /** A line without a newline, followed by one, does not end with a blank
      line. */
  lemma NoBlankEnd(text: string)
    requires '\n' !in text
    ensures !StartsWith(text + "\n", "\n") || text == []
    ensures !EndsWith(text + "\n", "\n\n")
  {
    if |text| > 0 {
      assert (text + "\n")[0] == text[0];
      assert (text + "\n")[|text| - 1] == text[|text| - 1];
    }
  }

  /** The echoed line is collected up to the marker. */
  lemma EchoCollected(line: string, marker: string)
    requires line != marker && !EndsWith(line, marker)
    ensures Collect("", [line, marker], [], marker) == Collected(line, [], [], true)
  {
    CollectStdout("", [line], [], marker);
    assert [line] + [marker] + [] == [line, marker];
    assert Kept([line], marker) == line + Kept([], marker);
  }

  /** A line of text without a newline, and its newline, split at "\n"
      into the text and an empty rest. */
  lemma LineSplit(text: string)
    requires '\n' !in text
    ensures Split(text + "\n", "\n") == [text, ""]
  {
    var line := text + "\n";
    FindCharAt(text, '\n', "");
    assert line == text + ['\n'] + "";
    assert line[..|text|] == text;
    assert line[|text| + 1..] == "";
  }

  /** One echoed line: the output is the echoed text and a newline, so it
      splits at "\n" into two parts, the first one the text. */
  lemma SingleEcho(cmd: string, text: string, hashHex: string -> string)
    requires '\n' !in text && text != []
    requires !EndsWith(text + "\n", Marker(hashHex(cmd)))
    ensures var s := Run([cmd], [text + "\n", Marker(hashHex(cmd))], [], "", "", hashHex);
            s.done && s.output == text + "\n" && Split(s.output, "\n") == [text, ""]
  {
    var marker := Marker(hashHex(cmd));
    var line := text + "\n";
    EchoCollected(line, marker);
    NoBlankEnd(text);
    TrimKeeps(line);
    assert [cmd][1..] == [];
    var s := Run([cmd], [line, marker], [], "", "", hashHex);
    assert s == Run([], [], [], line, "" + Payload(cmd, marker), hashHex);
    LineSplit(text);
  }
}
