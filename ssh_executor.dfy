/**
 * SSHCommandExecutor: runs the lines of a command in a remote shell over
 * SSH.  A round trip sends the lines framed by the echo of a begin marker
 * and of an end marker, and keeps the output lines between the two markers.
 *
 * The connection, the channel and the reader thread are not modelled: the
 * text the remote shell sends back is given as the chunks the reader
 * receives, in order, and the token of a round trip (a random UUID in the
 * source) is a parameter.  When the lines run out before the end marker,
 * the source waits until its inactivity timeout and raises TimeoutError;
 * the model raises it at once.
 */
module SshExecutors {
  import opened Wrappers
  import opened PyStrings
  import opened Commands

  function BeginMarker(token: string): string {
    "__CMD_BEGIN_" + token + "__"
  }

  function EndMarker(token: string): string {
    "__CMD_END_" + token + "__"
  }

  const Newline: string := "\n"
  const LineEnds: set<char> := {'\r', '\n'}
  const InactivityTimeout: string := "inactivity timeout"

  /** The script of a round trip: the echo of the begin marker, the command
      lines, the echo of the end marker. */
  function ScriptLines(cmds: seq<string>, token: string): seq<string> {
    ["echo " + BeginMarker(token)] + cmds + ["echo " + EndMarker(token)]
  }

  /** What a round trip sends: the script lines joined by newlines, and a
      final newline. */
  function Payload(cmds: seq<string>, token: string): string {
    Join(Newline, ScriptLines(cmds, token)) + Newline
  }

  /** Each line followed by its newline. */
  function Terminated(lines: seq<string>): string {
    if lines == [] then "" else lines[0] + Newline + Terminated(lines[1..])
  }

  /** Joining non-empty lines by newlines and adding a final newline ends
      every line with a newline. */
  lemma {:induction false} JoinTerminated(lines: seq<string>)
    requires lines != []
    ensures Join(Newline, lines) + Newline == Terminated(lines)
    decreases |lines|
  {
    if |lines| == 1 {
      assert lines[1..] == [];
    } else {
      JoinTerminated(lines[1..]);
      AppendAssoc3(lines[0], Newline, Join(Newline, lines[1..]), Newline);
    }
  }

  lemma {:induction false} TerminatedAppend(a: seq<string>, b: seq<string>)
    ensures Terminated(a + b) == Terminated(a) + Terminated(b)
    decreases |a|
  {
    if a == [] {
      assert a + b == b;
    } else {
      assert (a + b)[0] == a[0] && (a + b)[1..] == a[1..] + b;
      TerminatedAppend(a[1..], b);
      AppendAssoc3(a[0], Newline, Terminated(a[1..]), Terminated(b));
    }
  }

  /** The payload is the begin echo line, each command line with its
      newline, and the end echo line. */
  lemma PayloadFramed(cmds: seq<string>, token: string)
    ensures Payload(cmds, token)
         == "echo " + BeginMarker(token) + "\n" + Terminated(cmds) + ("echo " + EndMarker(token) + "\n")
  {
    var b := "echo " + BeginMarker(token);
    var e := "echo " + EndMarker(token);
    JoinTerminated(ScriptLines(cmds, token));
    TerminatedAppend([b] + cmds, [e]);
    TerminatedAppend([b], cmds);
    assert [b][1..] == [] && [e][1..] == [];
    assert Terminated([b]) == b + Newline + "";
    assert Terminated([e]) == e + Newline + "";
  }

  /** What the reader makes of its buffer: the complete lines, each with its
      newline, and the unterminated tail it keeps. */
  datatype Pieces = Pieces(lines: seq<string>, rest: string)

  /** The index of the first newline, or the length when there is none. */
  function NewlineAt(buf: string): (k: nat)
    ensures k <= |buf|
    ensures k < |buf| ==> buf[k] == '\n'
  {
    if buf == [] || buf[0] == '\n' then 0 else 1 + NewlineAt(buf[1..])
  }

  /** The buffer holds a newline exactly when the first one is inside it. */
  lemma {:induction false} NewlineIn(buf: string)
    ensures '\n' in buf <==> NewlineAt(buf) < |buf|
    ensures '\n' !in buf[..NewlineAt(buf)]
  {
    if buf != [] && buf[0] != '\n' {
      NewlineIn(buf[1..]);
      assert buf == [buf[0]] + buf[1..];
      assert buf[..NewlineAt(buf)] == [buf[0]] + buf[1..][..NewlineAt(buf[1..])];
    }
  }

  /** The lines of `buf` read on from a partial line `line`: each newline
      completes the line read so far. */
  function SplitFrom(buf: string, line: string): Pieces
    decreases |buf|
  {
    if buf == [] then Pieces([], line)
    else if buf[0] == '\n' then
      var p := SplitFrom(buf[1..], "");
      Pieces([line + Newline] + p.lines, p.rest)
    else SplitFrom(buf[1..], line + [buf[0]])
  }

  /** The reader's loop over a buffer: while it holds a newline, the text
      before the first one is queued with a newline and the buffer keeps
      the text after it. */
  function SplitOff(buf: string): Pieces {
    SplitFrom(buf, "")
  }

  /** Text without a newline only extends the partial line. */
  lemma {:induction false} SplitFromPlain(x: string, buf: string, line: string)
    requires '\n' !in x
    ensures SplitFrom(x + buf, line) == SplitFrom(buf, line + x)
    decreases |x|
  {
    if x == [] {
      assert x + buf == buf && line + x == line;
    } else {
      assert (x + buf)[0] == x[0] && (x + buf)[1..] == x[1..] + buf;
      SplitFromPlain(x[1..], buf, line + [x[0]]);
      assert line + [x[0]] + x[1..] == line + x;
    }
  }

  /** A buffer without a newline is all tail. */
  lemma PlainSplit(buf: string)
    requires '\n' !in buf
    ensures SplitOff(buf) == Pieces([], buf)
  {
    SplitFromPlain(buf, "", "");
    assert buf + "" == buf && "" + buf == buf;
  }

  /** The first newline of the buffer completes its first line. */
  lemma SplitOffFirst(buf: string)
    requires NewlineAt(buf) < |buf|
    ensures var k := NewlineAt(buf);
            SplitOff(buf) == Pieces([buf[..k] + Newline] + SplitOff(buf[k + 1..]).lines, SplitOff(buf[k + 1..]).rest)
  {
    NewlineIn(buf);
    var k := NewlineAt(buf);
    assert buf == buf[..k] + buf[k..];
    SplitFromPlain(buf[..k], buf[k..], "");
    assert buf[k..][0] == '\n' && buf[k..][1..] == buf[k + 1..];
    assert "" + buf[..k] == buf[..k];
  }

  /** Splitting loses nothing: the lines and the tail give back the buffer
      read on from the partial line; the tail holds no newline. */
  lemma {:induction false} SplitFromLossless(buf: string, line: string)
    requires '\n' !in line
    ensures Concat(SplitFrom(buf, line).lines) + SplitFrom(buf, line).rest == line + buf
    ensures '\n' !in SplitFrom(buf, line).rest
    decreases |buf|
  {
    if buf == [] {
      assert Concat([]) + line == line + buf;
    } else if buf[0] == '\n' {
      SplitFromLossless(buf[1..], "");
      var p := SplitFrom(buf[1..], "");
      assert SplitFrom(buf, line).lines[1..] == p.lines;
      calc {
        Concat(SplitFrom(buf, line).lines) + SplitFrom(buf, line).rest;
        (line + Newline + Concat(p.lines)) + p.rest;
        { AppendAssoc(line + Newline, Concat(p.lines), p.rest); }
        line + Newline + ("" + buf[1..]);
        { assert buf == Newline + buf[1..]; }
        line + buf;
      }
    } else {
      SplitFromLossless(buf[1..], line + [buf[0]]);
      assert line + [buf[0]] + buf[1..] == line + buf;
    }
  }

  /** Every line the reader queues ends with its only newline. */
  lemma {:induction false} SplitFromLines(buf: string, line: string, i: nat)
    requires '\n' !in line
    requires i < |SplitFrom(buf, line).lines|
    ensures var l := SplitFrom(buf, line).lines[i];
            |l| > 0 && l[|l| - 1] == '\n' && '\n' !in l[..|l| - 1]
    decreases |buf|
  {
    if buf[0] == '\n' {
      if i == 0 {
        var l := line + Newline;
        assert l[..|l| - 1] == line;
      } else {
        SplitFromLines(buf[1..], "", i - 1);
      }
    } else {
      assert '\n' !in line + [buf[0]];
      SplitFromLines(buf[1..], line + [buf[0]], i);
    }
  }

  /** A line with its trailing CR and LF characters removed. */
  function Bare(line: string): string {
    RStripChars(line, LineEnds)
  }

  predicate Opens(line: string, begin: string) {
    Bare(line) == begin || EndsWith(Bare(line), "\r" + begin)
  }

  predicate Closes(line: string, end: string) {
    Bare(line) == end || EndsWith(Bare(line), "\r" + end)
  }

  /** The remote shell's echo of the end marker command. */
  predicate EchoesEnd(line: string, end: string) {
    EndsWith(Bare(line), "echo " + end)
  }

  /** What one collection yields: the captured text, the lines left in the
      queue, and whether the end marker was seen. */
  datatype Captured = Captured(text: string, rest: seq<string>, ended: bool)

  /** The capture loop over the queued lines: before the window opens every
      line is skipped, and the line that opens it too; inside it, the end
      marker closes it, the echo of the end command is dropped, and every
      other line is kept as it came. */
  function Capture(q: seq<string>, begin: string, end: string, started: bool, acc: string): (c: Captured)
    ensures c.ended ==> |c.rest| < |q|
  {
    if q == [] then Captured(acc, [], false)
    else if !started then Capture(q[1..], begin, end, Opens(q[0], begin), acc)
    else if Closes(q[0], end) then Captured(acc, q[1..], true)
    else Capture(q[1..], begin, end, true, if EchoesEnd(q[0], end) then acc else acc + q[0])
  }

  /** The captured text of the lines of a window. */
  function Kept(lines: seq<string>, end: string): string {
    if lines == [] then ""
    else (if EchoesEnd(lines[0], end) then "" else lines[0]) + Kept(lines[1..], end)
  }

  /** Lines before the opening line are skipped. */
  lemma {:induction false} CaptureSkips(pre: seq<string>, q: seq<string>, begin: string, end: string, acc: string)
    requires forall i :: 0 <= i < |pre| ==> !Opens(pre[i], begin)
    ensures Capture(pre + q, begin, end, false, acc) == Capture(q, begin, end, false, acc)
    decreases |pre|
  {
    if pre != [] {
      assert (pre + q)[0] == pre[0] && (pre + q)[1..] == pre[1..] + q;
      CaptureSkips(pre[1..], q, begin, end, acc);
    } else {
      assert pre + q == q;
    }
  }

  /** Inside the window the lines up to the closing one are kept, except
      echoes of the end command. */
  lemma {:induction false} CaptureKeeps(body: seq<string>, close: string, post: seq<string>,
                                        begin: string, end: string, acc: string)
    requires forall i :: 0 <= i < |body| ==> !Closes(body[i], end)
    requires Closes(close, end)
    ensures Capture(body + [close] + post, begin, end, true, acc) == Captured(acc + Kept(body, end), post, true)
    decreases |body|
  {
    var q := body + [close] + post;
    if body == [] {
      assert q == [close] + post;
      assert acc + Kept(body, end) == acc;
    } else {
      assert q[0] == body[0] && q[1..] == body[1..] + [close] + post;
      var acc' := if EchoesEnd(body[0], end) then acc else acc + body[0];
      CaptureKeeps(body[1..], close, post, begin, end, acc');
      AppendAssoc(acc, if EchoesEnd(body[0], end) then "" else body[0], Kept(body[1..], end));
    }
  }

  /** The window: whatever comes before the opening line and after the
      closing line is left out, and the lines between them are kept. */
  lemma CaptureWindow(pre: seq<string>, open: string, body: seq<string>, close: string, post: seq<string>,
                      begin: string, end: string)
    requires forall i :: 0 <= i < |pre| ==> !Opens(pre[i], begin)
    requires Opens(open, begin)
    requires forall i :: 0 <= i < |body| ==> !Closes(body[i], end)
    requires Closes(close, end)
    ensures Capture(pre + [open] + body + [close] + post, begin, end, false, "")
         == Captured(Kept(body, end), post, true)
  {
    var rest := body + [close] + post;
    assert pre + [open] + body + [close] + post == pre + ([open] + rest);
    CaptureSkips(pre, [open] + rest, begin, end, "");
    assert ([open] + rest)[1..] == rest;
    CaptureKeeps(body, close, post, begin, end, "");
    assert "" + Kept(body, end) == Kept(body, end);
  }

  /** The window is never closed when no line closes it. */
  lemma {:induction false} CaptureNeverEnds(q: seq<string>, begin: string, end: string, started: bool, acc: string)
    requires forall i :: 0 <= i < |q| ==> !Closes(q[i], end)
    ensures !Capture(q, begin, end, started, acc).ended
    decreases |q|
  {
    if q != [] {
      CaptureNeverEnds(q[1..], begin, end, if !started then Opens(q[0], begin) else true,
                       if !started || EchoesEnd(q[0], end) then acc else acc + q[0]);
    }
  }

  /** The text a round trip returns: the captured text without its trailing
      CR and LF characters, or the timeout when the window never closed. */
  function Collected(q: seq<string>, begin: string, end: string): (r: Result<string>)
    ensures r.Ok? ==> r.value == Bare(r.value)
  {
    var c := Capture(q, begin, end, false, "");
    if c.ended then Ok(Bare(c.text)) else Err(TimeoutError(InactivityTimeout))
  }

  class SSHCommandExecutor {
    var currentOutput: string
    var stdoutQueue: seq<string>
    var stderrQueue: seq<string>
    /** The reader's unterminated tail. */
    var buf: string
    /** Everything sent on the channel. */
    var sent: string

    /** The reader's tail never holds a complete line. */
    predicate Valid()
      reads this
    {
      '\n' !in buf
    }

    /** A new executor, before its first round trip. */
    constructor()
      ensures Valid()
      ensures currentOutput == "" && stdoutQueue == [] && stderrQueue == [] && buf == "" && sent == ""
    {
      currentOutput := "";
      stdoutQueue := [];
      stderrQueue := [];
      buf := "";
      sent := "";
    }

    /** The reader: the chunk is added to the buffer and every complete line
        in it is queued with its newline. */
    method EnqueueOutput(recv: string)
      modifies this
      ensures Valid()
      ensures var p := SplitOff(old(buf) + recv);
              stdoutQueue == old(stdoutQueue) + p.lines && buf == p.rest
      ensures stderrQueue == old(stderrQueue) && sent == old(sent) && currentOutput == old(currentOutput)
    {
      ghost var p0 := SplitOff(buf + recv);
      buf := buf + recv;
      while '\n' in buf
        invariant stdoutQueue + SplitOff(buf).lines == old(stdoutQueue) + p0.lines
        invariant SplitOff(buf).rest == p0.rest
        invariant stderrQueue == old(stderrQueue) && sent == old(sent) && currentOutput == old(currentOutput)
        decreases |buf|
      {
        NewlineIn(buf);
        var k := NewlineAt(buf);
        var line := buf[..k];
        ghost var q := stdoutQueue;
        ghost var p := SplitOff(buf[k + 1..]);
        SplitOffFirst(buf);
        buf := buf[k + 1..];
        stdoutQueue := stdoutQueue + [line + Newline];
        assert q + ([line + Newline] + p.lines) == stdoutQueue + p.lines;
      }
      PlainSplit(buf);
    }

    /** _drain_queues(): both queues emptied, line by line. */
    method DrainQueues()
      modifies this
      ensures stdoutQueue == [] && stderrQueue == []
      ensures buf == old(buf) && sent == old(sent) && currentOutput == old(currentOutput)
    {
      while stdoutQueue != []
        invariant buf == old(buf) && sent == old(sent) && currentOutput == old(currentOutput)
        decreases |stdoutQueue|
      {
        stdoutQueue := stdoutQueue[1..];
      }
      while stderrQueue != []
        invariant stdoutQueue == []
        invariant buf == old(buf) && sent == old(sent) && currentOutput == old(currentOutput)
        decreases |stderrQueue|
      {
        stderrQueue := stderrQueue[1..];
      }
    }

    /** _collect_between_markers(begin, end): lines are taken from the queue
        as Capture says; the result is as Collected says. */
    method CollectBetweenMarkers(begin: string, end: string) returns (r: Result<string>)
      modifies this
      ensures r == Collected(old(stdoutQueue), begin, end)
      ensures var c := Capture(old(stdoutQueue), begin, end, false, "");
              stdoutQueue == c.rest
      ensures stderrQueue == old(stderrQueue) && buf == old(buf) && sent == old(sent)
      ensures currentOutput == old(currentOutput)
    {
      ghost var c0 := Capture(stdoutQueue, begin, end, false, "");
      var buffer := "";
      var started := false;
      while true
        invariant Capture(stdoutQueue, begin, end, started, buffer) == c0
        invariant stderrQueue == old(stderrQueue) && buf == old(buf) && sent == old(sent)
        invariant currentOutput == old(currentOutput)
        decreases |stdoutQueue|
      {
        if stdoutQueue == [] {
          return Err(TimeoutError(InactivityTimeout));
        }
        var line := stdoutQueue[0];
        stdoutQueue := stdoutQueue[1..];
        var lineStrip := RStripChars(line, LineEnds);
        if !started {
          if lineStrip == begin {
            started := true;
          }
          if EndsWith(lineStrip, "\r" + begin) {
            started := true;
          }
          continue;
        }
        if lineStrip == end {
          break;
        }
        if EndsWith(lineStrip, "\r" + end) {
          break;
        }
        if !EndsWith(lineStrip, "echo " + end) {
          buffer := buffer + line;
        }
      }
      r := Ok(RStripChars(buffer, LineEnds));
    }

    /** _run_and_capture(cmds): the queues are drained, the payload sent, the
        remote shell's chunks received, and the window collected. */
    method RunAndCapture(cmds: seq<string>, token: string, chunks: seq<string>) returns (r: Result<string>)
      requires Valid()
      modifies this
      ensures Valid()
      ensures var p := SplitOff(old(buf) + Concat(chunks));
              r == Collected(p.lines, BeginMarker(token), EndMarker(token))
              && buf == p.rest && sent == old(sent) + Payload(cmds, token)
      ensures currentOutput == old(currentOutput)
    {
      var begin := BeginMarker(token);
      var end := EndMarker(token);
      DrainQueues();
      var script := ["echo " + begin] + cmds + ["echo " + end];
      var payload := Join(Newline, script) + Newline;
      sent := sent + payload;
      ghost var start := buf;
      assert start + Concat(chunks[..0]) == start;
      PlainSplit(start);
      for i := 0 to |chunks|
        invariant var p := SplitOff(start + Concat(chunks[..i]));
                  stdoutQueue == p.lines && buf == p.rest
        invariant sent == old(sent) + Payload(cmds, token) && currentOutput == old(currentOutput)
        invariant Valid()
      {
        EnqueueOutput(chunks[i]);
        ChunkStep(start, chunks[..i], chunks[i]);
        assert chunks[..i + 1] == chunks[..i] + [chunks[i]];
      }
      assert chunks[..|chunks|] == chunks;
      r := CollectBetweenMarkers(begin, end);
    }

    /** execute(command): on success the command gets the captured text and
        exit code 0, and the text becomes the current output; on a timeout
        it gets exit code 1 and the output of the last successful call,
        which stays as it was. */
    method Execute(command: Command, token: string, chunks: seq<string>) returns (code: int, cmd: Command)
      requires Valid()
      modifies this
      ensures Valid()
      ensures var p := SplitOff(old(buf) + Concat(chunks));
              var r := Collected(p.lines, BeginMarker(token), EndMarker(token));
              (r.Ok? ==> code == 0 && currentOutput == r.value
                         && cmd == command.(output := r.value, exitCode := 0))
              && (r.Err? ==> code == 1 && currentOutput == old(currentOutput)
                             && cmd == command.(output := old(currentOutput), exitCode := 1))
    {
      var r := RunAndCapture(command.cmds, token, chunks);
      if r.Ok? {
        currentOutput := r.value;
        cmd := command.(output := currentOutput, exitCode := 0);
        code := 0;
      } else {
        cmd := command.(output := currentOutput, exitCode := 1);
        code := 1;
      }
    }
  }

  /** Reading on from the tail of a buffer: the lines of the buffer, then
      those the next text completes. */
  lemma {:induction false} SplitFromAppend(a: string, b: string, line: string)
    ensures var p := SplitFrom(a, line);
            SplitFrom(a + b, line) == Pieces(p.lines + SplitFrom(b, p.rest).lines, SplitFrom(b, p.rest).rest)
    decreases |a|
  {
    if a == [] {
      assert a + b == b;
      assert [] + SplitFrom(b, line).lines == SplitFrom(b, line).lines;
    } else {
      assert (a + b)[0] == a[0] && (a + b)[1..] == a[1..] + b;
      if a[0] == '\n' {
        SplitFromAppend(a[1..], b, "");
        var p := SplitFrom(a[1..], "");
        var q := SplitFrom(b, p.rest);
        assert [line + Newline] + (p.lines + q.lines) == ([line + Newline] + p.lines) + q.lines;
      } else {
        SplitFromAppend(a[1..], b, line + [a[0]]);
      }
    }
  }

  /** One more chunk received: the lines split so far, then the lines the
      chunk completes from the kept tail. */
  lemma ChunkStep(start: string, cs: seq<string>, chunk: string)
    ensures var p := SplitOff(start + Concat(cs));
            var p' := SplitOff(p.rest + chunk);
            SplitOff(start + Concat(cs + [chunk])) == Pieces(p.lines + p'.lines, p'.rest)
  {
    var seen := start + Concat(cs);
    assert start + Concat(cs + [chunk]) == seen + chunk by {
      ConcatAppend(cs, [chunk]);
      assert Concat([chunk]) == chunk + Concat([]);
      AppendAssoc(start, Concat(cs), chunk);
    }
    var p := SplitOff(seen);
    assert SplitOff(seen + chunk) == Pieces(p.lines + SplitFrom(chunk, p.rest).lines, SplitFrom(chunk, p.rest).rest) by {
      SplitFromAppend(seen, chunk, "");
    }
    assert SplitOff(p.rest + chunk) == SplitFrom(chunk, p.rest) by {
      SplitFromLossless(seen, "");
      SplitFromPlain(p.rest, chunk, "");
      assert "" + p.rest == p.rest;
    }
  }
}
