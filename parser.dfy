/**
 * Extraction of commands from an agent's answer: every fenced code block
 * (a line starting with three backticks opens it, the next such line closes
 * it) becomes one Command whose lines are the block's non-empty lines.
 */
module CommandParser {
  import opened Wrappers
  import opened PyStrings
  import opened Commands

  const Fence: string := "```"

  predicate IsFence(line: string) {
    StartsWith(line, Fence)
  }

  /** The commands produced by the rest of the lines, given the open block
      (its raw type) and the lines collected in it so far. */
  function ParseFrom(lines: seq<string>, block: Option<string>, body: seq<string>): seq<Command>
    decreases |lines|
  {
    if lines == [] then []
    else
      var line := lines[0];
      if IsFence(line) then
        if block.None? then ParseFrom(lines[1..], Some(ReplaceAll(line, Fence, "")), body)
        else [NewCommand(block.value, body)] + ParseFrom(lines[1..], None, [])
      else if block.Some? && |line| > 0 then ParseFrom(lines[1..], block, body + [line])
      else ParseFrom(lines[1..], block, body)
  }

  /** The commands of a whole message. */
  function ParsedCommands(msg: string): seq<Command> {
    ParseFrom(SplitLines(msg), None, [])
  }

  /** Parser.parse */
  method Parse(agentMsg: string) returns (commands: seq<Command>)
    ensures commands == ParsedCommands(agentMsg)
  {
    commands := [];
    var currentBlock: Option<string> := None;
    var currentLines: seq<string> := [];
    var lines := SplitLines(agentMsg);
    for i := 0 to |lines|
      invariant commands + ParseFrom(lines[i..], currentBlock, currentLines) == ParsedCommands(agentMsg)
    {
      var line := lines[i];
      assert lines[i..][0] == line && lines[i..][1..] == lines[i + 1..];
      ghost var before := ParseFrom(lines[i..], currentBlock, currentLines);
      if IsFence(line) {
        if currentBlock.None? {
          currentBlock := Some(ReplaceAll(line, Fence, ""));
          assert before == ParseFrom(lines[i + 1..], currentBlock, currentLines);
        } else {
          var cmd := NewCommand(currentBlock.value, currentLines);
          assert before == [cmd] + ParseFrom(lines[i + 1..], None, []);
          commands := commands + [cmd];
          currentBlock := None;
          currentLines := [];
        }
      } else if currentBlock.Some? && |line| > 0 {
        currentLines := currentLines + [line];
        assert before == ParseFrom(lines[i + 1..], currentBlock, currentLines);
      } else {
        assert before == ParseFrom(lines[i + 1..], currentBlock, currentLines);
      }
    }
    assert lines[|lines|..] == [];
  }

  /** The number of fence lines. */
  function FenceCount(lines: seq<string>): nat {
    if lines == [] then 0 else (if IsFence(lines[0]) then 1 else 0) + FenceCount(lines[1..])
  }

  /** Fences pair up: every second fence closes a block and yields one command,
      so a block still open at the end yields nothing. */
  lemma {:induction false} ParseCount(lines: seq<string>, block: Option<string>, body: seq<string>)
    ensures |ParseFrom(lines, block, body)|
         == (FenceCount(lines) + (if block.Some? then 1 else 0)) / 2
    decreases |lines|
  {
    if lines != [] {
      var line := lines[0];
      if IsFence(line) {
        if block.None? {
          ParseCount(lines[1..], Some(ReplaceAll(line, Fence, "")), body);
        } else {
          ParseCount(lines[1..], None, []);
        }
      } else if block.Some? && |line| > 0 {
        ParseCount(lines[1..], block, body + [line]);
      } else {
        ParseCount(lines[1..], block, body);
      }
    }
  }

  /** A message without fence lines yields no command. */
  lemma NoFencesNoCommands(msg: string)
    requires forall i :: 0 <= i < |SplitLines(msg)| ==> !IsFence(SplitLines(msg)[i])
    ensures ParsedCommands(msg) == []
  {
    NoFencesCount(SplitLines(msg));
    ParseCount(SplitLines(msg), None, []);
  }

  lemma {:induction false} NoFencesCount(lines: seq<string>)
    requires forall i :: 0 <= i < |lines| ==> !IsFence(lines[i])
    ensures FenceCount(lines) == 0
  {
    if lines != [] {
      NoFencesCount(lines[1..]);
    }
  }

  /** Lines a block may hold: non-empty, not a fence, taken verbatim from the input. */
  predicate BlockLine(line: string, lines: seq<string>) {
    |line| > 0 && !IsFence(line) && line in lines
  }

  /** Every command line is a non-empty, non-fence line of the input, and
      every command type is an opening fence line without its backticks,
      normalised. */
  lemma {:induction false} CommandsFromLines(lines: seq<string>, block: Option<string>,
                                             body: seq<string>, all: seq<string>)
    requires forall l :: l in lines ==> l in all
    requires forall l :: l in body ==> BlockLine(l, all)
    requires block.Some? ==> exists f :: f in all && IsFence(f) && block.value == ReplaceAll(f, Fence, "")
    ensures forall c :: c in ParseFrom(lines, block, body) ==>
              (forall l :: l in c.cmds ==> BlockLine(l, all))
              && exists f :: f in all && IsFence(f) && c.cmdType == NormaliseType(ReplaceAll(f, Fence, ""))
    decreases |lines|
  {
    if lines != [] {
      var line := lines[0];
      assert line in all;
      assert forall l :: l in lines[1..] ==> l in lines;
      if IsFence(line) {
        if block.None? {
          CommandsFromLines(lines[1..], Some(ReplaceAll(line, Fence, "")), body, all);
        } else {
          CommandsFromLines(lines[1..], None, [], all);
        }
      } else if block.Some? && |line| > 0 {
        CommandsFromLines(lines[1..], block, body + [line], all);
      } else {
        CommandsFromLines(lines[1..], block, body, all);
      }
    }
  }

  /** The commands of a message are made of its own lines. */
  lemma CommandLinesOfMessage(msg: string)
    ensures forall c :: c in ParsedCommands(msg) ==>
              (forall l :: l in c.cmds ==> BlockLine(l, SplitLines(msg)))
              && exists f :: f in SplitLines(msg) && IsFence(f)
                             && c.cmdType == NormaliseType(ReplaceAll(f, Fence, ""))
  {
    CommandsFromLines(SplitLines(msg), None, [], SplitLines(msg));
  }

  /** The non-empty lines of a block body, in order. */
  function NonEmpty(body: seq<string>): (r: seq<string>)
    ensures forall l :: l in r <==> l in body && |l| > 0
    ensures |r| <= |body|
  {
    if body == [] then []
    else (if |body[0]| > 0 then [body[0]] else []) + NonEmpty(body[1..])
  }

  /** A fence closes the open block and emits its command. */
  lemma CloseStep(lines: seq<string>, tag: string, acc: seq<string>)
    requires lines != [] && IsFence(lines[0])
    ensures ParseFrom(lines, Some(tag), acc) == [NewCommand(tag, acc)] + ParseFrom(lines[1..], None, [])
  {
  }

  /** Any other line inside a block is collected when non-empty. */
  lemma InsideStep(lines: seq<string>, tag: string, acc: seq<string>)
    requires lines != [] && !IsFence(lines[0])
    ensures ParseFrom(lines, Some(tag), acc)
         == ParseFrom(lines[1..], Some(tag), if |lines[0]| > 0 then acc + [lines[0]] else acc)
  {
  }

  /** Collecting the first line, then the non-empty rest, collects the
      non-empty lines of the whole body. */
  lemma NonEmptyCons(acc: seq<string>, body: seq<string>)
    requires body != []
    ensures (if |body[0]| > 0 then acc + [body[0]] else acc) + NonEmpty(body[1..]) == acc + NonEmpty(body)
  {
    var tail := NonEmpty(body[1..]);
    if |body[0]| > 0 {
      assert NonEmpty(body) == [body[0]] + tail;
      assert (acc + [body[0]]) + tail == acc + ([body[0]] + tail);
    } else {
      assert NonEmpty(body) == [] + tail == tail;
    }
  }

  /** Inside an open block, fence-free lines up to the closing fence add
      their non-empty lines to the block, and the fence emits it. */
  lemma {:induction false} BodyRead(tag: string, acc: seq<string>, body: seq<string>,
                                    g: string, rest: seq<string>)
    requires IsFence(g)
    requires forall i :: 0 <= i < |body| ==> !IsFence(body[i])
    ensures ParseFrom(body + [g] + rest, Some(tag), acc)
         == [NewCommand(tag, acc + NonEmpty(body))] + ParseFrom(rest, None, [])
    decreases |body|
  {
    var lines := body + [g] + rest;
    if body == [] {
      assert lines[0] == g && lines[1..] == rest;
      CloseStep(lines, tag, acc);
      assert acc + NonEmpty(body) == acc;
    } else {
      var line := body[0];
      assert lines[0] == line && lines[1..] == body[1..] + [g] + rest;
      var acc' := if |line| > 0 then acc + [line] else acc;
      InsideStep(lines, tag, acc);
      BodyRead(tag, acc', body[1..], g, rest);
      NonEmptyCons(acc, body);
    }
  }

  /** A closed block yields exactly one command, typed by its own opening
      fence without backticks and holding its non-empty lines in order;
      parsing then goes on after the closing fence. */
  lemma BlockRead(f: string, body: seq<string>, g: string, rest: seq<string>)
    requires IsFence(f) && IsFence(g)
    requires forall i :: 0 <= i < |body| ==> !IsFence(body[i])
    ensures ParseFrom([f] + body + [g] + rest, None, [])
         == [NewCommand(ReplaceAll(f, Fence, ""), NonEmpty(body))] + ParseFrom(rest, None, [])
  {
    var lines := [f] + body + [g] + rest;
    assert lines[0] == f && lines[1..] == body + [g] + rest;
    BodyRead(ReplaceAll(f, Fence, ""), [], body, g, rest);
    assert [] + NonEmpty(body) == NonEmpty(body);
  }

  /** Lines outside any block are skipped. */
  lemma {:induction false} TextSkipped(text: seq<string>, rest: seq<string>)
    requires forall i :: 0 <= i < |text| ==> !IsFence(text[i])
    ensures ParseFrom(text + rest, None, []) == ParseFrom(rest, None, [])
    decreases |text|
  {
    if text != [] {
      var lines := text + rest;
      assert lines[0] == text[0] && lines[1..] == text[1..] + rest;
      assert !IsFence(lines[0]);
      assert ParseFrom(lines, None, []) == ParseFrom(lines[1..], None, []);
      TextSkipped(text[1..], rest);
    } else {
      assert text + rest == rest;
    }
  }

  /** A message of prose, one closed block and more prose yields exactly
      that block's command. */
  lemma BlockAmidText(pre: seq<string>, f: string, body: seq<string>, g: string, post: seq<string>)
    requires IsFence(f) && IsFence(g)
    requires forall i :: 0 <= i < |pre| ==> !IsFence(pre[i])
    requires forall i :: 0 <= i < |body| ==> !IsFence(body[i])
    requires forall i :: 0 <= i < |post| ==> !IsFence(post[i])
    ensures ParseFrom(pre + [f] + body + [g] + post, None, [])
         == [NewCommand(ReplaceAll(f, Fence, ""), NonEmpty(body))]
  {
    var block := [f] + body + [g] + post;
    Regroup(pre, [f], body, [g], post);
    TextSkipped(pre, block);
    BlockRead(f, body, g, post);
    ProseOnly(post);
  }

  /** Fence-free lines alone yield no command. */
  lemma ProseOnly(text: seq<string>)
    requires forall i :: 0 <= i < |text| ==> !IsFence(text[i])
    ensures ParseFrom(text, None, []) == []
  {
    TextSkipped(text, []);
    assert text + [] == text;
  }

  lemma Regroup<T>(a: seq<T>, b: seq<T>, c: seq<T>, d: seq<T>, e: seq<T>)
    ensures a + b + c + d + e == a + (b + c + d + e)
  {
  }

  /** Three lines joined by line feeds split back into the three. */
  lemma ThreeLines(a: string, b: string, c: string)
    requires NoLineBreak(a) && NoLineBreak(b) && NoLineBreak(c) && c != []
    ensures SplitLines(a + "\n" + b + "\n" + c) == [a, b, c]
  {
    SplitLinesSingle(c);
    SplitLinesCons(b, c);
    assert a + "\n" + b + "\n" + c == a + "\n" + (b + "\n" + c);
    SplitLinesCons(a, b + "\n" + c);
  }

  /** An opening fence with a tag, one non-empty line and a closing fence
      give one command of that tag holding that line. */
  lemma OneBlock(tag: string, line: string)
    requires '`' !in tag && line != [] && !IsFence(line)
    ensures ParseFrom([Fence + tag, line, Fence], None, []) == [NewCommand(tag, [line])]
  {
    var lines := [Fence + tag, line, Fence];
    assert ReplaceAll(lines[0], Fence, "") == tag by {
      ReplaceLeading(Fence, tag, "");
      ReplaceWithoutFirstChar(tag, Fence, "");
      assert "" + tag == tag;
    }
    assert IsFence(lines[0]) && IsFence(lines[2]);
    assert lines[1..][0] == line && lines[1..][1..] == lines[2..] && [] + [line] == [line];
    assert lines[2..][0] == Fence && lines[2..][1..] == [];
    calc {
      ParseFrom(lines, None, []);
      ParseFrom(lines[1..], Some(tag), []);
      ParseFrom(lines[2..], Some(tag), [line]);
      [NewCommand(tag, [line])] + ParseFrom([], None, []);
    }
  }

  lemma SingleCommandLines()
    ensures SplitLines("```bash\nls -la\n```") == ["```bash", "ls -la", "```"]
  {
    assert "```bash\nls -la\n```" == "```bash" + "\n" + "ls -la" + "\n" + "```";
    ThreeLines("```bash", "ls -la", "```");
  }

  lemma SingleCommandParse()
    ensures ParseFrom(["```bash", "ls -la", "```"], None, []) == [Command(Shell, ["ls -la"], "", 0)]
  {
    assert "```bash" == Fence + "bash";
    assert "ls -la"[0] == 'l';
    OneBlock("bash", "ls -la");
    assert Lower("bash") == "bash";
  }

  /** A single bash block yields one shell command with its one line. */
  lemma SingleCommandExample()
    ensures ParsedCommands("```bash\nls -la\n```") == [Command(Shell, ["ls -la"], "", 0)]
  {
    SingleCommandLines();
    SingleCommandParse();
  }
}
