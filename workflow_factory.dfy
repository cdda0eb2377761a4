/**
 * WorkflowFactory.load_from_mdfile: a new workflow named after the file,
 * whose prompts are read from the file's "# Prompts" section.  Lines are
 * skipped until one starts with "# Prompts"; from then on every line
 * belongs to the section.  A role header ("## User ...", "## Assistant
 * ...", "## System ...") stores the buffered prompt under the current key
 * and opens a new one whose key is the header line without "## "; other
 * lines are buffered once some header has been seen.  Reading the file is
 * outside the model: the loader takes its lines.
 */
module WorkflowFactories {
  import opened Wrappers
  import opened PyStrings
  import opened Dicts
  import opened Prompts
  import opened Workflows
  import opened PromptFactories
  import opened WorkflowWriters

  const PromptsHeading: string := "# Prompts"
  const HeaderMark: string := "## "

  /** The buffer is only ever non-empty under a role. */
  predicate Consistent(content: string, role: Option<string>) {
    (role.Some? ==> role.value in AllowedRoles) && (|content| > 0 ==> role.Some?)
  }

  /** workflow.prompts[key] = Prompt(role, content) for a non-empty buffer. */
  function Store(prompts: Dict<Prompt>, key: string, role: Option<string>, content: string): (r: Dict<Prompt>)
    requires Consistent(content, role)
    ensures |content| > 0 ==> r == Put(prompts, key, NewPrompt(role.value, content).value)
    ensures |content| == 0 ==> r == prompts
  {
    if |content| > 0 then Put(prompts, key, Prompt(role.value, Strip(content))) else prompts
  }

  /** The key a header line opens: the line with every "## " removed, stripped. */
  function KeyOf(line: string): string {
    Strip(ReplaceAll(line, HeaderMark, ""))
  }

  /** The prompts the loader ends with, from the remaining lines and its
      state so far. */
  function SectionFrom(lines: seq<string>, inPrompts: bool, content: string, role: Option<string>,
                       key: string, prompts: Dict<Prompt>): Dict<Prompt>
    requires Consistent(content, role)
    decreases |lines|
  {
    if lines == [] then Store(prompts, key, role, content)
    else
      var line := lines[0];
      if !inPrompts && !StartsWith(line, PromptsHeading) then
        SectionFrom(lines[1..], false, content, role, key, prompts)
      else
        var h := MdRole(Strip(line));
        if h.Some? then
          SectionFrom(lines[1..], true, "", h, KeyOf(line), Store(prompts, key, role, content))
        else
          SectionFrom(lines[1..], true, if role.Some? then content + line else content, role, key, prompts)
  }

  /** The prompts of a workflow file. */
  function WorkflowPrompts(lines: seq<string>): Dict<Prompt> {
    SectionFrom(lines, false, "", None, "", [])
  }

  /** One step of the loader. */
  lemma SectionStep(lines: seq<string>, inPrompts: bool, content: string, role: Option<string>,
                    key: string, prompts: Dict<Prompt>)
    requires Consistent(content, role) && lines != []
    ensures var line := lines[0];
            var h := MdRole(Strip(line));
            (SectionFrom(lines, inPrompts, content, role, key, prompts)
             == if !inPrompts && !StartsWith(line, PromptsHeading) then
                  SectionFrom(lines[1..], false, content, role, key, prompts)
                else if h.Some? then
                  SectionFrom(lines[1..], true, "", h, KeyOf(line), Store(prompts, key, role, content))
                else
                  SectionFrom(lines[1..], true, if role.Some? then content + line else content, role, key, prompts))
  {
  }

  /** load_from_mdfile over the file's lines. */
  method LoadWorkflowLines(filename: string, lines: seq<string>) returns (workflow: Workflow)
    ensures workflow == NewWorkflow(filename).(prompts := WorkflowPrompts(lines))
  {
    workflow := NewWorkflow(filename);
    var inPrompts := false;
    var content := "";
    var role: Option<string> := None;
    var key := "";
    for i := 0 to |lines|
      invariant Consistent(content, role)
      invariant workflow == NewWorkflow(filename).(prompts := workflow.prompts)
      invariant SectionFrom(lines[i..], inPrompts, content, role, key, workflow.prompts) == WorkflowPrompts(lines)
    {
      assert lines[i..][0] == lines[i] && lines[i..][1..] == lines[i + 1..];
      SectionStep(lines[i..], inPrompts, content, role, key, workflow.prompts);
      var line := lines[i];
      if !inPrompts {
        if StartsWith(line, PromptsHeading) {
          inPrompts := true;
        } else {
          continue;
        }
      }
      var lineStrip := Strip(line);
      if StartsWith(lineStrip, UserHeader) {
        if |content| > 0 {
          workflow := workflow.(prompts := Put(workflow.prompts, key, NewPrompt(role.value, content).value));
          content := "";
        }
        role := Some(User);
        key := Strip(ReplaceAll(line, HeaderMark, ""));
      } else if StartsWith(lineStrip, AssistantHeader) {
        if |content| > 0 {
          workflow := workflow.(prompts := Put(workflow.prompts, key, NewPrompt(role.value, content).value));
          content := "";
        }
        role := Some(Assistant);
        key := Strip(ReplaceAll(line, HeaderMark, ""));
      } else if StartsWith(lineStrip, SystemHeader) {
        if |content| > 0 {
          workflow := workflow.(prompts := Put(workflow.prompts, key, NewPrompt(role.value, content).value));
          content := "";
        }
        role := Some(System);
        key := Strip(ReplaceAll(line, HeaderMark, ""));
      } else {
        if role.Some? {
          content := content + line;
        }
      }
    }
    assert lines[|lines|..] == [];
    if |content| > 0 {
      workflow := workflow.(prompts := Put(workflow.prompts, key, NewPrompt(role.value, content).value));
    }
  }

  // ---------------------------------------------------------------------
  // Properties of the loader

  /** Lines before the first one starting with "# Prompts" are skipped. */
  lemma {:induction false} PreambleSkipped(pre: seq<string>, rest: seq<string>, content: string,
                                           role: Option<string>, key: string, prompts: Dict<Prompt>)
    requires Consistent(content, role)
    requires forall i :: 0 <= i < |pre| ==> !StartsWith(pre[i], PromptsHeading)
    ensures SectionFrom(pre + rest, false, content, role, key, prompts)
         == SectionFrom(rest, false, content, role, key, prompts)
    decreases |pre|
  {
    if pre == [] {
      assert pre + rest == rest;
    } else {
      SectionStep(pre + rest, false, content, role, key, prompts);
      assert (pre + rest)[0] == pre[0] && (pre + rest)[1..] == pre[1..] + rest;
      PreambleSkipped(pre[1..], rest, content, role, key, prompts);
    }
  }

  /** A file without a "# Prompts" line gives a workflow without prompts. */
  lemma NoPromptsSection(lines: seq<string>)
    requires forall i :: 0 <= i < |lines| ==> !StartsWith(lines[i], PromptsHeading)
    ensures WorkflowPrompts(lines) == []
  {
    PreambleSkipped(lines, [], "", None, "", []);
    assert lines + [] == lines;
  }

  /** Inside the section, lines before the first role header are dropped,
      whatever they hold (later "# " headings included). */
  lemma {:induction false} OrphanLinesDropped(body: seq<string>, rest: seq<string>, key: string,
                                              prompts: Dict<Prompt>)
    requires forall i :: 0 <= i < |body| ==> MdRole(Strip(body[i])).None?
    ensures SectionFrom(body + rest, true, "", None, key, prompts)
         == SectionFrom(rest, true, "", None, key, prompts)
    decreases |body|
  {
    if body == [] {
      assert body + rest == rest;
    } else {
      SectionStep(body + rest, true, "", None, key, prompts);
      assert (body + rest)[0] == body[0] && (body + rest)[1..] == body[1..] + rest;
      OrphanLinesDropped(body[1..], rest, key, prompts);
    }
  }

  /** Under a role, a line that is not a role header is buffered. */
  lemma BodyStep(lines: seq<string>, content: string, role: string, key: string, prompts: Dict<Prompt>)
    requires role in AllowedRoles && lines != [] && MdRole(Strip(lines[0])).None?
    ensures SectionFrom(lines, true, content, Some(role), key, prompts)
         == SectionFrom(lines[1..], true, content + lines[0], Some(role), key, prompts)
  {
    SectionStep(lines, true, content, Some(role), key, prompts);
  }

  /** Inside the section, under a role, every line that is not a role header
      is buffered verbatim: the section never ends, and "# " headings after
      it are prompt text. */
  lemma {:induction false} BodyLinesBuffered(body: seq<string>, rest: seq<string>, content: string,
                                             role: string, key: string, prompts: Dict<Prompt>)
    requires role in AllowedRoles
    requires forall i :: 0 <= i < |body| ==> MdRole(Strip(body[i])).None?
    ensures SectionFrom(body + rest, true, content, Some(role), key, prompts)
         == SectionFrom(rest, true, content + Concat(body), Some(role), key, prompts)
    decreases |body|
  {
    if body == [] {
      assert body + rest == rest;
      assert content + Concat(body) == content;
    } else {
      var line := body[0];
      assert MdRole(Strip(line)).None?;
      assert (body + rest)[0] == line && (body + rest)[1..] == body[1..] + rest;
      BodyStep(body + rest, content, role, key, prompts);
      BodyLinesBuffered(body[1..], rest, content + line, role, key, prompts);
      AppendAssoc(content, body[0], Concat(body[1..]));
    }
  }

  /** A role header stores the buffered prompt and opens the header's role
      under the header's key. */
  lemma HeaderStores(line: string, rest: seq<string>, content: string, role: Option<string>,
                     key: string, prompts: Dict<Prompt>)
    requires Consistent(content, role) && MdRole(Strip(line)).Some?
    ensures SectionFrom([line] + rest, true, content, role, key, prompts)
         == SectionFrom(rest, true, "", MdRole(Strip(line)), KeyOf(line), Store(prompts, key, role, content))
  {
    SectionStep([line] + rest, true, content, role, key, prompts);
    assert ([line] + rest)[1..] == rest;
  }

  // ---------------------------------------------------------------------
  // Reading back what the workflow writer saves

  /** A prompt entry the loader reads back: its key starts with the role's
      title (so its header line opens that role), and neither key nor body
      is mistaken for something else. */
  predicate Readable(key: string, p: Prompt) {
    p.role in AllowedRoles
    && StartsWith(HeaderMark + key, Header(p.role))
    && Trimmed(key) && '#' !in key
    && Trimmed(p.content) && MdRole(p.content).None?
  }

  /** The lines _write_prompts produces for one entry. */
  function EntryLines(key: string, p: Prompt): seq<string> {
    [HeaderMark + key + "\n", "\n", p.content + "\n", "\n"]
  }

  function EntriesLines(ps: Dict<Prompt>): seq<string> {
    if ps == [] then [] else EntryLines(ps[0].0, ps[0].1) + EntriesLines(ps[1..])
  }

  /** The lines of the prompts section. */
  function SectionLines(ps: Dict<Prompt>): seq<string> {
    [PromptsHeading + "\n", "\n"] + EntriesLines(ps)
  }

  lemma Concat3(ls: seq<string>)
    requires |ls| == 3
    ensures Concat(ls) == ls[0] + (ls[1] + ls[2])
  {
    assert ls[1..][1..][1..] == [];
    assert Concat(ls[1..][1..]) == ls[2] + "";
    assert ls[2] + "" == ls[2];
  }

  /** One entry's lines hold exactly the writer's text for it. */
  lemma EntryLinesText(key: string, p: Prompt)
    ensures Concat(EntryLines(key, p)) == PromptsText([(key, p)])
  {
    PromptsTextSingle(key, p);
    var ls := EntryLines(key, p);
    calc {
      Concat(ls);
      { Concat3(ls[1..]); assert ls == [ls[0]] + ls[1..]; }
      HeaderMark + key + "\n" + ("\n" + (p.content + "\n" + "\n"));
      { AppendAssoc3(HeaderMark + key, "\n", "\n", p.content + "\n" + "\n"); }
      HeaderMark + key + ("\n" + "\n" + (p.content + "\n" + "\n"));
      { assert "\n" + "\n" == "\n\n"; AppendAssoc(p.content, "\n", "\n"); }
      HeaderMark + key + ("\n\n" + (p.content + "\n\n"));
      { AppendAssoc3(HeaderMark + key, "\n\n", p.content, "\n\n"); }
      HeaderMark + key + "\n\n" + p.content + "\n\n";
    }
  }

  /** The entries' lines hold exactly the writer's text for the prompts. */
  lemma {:induction false} EntriesLinesText(ps: Dict<Prompt>)
    ensures Concat(EntriesLines(ps)) == PromptsText(ps)
    decreases |ps|
  {
    if ps != [] {
      calc {
        Concat(EntriesLines(ps));
        { ConcatAppend(EntryLines(ps[0].0, ps[0].1), EntriesLines(ps[1..])); }
        Concat(EntryLines(ps[0].0, ps[0].1)) + Concat(EntriesLines(ps[1..]));
        { EntryLinesText(ps[0].0, ps[0].1); EntriesLinesText(ps[1..]); }
        PromptsText([(ps[0].0, ps[0].1)]) + PromptsText(ps[1..]);
        { PromptsTextSplit(ps, 1); assert ps[..1] == [(ps[0].0, ps[0].1)]; }
        PromptsText(ps);
      }
    }
  }

  /** The section's lines hold exactly the text _write_prompts writes. */
  lemma SectionLinesText(ps: Dict<Prompt>)
    ensures Concat(SectionLines(ps)) == PromptsSection(ps)
  {
    var ls := SectionLines(ps);
    calc {
      Concat(ls);
      { assert ls[1..][1..] == EntriesLines(ps); }
      PromptsHeading + "\n" + ("\n" + Concat(EntriesLines(ps)));
      { EntriesLinesText(ps); }
      PromptsHeading + "\n" + ("\n" + PromptsText(ps));
      { AppendAssoc(PromptsHeading + "\n", "\n", PromptsText(ps)); }
      PromptsHeading + "\n" + "\n" + PromptsText(ps);
      { AppendAssoc(PromptsHeading, "\n", "\n"); assert "\n" + "\n" == "\n\n"; }
      PromptsHeading + "\n\n" + PromptsText(ps);
    }
  }

  /** The header line of a readable entry opens its role under its key. */
  lemma EntryHeaderRead(key: string, p: Prompt)
    requires Readable(key, p)
    ensures MdRole(Strip(HeaderMark + key + "\n")) == Some(p.role)
    ensures KeyOf(HeaderMark + key + "\n") == key
  {
    var line := HeaderMark + key + "\n";
    var head := HeaderMark + key;
    assert head[0] == '#' && head[|head| - 1] == key[|key| - 1];
    StripLine(head);
    MdRoleOfHeader(p.role, head);
    assert line == HeaderMark + (key + "\n");
    ReplaceLeading(HeaderMark, key + "\n", "");
    ReplaceWithoutFirstChar(key + "\n", HeaderMark, "");
    assert "" + (key + "\n") == key + "\n";
    StripLine(key);
  }

  /** Neither the blank line nor the body line of a readable entry is a
      role header. */
  lemma EntryBodyPlain(c: string)
    requires MdRole(c).None? && Trimmed(c)
    ensures var body := ["\n", c + "\n", "\n"];
            forall i :: 0 <= i < |body| ==> MdRole(Strip(body[i])).None?
  {
    var body := ["\n", c + "\n", "\n"];
    forall i | 0 <= i < |body|
      ensures MdRole(Strip(body[i])).None?
    {
      if i == 1 {
        StripLine(c);
      } else {
        StripLine("");
        assert "" + "\n" == "\n";
      }
    }
  }

  /** The three lines after a header, joined. */
  lemma EntryBodyText(c: string)
    ensures "" + Concat(["\n", c + "\n", "\n"]) == "\n" + c + "\n" + "\n"
  {
    var body := ["\n", c + "\n", "\n"];
    calc {
      "" + Concat(body);
      { Concat3(body); }
      "\n" + (c + "\n" + "\n");
      { AppendAssoc("\n", c + "\n", "\n"); AppendAssoc("\n", c, "\n"); }
      "\n" + c + "\n" + "\n";
    }
  }

  /** The buffer of a readable entry: its blank line, its body line and the
      blank line after it. */
  lemma EntryBodyRead(key: string, p: Prompt, rest: seq<string>, prompts: Dict<Prompt>)
    requires Readable(key, p)
    ensures SectionFrom(["\n", p.content + "\n", "\n"] + rest, true, "", Some(p.role), key, prompts)
         == SectionFrom(rest, true, "\n" + p.content + "\n" + "\n", Some(p.role), key, prompts)
  {
    var body := ["\n", p.content + "\n", "\n"];
    EntryBodyPlain(p.content);
    BodyLinesBuffered(body, rest, "", p.role, key, prompts);
    EntryBodyText(p.content);
  }

  /** A buffer of one readable entry stores exactly the entry's prompt. */
  lemma EntryStored(key: string, p: Prompt, prompts: Dict<Prompt>)
    requires Readable(key, p)
    ensures Store(prompts, key, Some(p.role), "\n" + p.content + "\n" + "\n") == Put(prompts, key, p)
  {
    var tail := "\n\n";
    assert tail[0] == '\n' && tail[1] == '\n';
    StripPadded("\n", p.content, tail);
    AppendAssoc("\n" + p.content, "\n", "\n");
    assert "\n" + "\n" == tail;
  }

  /** One entry read: the open buffer is stored and the entry's buffer is
      left open. */
  lemma EntryRead(key: string, p: Prompt, rest: seq<string>, content: string, role: Option<string>,
                  k0: string, prompts: Dict<Prompt>)
    requires Consistent(content, role) && Readable(key, p)
    ensures SectionFrom(EntryLines(key, p) + rest, true, content, role, k0, prompts)
         == SectionFrom(rest, true, "\n" + p.content + "\n" + "\n", Some(p.role), key,
                        Store(prompts, k0, role, content))
  {
    var line := HeaderMark + key + "\n";
    var after := ["\n", p.content + "\n", "\n"] + rest;
    calc {
      SectionFrom(EntryLines(key, p) + rest, true, content, role, k0, prompts);
      { assert EntryLines(key, p) + rest == [line] + after; }
      SectionFrom([line] + after, true, content, role, k0, prompts);
      { EntryHeaderRead(key, p); HeaderStores(line, after, content, role, k0, prompts); }
      SectionFrom(after, true, "", Some(p.role), key, Store(prompts, k0, role, content));
      { EntryBodyRead(key, p, rest, Store(prompts, k0, role, content)); }
      SectionFrom(rest, true, "\n" + p.content + "\n" + "\n", Some(p.role), key, Store(prompts, k0, role, content));
    }
  }

  /** Reading the entries: the open buffer is stored, then every entry is
      put in order. */
  lemma {:induction false} EntriesRead(ps: Dict<Prompt>, content: string, role: Option<string>,
                                       key: string, prompts: Dict<Prompt>)
    requires Consistent(content, role)
    requires forall i :: 0 <= i < |ps| ==> Readable(ps[i].0, ps[i].1)
    ensures SectionFrom(EntriesLines(ps), true, content, role, key, prompts)
         == PutAll(Store(prompts, key, role, content), ps)
    decreases |ps|
  {
    if ps == [] {
      assert SectionFrom([], true, content, role, key, prompts) == Store(prompts, key, role, content);
    } else {
      var k, p := ps[0].0, ps[0].1;
      assert Readable(k, p);
      var stored := Store(prompts, key, role, content);
      calc {
        SectionFrom(EntriesLines(ps), true, content, role, key, prompts);
        { EntryRead(k, p, EntriesLines(ps[1..]), content, role, key, prompts); }
        SectionFrom(EntriesLines(ps[1..]), true, "\n" + p.content + "\n" + "\n", Some(p.role), k, stored);
        { EntriesRead(ps[1..], "\n" + p.content + "\n" + "\n", Some(p.role), k, stored); }
        PutAll(Store(stored, k, Some(p.role), "\n" + p.content + "\n" + "\n"), ps[1..]);
        { EntryStored(k, p, stored); }
        PutAll(Put(stored, k, p), ps[1..]);
        PutAll(stored, ps);
      }
    }
  }

  /** A trimmed line whose second character is not '#' is no role header. */
  lemma PlainLine(s: string)
    requires Trimmed(s) && |s| >= 2 && s[1] != '#'
    ensures MdRole(Strip(s + "\n")).None?
  {
    StripLine(s);
    assert UserHeader[1] == '#' && AssistantHeader[1] == '#' && SystemHeader[1] == '#';
  }

  /** A blank line is no role header. */
  lemma BlankLinePlain()
    ensures forall i :: 0 <= i < |["\n"]| ==> MdRole(Strip(["\n"][i])).None?
  {
    StripLine("");
    assert "" + "\n" == "\n";
  }

  /** The "# Prompts" line opens the section and is no role header. */
  lemma HeadingLinePlain()
    ensures StartsWith(PromptsHeading + "\n", PromptsHeading)
    ensures MdRole(Strip(PromptsHeading + "\n")).None?
  {
    var h := PromptsHeading;
    assert h[0] == '#' && h[1] == ' ' && h[|h| - 1] == 's';
    PlainLine(h);
  }

  /** The two lines before the entries open the section and buffer nothing. */
  lemma SectionHeadRead(ps: Dict<Prompt>)
    ensures SectionFrom(SectionLines(ps), false, "", None, "", [])
         == SectionFrom(EntriesLines(ps), true, "", None, "", [])
  {
    var ls := SectionLines(ps);
    HeadingLinePlain();
    BlankLinePlain();
    SectionStep(ls, false, "", None, "", []);
    assert ls[1..] == ["\n"] + EntriesLines(ps);
    OrphanLinesDropped(["\n"], EntriesLines(ps), "", []);
  }

  /** What the writer saves as the prompts section is read back as the same
      prompts, in the same order, behind any preamble without a "# Prompts"
      line (the general and flowchart sections of a definition file). */
  lemma SectionRoundTrip(pre: seq<string>, ps: Dict<Prompt>)
    requires forall i :: 0 <= i < |pre| ==> !StartsWith(pre[i], PromptsHeading)
    requires UniqueKeys(ps)
    requires forall i :: 0 <= i < |ps| ==> Readable(ps[i].0, ps[i].1)
    ensures WorkflowPrompts(pre + SectionLines(ps)) == ps
  {
    PreambleSkipped(pre, SectionLines(ps), "", None, "", []);
    SectionHeadRead(ps);
    EntriesRead(ps, "", None, "", []);
    assert [] + ps == ps;
    PutAllFresh([], ps);
  }
}
