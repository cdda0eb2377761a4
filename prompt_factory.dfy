/**
 * PromptFactory: loading a list of prompts from a file.  `load` picks the
 * loader by the file name's suffix; the markdown and plain-text loaders walk
 * the file's lines (as `readlines` returns them) with a current role and a
 * content buffer, emitting a prompt whenever a role marker ends a non-empty
 * buffer.  Reading the file is outside the model: the loaders take its lines,
 * and the JSON loader's decoded prompts are a parameter.
 */
module PromptFactories {
  import opened Wrappers
  import opened PyStrings
  import opened Prompts

  datatype FileType = JsonFile | MarkdownFile | PlainTextFile

  /** The ValueError text of load for any other suffix. */
  function UnsupportedError(path: string): string {
    "Unsupported file type: " + path
  }

  /** The suffixes end in different characters, so a path has at most one. */
  lemma SuffixesExclusive(path: string)
    ensures EndsWith(path, ".json") ==> path[|path| - 1] == 'n'
    ensures EndsWith(path, ".md") ==> path[|path| - 1] == 'd'
    ensures EndsWith(path, ".txt") ==> path[|path| - 1] == 't'
  {
    if EndsWith(path, ".json") {
      assert path[|path| - 1] == path[|path| - 5..][4];
    }
    if EndsWith(path, ".md") {
      assert path[|path| - 1] == path[|path| - 3..][2];
    }
    if EndsWith(path, ".txt") {
      assert path[|path| - 1] == path[|path| - 4..][3];
    }
  }

  /** load's dispatch: .json, then .md, then .txt; anything else raises. */
  function FileTypeOf(path: string): (r: Result<FileType>)
    ensures r == Ok(JsonFile) <==> EndsWith(path, ".json")
    ensures r == Ok(MarkdownFile) <==> EndsWith(path, ".md")
    ensures r == Ok(PlainTextFile) <==> EndsWith(path, ".txt")
    ensures r.Err? <==> !EndsWith(path, ".json") && !EndsWith(path, ".md") && !EndsWith(path, ".txt")
    ensures r.Err? ==> r.error == ValueError(UnsupportedError(path))
  {
    SuffixesExclusive(path);
    if EndsWith(path, ".json") then Ok(JsonFile)
    else if EndsWith(path, ".md") then Ok(MarkdownFile)
    else if EndsWith(path, ".txt") then Ok(PlainTextFile)
    else Err(ValueError(UnsupportedError(path)))
  }

  /** A non-empty buffer becomes one prompt of the current role (the Prompt
      constructor strips it); an empty one becomes nothing. */
  function Flush(role: string, content: string): (r: seq<Prompt>)
    requires role in AllowedRoles
    ensures |content| > 0 ==> r == [NewPrompt(role, content).value]
    ensures |content| == 0 ==> r == []
  {
    if |content| > 0 then [Prompt(role, Strip(content))] else []
  }

  // ---------------------------------------------------------------------
  // Markdown loader
  // ---------------------------------------------------------------------

  const UserHeader: string := "## User"
  const AssistantHeader: string := "## Assistant"
  const SystemHeader: string := "## System"

  /** The markdown header that switches to a role. */
  function Header(role: string): string {
    if role == User then UserHeader else if role == Assistant then AssistantHeader else SystemHeader
  }

  /** The role a stripped markdown line switches to, the three headers being
      tried in the loader's order (user, assistant, system). */
  function MdRole(lineStrip: string): (r: Option<string>)
    ensures r.Some? ==> r.value in AllowedRoles && StartsWith(lineStrip, Header(r.value))
    ensures r.None? <==> !StartsWith(lineStrip, UserHeader) && !StartsWith(lineStrip, AssistantHeader)
                         && !StartsWith(lineStrip, SystemHeader)
  {
    if StartsWith(lineStrip, UserHeader) then Some(User)
    else if StartsWith(lineStrip, AssistantHeader) then Some(Assistant)
    else if StartsWith(lineStrip, SystemHeader) then Some(System)
    else None
  }

  /** The headers differ at their fourth character, so a line starts with at
      most one of them and MdRole names exactly that one. */
  lemma MdRoleOfHeader(role: string, lineStrip: string)
    requires role in AllowedRoles && StartsWith(lineStrip, Header(role))
    ensures MdRole(lineStrip) == Some(role)
  {
    assert lineStrip[3] == Header(role)[3];
    assert UserHeader[3] == 'U' && AssistantHeader[3] == 'A' && SystemHeader[3] == 'S';
  }

  /** What the markdown loader emits for the remaining lines, given the
      buffer and role so far. */
  function MdFrom(lines: seq<string>, content: string, role: string): (r: seq<Prompt>)
    requires role in AllowedRoles
    decreases |lines|
  {
    if lines == [] then Flush(role, content)
    else
      var h := MdRole(Strip(lines[0]));
      if h.Some? then Flush(role, content) + MdFrom(lines[1..], "", h.value)
      else MdFrom(lines[1..], content + lines[0], role)
  }

  /** load_from_mdfile over the file's lines: the role starts as user. */
  function MarkdownPrompts(lines: seq<string>): seq<Prompt> {
    MdFrom(lines, "", User)
  }

  /** The markdown loader's loop. */
  method LoadMarkdownLines(lines: seq<string>) returns (result: seq<Prompt>)
    ensures result == MarkdownPrompts(lines)
  {
    result := [];
    var content := "";
    var role := User;
    for i := 0 to |lines|
      invariant role in AllowedRoles
      invariant result + MdFrom(lines[i..], content, role) == MarkdownPrompts(lines)
    {
      assert lines[i..][0] == lines[i] && lines[i..][1..] == lines[i + 1..];
      var line := lines[i];
      var lineStrip := Strip(line);
      ghost var h := MdRole(lineStrip);
      ghost var r0, c0, role0 := result, content, role;
      if StartsWith(lineStrip, UserHeader) {
        if |content| > 0 {
          result := result + [NewPrompt(role, content).value];
          content := "";
        }
        role := User;
      } else if StartsWith(lineStrip, AssistantHeader) {
        if |content| > 0 {
          result := result + [NewPrompt(role, content).value];
          content := "";
        }
        role := Assistant;
      } else if StartsWith(lineStrip, SystemHeader) {
        if |content| > 0 {
          result := result + [NewPrompt(role, content).value];
          content := "";
        }
        role := System;
      } else {
        content := content + line;
      }
      MdStep(lines[i..], c0, role0);
      if h.Some? {
        assert result == r0 + Flush(role0, c0) && content == "" && role == h.value;
        PromptsAssoc(r0, Flush(role0, c0), MdFrom(lines[i + 1..], content, role));
      }
    }
    assert lines[|lines|..] == [];
    if |content| > 0 {
      result := result + [NewPrompt(role, content).value];
    }
  }

  lemma PromptsAssoc(a: seq<Prompt>, b: seq<Prompt>, c: seq<Prompt>)
    ensures a + (b + c) == a + b + c
  {
  }

  /** One step of the markdown loader. */
  lemma MdStep(lines: seq<string>, content: string, role: string)
    requires role in AllowedRoles && lines != []
    ensures var h := MdRole(Strip(lines[0]));
            (MdFrom(lines, content, role)
             == if h.Some? then Flush(role, content) + MdFrom(lines[1..], "", h.value)
                else MdFrom(lines[1..], content + lines[0], role))
  {
  }

  /** Lines without a header are appended verbatim to the buffer. */
  lemma {:induction false} MdPlainLines(lines: seq<string>, content: string, role: string)
    requires role in AllowedRoles
    requires forall i :: 0 <= i < |lines| ==> MdRole(Strip(lines[i])).None?
    ensures MdFrom(lines, content, role) == Flush(role, content + Concat(lines))
    decreases |lines|
  {
    if lines == [] {
      assert content + Concat(lines) == content;
    } else {
      assert MdRole(Strip(lines[0])).None?;
      MdPlainLines(lines[1..], content + lines[0], role);
      AppendAssoc(content, lines[0], Concat(lines[1..]));
    }
  }

  /** A file without headers is one user prompt holding the whole text
      stripped, or nothing when the text is empty. */
  lemma MarkdownWithoutHeaders(lines: seq<string>)
    requires forall i :: 0 <= i < |lines| ==> MdRole(Strip(lines[i])).None?
    ensures |Concat(lines)| > 0 ==> MarkdownPrompts(lines) == [Prompt(User, Strip(Concat(lines)))]
    ensures |Concat(lines)| == 0 ==> MarkdownPrompts(lines) == []
  {
    MdPlainLines(lines, "", User);
    assert "" + Concat(lines) == Concat(lines);
  }

  /** A content the loaders give back unchanged: already stripped, non-empty. */
  predicate Trimmed(s: string) {
    s != [] && !IsSpace(s[0]) && !IsSpace(s[|s| - 1])
  }

  /** A prompt the markdown writer form can hold: its body line is not
      itself taken for a header. */
  predicate MdWritable(p: Prompt) {
    p.role in AllowedRoles && Trimmed(p.content) && MdRole(p.content).None?
  }

  /** One prompt in markdown: its header line and its content line. */
  function MdBlock(p: Prompt): seq<string> {
    [Header(p.role) + "\n", p.content + "\n"]
  }

  /** Prompts in markdown, blocks separated by one blank line. */
  function RenderMd(ps: seq<Prompt>): seq<string> {
    if ps == [] then []
    else if |ps| == 1 then MdBlock(ps[0])
    else MdBlock(ps[0]) + ["\n"] + RenderMd(ps[1..])
  }

  lemma StripLine(s: string)
    requires s == [] || (!IsSpace(s[0]) && !IsSpace(s[|s| - 1]))
    ensures Strip(s + "\n") == s
  {
    StripTrailing(s, "\n");
  }

  /** A written header line switches to its role. */
  lemma HeaderLineRead(role: string)
    requires role in AllowedRoles
    ensures MdRole(Strip(Header(role) + "\n")) == Some(role)
  {
    var h := Header(role);
    assert h[0] == '#' && h[|h| - 1] in "rmt";
    StripLine(h);
    MdRoleOfHeader(role, h);
  }

  /** The loader reads a header line and a body line back into an open
      buffer holding the body. */
  lemma MdBlockRead(p: Prompt, rest: seq<string>, content: string, role: string)
    requires role in AllowedRoles && MdWritable(p)
    ensures MdFrom(MdBlock(p) + rest, content, role)
         == Flush(role, content) + MdFrom(rest, p.content + "\n", p.role)
  {
    assert Trimmed(p.content) && MdRole(p.content).None?;
    StripLine(p.content);
    var ls := MdBlock(p) + rest;
    assert ls[0] == Header(p.role) + "\n" && ls[1..][0] == p.content + "\n" && ls[1..][1..] == rest;
    HeaderLineRead(p.role);
    MdStep(ls, content, role);
    MdStep(ls[1..], "", p.role);
    assert "" + (p.content + "\n") == p.content + "\n";
  }

  /** A blank separator line only adds a line break to the buffer. */
  lemma MdBlankRead(rest: seq<string>, content: string, role: string)
    requires role in AllowedRoles
    ensures MdFrom(["\n"] + rest, content, role) == MdFrom(rest, content + "\n", role)
  {
    StripTrailing("", "\n");
    assert "" + "\n" == "\n";
    MdStep(["\n"] + rest, content, role);
    assert (["\n"] + rest)[1..] == rest;
  }

  /** A buffer holding a body and line breaks flushes to the prompt itself. */
  lemma FlushBody(p: Prompt, breaks: string)
    requires p.role in AllowedRoles && Trimmed(p.content)
    requires forall i :: 0 <= i < |breaks| ==> IsSpace(breaks[i])
    ensures Flush(p.role, p.content + breaks) == [p]
  {
    StripTrailing(p.content, breaks);
  }

  /** The last block flushes to its own prompt at the end of the file. */
  lemma MdLastBlock(p: Prompt, content: string, role: string)
    requires role in AllowedRoles && MdWritable(p)
    ensures MdFrom(MdBlock(p), content, role) == Flush(role, content) + [p]
  {
    calc {
      MdFrom(MdBlock(p), content, role);
      { assert MdBlock(p) + [] == MdBlock(p); }
      MdFrom(MdBlock(p) + [], content, role);
      { MdBlockRead(p, [], content, role); }
      Flush(role, content) + MdFrom([], p.content + "\n", p.role);
      Flush(role, content) + Flush(p.role, p.content + "\n");
      { FlushBody(p, "\n"); }
      Flush(role, content) + [p];
    }
  }

  /** A block followed by a blank line: the body and both line breaks stay
      in the buffer until the next header. */
  lemma MdInnerBlock(p: Prompt, rest: seq<string>, content: string, role: string)
    requires role in AllowedRoles && MdWritable(p)
    ensures MdFrom(MdBlock(p) + ["\n"] + rest, content, role)
         == Flush(role, content) + MdFrom(rest, p.content + "\n\n", p.role)
  {
    calc {
      MdFrom(MdBlock(p) + ["\n"] + rest, content, role);
      { assert MdBlock(p) + ["\n"] + rest == MdBlock(p) + (["\n"] + rest); }
      MdFrom(MdBlock(p) + (["\n"] + rest), content, role);
      { MdBlockRead(p, ["\n"] + rest, content, role); }
      Flush(role, content) + MdFrom(["\n"] + rest, p.content + "\n", p.role);
      { MdBlankRead(rest, p.content + "\n", p.role); }
      Flush(role, content) + MdFrom(rest, p.content + "\n" + "\n", p.role);
      { AppendAssoc(p.content, "\n", "\n"); assert "\n" + "\n" == "\n\n"; }
      Flush(role, content) + MdFrom(rest, p.content + "\n\n", p.role);
    }
  }

  /** Reading prompts back from their markdown form: the open buffer is
      emitted first, then exactly the prompts written. */
  lemma {:induction false} MdRoundTrip(ps: seq<Prompt>, content: string, role: string)
    requires role in AllowedRoles
    requires forall i :: 0 <= i < |ps| ==> MdWritable(ps[i])
    ensures MdFrom(RenderMd(ps), content, role) == Flush(role, content) + ps
    decreases |ps|
  {
    if ps == [] {
      assert Flush(role, content) + ps == Flush(role, content);
    } else {
      var p := ps[0];
      assert MdWritable(p);
      if |ps| == 1 {
        MdLastBlock(p, content, role);
        assert ps == [p];
      } else {
        calc {
          MdFrom(RenderMd(ps), content, role);
          { MdInnerBlock(p, RenderMd(ps[1..]), content, role); }
          Flush(role, content) + MdFrom(RenderMd(ps[1..]), p.content + "\n\n", p.role);
          { MdRoundTrip(ps[1..], p.content + "\n\n", p.role); }
          Flush(role, content) + (Flush(p.role, p.content + "\n\n") + ps[1..]);
          { var breaks := "\n\n";
            assert breaks[0] == '\n' && breaks[1] == '\n';
            FlushBody(p, breaks); }
          Flush(role, content) + ([p] + ps[1..]);
          { assert ps == [p] + ps[1..]; }
          Flush(role, content) + ps;
        }
      }
    }
  }

  /** The prompts of the loader tests: a system, a user and an assistant
      prompt, in that order. */
  function TestPrompts(): seq<Prompt> {
    [Prompt(System, "System prompt"), Prompt(User, "User prompt"), Prompt(Assistant, "Assistant response")]
  }

  /** The lines of the markdown test file. */
  function MarkdownTestLines(): seq<string> {
    ["## System\n", "System prompt\n", "\n", "## User\n", "User prompt\n", "\n",
     "## Assistant\n", "Assistant response\n"]
  }

  /** The markdown test file is the markdown form of the test prompts. */
  lemma MarkdownTestRendered()
    ensures RenderMd(TestPrompts()) == MarkdownTestLines()
  {
    var ps := TestPrompts();
    var b0, b1, b2 := MdBlock(ps[0]), MdBlock(ps[1]), MdBlock(ps[2]);
    assert b0 == ["## System\n", "System prompt\n"] by {
      assert Header(System) == SystemHeader && SystemHeader + "\n" == "## System\n";
      assert b0[1] == "System prompt" + "\n" == "System prompt\n";
    }
    assert b1 == ["## User\n", "User prompt\n"] by {
      assert Header(User) == UserHeader && UserHeader + "\n" == "## User\n";
      assert b1[1] == "User prompt" + "\n" == "User prompt\n";
    }
    assert b2 == ["## Assistant\n", "Assistant response\n"] by {
      assert Header(Assistant) == AssistantHeader && AssistantHeader + "\n" == "## Assistant\n";
      assert b2[1] == "Assistant response" + "\n" == "Assistant response\n";
    }
    assert RenderMd(ps[2..]) == b2;
    assert RenderMd(ps[1..]) == b1 + ["\n"] + b2;
    assert RenderMd(ps) == b0 + ["\n"] + (b1 + ["\n"] + b2);
  }

  /** The markdown test file yields the three test prompts. */
  lemma MarkdownTestFile()
    ensures MarkdownPrompts(MarkdownTestLines()) == TestPrompts()
  {
    var ps := TestPrompts();
    forall i | 0 <= i < |ps|
      ensures MdWritable(ps[i])
    {
      assert ps[i].content[0] != '#';
    }
    MarkdownTestRendered();
    MdRoundTrip(ps, "", User);
    assert Flush(User, "") + ps == ps;
  }

  // ---------------------------------------------------------------------
  // Plain-text loader
  // ---------------------------------------------------------------------

  const UserMarker: string := "User:"
  const AssistantMarker: string := "Assistant:"
  const SystemMarker: string := "System:"

  /** The marker that starts a prompt of a role in a text file. */
  function Marker(role: string): string {
    if role == User then UserMarker else if role == Assistant then AssistantMarker else SystemMarker
  }

  /** The role a stripped text line starts, markers tried in the loader's
      order (user, assistant, system). */
  function TextRole(line: string): (r: Option<string>)
    ensures r.Some? ==> r.value in AllowedRoles && StartsWith(line, Marker(r.value))
    ensures r.None? <==> !StartsWith(line, UserMarker) && !StartsWith(line, AssistantMarker)
                         && !StartsWith(line, SystemMarker)
  {
    if StartsWith(line, UserMarker) then Some(User)
    else if StartsWith(line, AssistantMarker) then Some(Assistant)
    else if StartsWith(line, SystemMarker) then Some(System)
    else None
  }

  /** The markers differ at their first character. */
  lemma TextRoleOfMarker(role: string, line: string)
    requires role in AllowedRoles && StartsWith(line, Marker(role))
    ensures TextRole(line) == Some(role)
  {
    assert line[0] == Marker(role)[0];
    assert UserMarker[0] == 'U' && AssistantMarker[0] == 'A' && SystemMarker[0] == 'S';
  }

  /** What the text loader emits for the remaining lines: each line is
      stripped; a marker line starts a new buffer holding the line with every
      occurrence of the marker removed; other lines are appended. */
  function TextFrom(lines: seq<string>, content: string, role: string): (r: seq<Prompt>)
    requires role in AllowedRoles
    decreases |lines|
  {
    if lines == [] then Flush(role, content)
    else
      var line := Strip(lines[0]);
      var m := TextRole(line);
      if m.Some? then Flush(role, content) + TextFrom(lines[1..], ReplaceAll(line, Marker(m.value), ""), m.value)
      else TextFrom(lines[1..], content + line, role)
  }

  /** load_from_textfile over the file's lines: the role starts as user. */
  function TextPrompts(lines: seq<string>): seq<Prompt> {
    TextFrom(lines, "", User)
  }

  /** The text loader's loop. */
  method LoadTextLines(lines: seq<string>) returns (result: seq<Prompt>)
    ensures result == TextPrompts(lines)
  {
    result := [];
    var content := "";
    var role := User;
    for i := 0 to |lines|
      invariant role in AllowedRoles
      invariant result + TextFrom(lines[i..], content, role) == TextPrompts(lines)
    {
      assert lines[i..][0] == lines[i] && lines[i..][1..] == lines[i + 1..];
      var line := Strip(lines[i]);
      ghost var m := TextRole(line);
      ghost var r0, c0, role0 := result, content, role;
      if StartsWith(line, UserMarker) {
        if |content| > 0 {
          result := result + [NewPrompt(role, content).value];
        }
        role := User;
        content := ReplaceAll(line, UserMarker, "");
      } else if StartsWith(line, AssistantMarker) {
        if |content| > 0 {
          result := result + [NewPrompt(role, content).value];
        }
        role := Assistant;
        content := ReplaceAll(line, AssistantMarker, "");
      } else if StartsWith(line, SystemMarker) {
        if |content| > 0 {
          result := result + [NewPrompt(role, content).value];
        }
        role := System;
        content := ReplaceAll(line, SystemMarker, "");
      } else {
        content := content + line;
      }
      TextStep(lines[i..], c0, role0);
      if m.Some? {
        assert result == r0 + Flush(role0, c0) && role == m.value;
        PromptsAssoc(r0, Flush(role0, c0), TextFrom(lines[i + 1..], content, role));
      }
    }
    assert lines[|lines|..] == [];
    if |content| > 0 {
      result := result + [NewPrompt(role, content).value];
    }
  }

  /** One step of the text loader. */
  lemma TextStep(lines: seq<string>, content: string, role: string)
    requires role in AllowedRoles && lines != []
    ensures var line := Strip(lines[0]);
            var m := TextRole(line);
            (TextFrom(lines, content, role)
             == if m.Some? then Flush(role, content) + TextFrom(lines[1..], ReplaceAll(line, Marker(m.value), ""), m.value)
                else TextFrom(lines[1..], content + line, role))
  {
  }

  /** The concatenation of the stripped lines. */
  function StrippedConcat(lines: seq<string>): string {
    if lines == [] then "" else Strip(lines[0]) + StrippedConcat(lines[1..])
  }

  /** Continuation lines are stripped and joined with no separator. */
  lemma {:induction false} TextPlainLines(lines: seq<string>, content: string, role: string)
    requires role in AllowedRoles
    requires forall i :: 0 <= i < |lines| ==> TextRole(Strip(lines[i])).None?
    ensures TextFrom(lines, content, role) == Flush(role, content + StrippedConcat(lines))
    decreases |lines|
  {
    if lines == [] {
      assert content + StrippedConcat(lines) == content;
    } else {
      assert TextRole(Strip(lines[0])).None?;
      TextPlainLines(lines[1..], content + Strip(lines[0]), role);
      AppendAssoc(content, Strip(lines[0]), StrippedConcat(lines[1..]));
    }
  }

  /** A prompt the one-line text form can hold: no colon in the content, so
      no marker can occur in it. */
  predicate TextWritable(p: Prompt) {
    p.role in AllowedRoles && Trimmed(p.content) && ':' !in p.content
  }

  /** One prompt in the text form: marker, a space, the content. */
  function TextLine(p: Prompt): string {
    Marker(p.role) + " " + p.content + "\n"
  }

  function RenderText(ps: seq<Prompt>): (lines: seq<string>)
    ensures |lines| == |ps|
  {
    if ps == [] then [] else [TextLine(ps[0])] + RenderText(ps[1..])
  }

  /** A written text line strips to the marker, a space and the content. */
  lemma TextLineStrip(p: Prompt)
    requires TextWritable(p)
    ensures Strip(TextLine(p)) == Marker(p.role) + " " + p.content
  {
    var m := Marker(p.role);
    assert m[0] in "UAS";
    var body := m + " " + p.content;
    assert body[0] == m[0] && body[|body| - 1] == p.content[|p.content| - 1];
    StripLine(body);
  }

  /** Removing the marker from a written line leaves the space and the
      content: the content has no colon, so the marker cannot occur in it. */
  lemma TextMarkerRemoved(p: Prompt)
    requires TextWritable(p)
    ensures ReplaceAll(Marker(p.role) + " " + p.content, Marker(p.role), "") == " " + p.content
  {
    var m := Marker(p.role);
    var rest := " " + p.content;
    assert m + " " + p.content == m + rest;
    ReplaceLeading(m, rest, "");
    assert m[|m| - 1] == ':';
    if Contains(rest, m) {
      ContainsChar(rest, m, |m| - 1);
      assert false;
    }
    ReplaceAbsent(rest, m, "");
    assert "" + rest == rest;
  }

  /** The text loader reads a written line back into a buffer holding the
      content after a space. */
  lemma TextLineRead(p: Prompt, rest: seq<string>, content: string, role: string)
    requires role in AllowedRoles && TextWritable(p)
    ensures TextFrom([TextLine(p)] + rest, content, role)
         == Flush(role, content) + TextFrom(rest, " " + p.content, p.role)
  {
    var ls := [TextLine(p)] + rest;
    assert ls[0] == TextLine(p) && ls[1..] == rest;
    TextLineStrip(p);
    TextRoleOfMarker(p.role, Marker(p.role) + " " + p.content);
    TextMarkerRemoved(p);
    TextStep(ls, content, role);
  }

  /** A buffer holding the content after a space flushes to the prompt. */
  lemma FlushSpaced(p: Prompt)
    requires p.role in AllowedRoles && Trimmed(p.content)
    ensures Flush(p.role, " " + p.content) == [p]
  {
    StripPadded(" ", p.content, "");
    assert " " + p.content + "" == " " + p.content;
  }

  /** Reading prompts back from their text form: the open buffer is emitted
      first, then exactly the prompts written. */
  lemma {:induction false} TextRoundTrip(ps: seq<Prompt>, content: string, role: string)
    requires role in AllowedRoles
    requires forall i :: 0 <= i < |ps| ==> TextWritable(ps[i])
    ensures TextFrom(RenderText(ps), content, role) == Flush(role, content) + ps
    decreases |ps|
  {
    if ps == [] {
      assert Flush(role, content) + ps == Flush(role, content);
    } else {
      var p := ps[0];
      assert TextWritable(p);
      calc {
        TextFrom(RenderText(ps), content, role);
        { assert RenderText(ps) == [TextLine(p)] + RenderText(ps[1..]); }
        TextFrom([TextLine(p)] + RenderText(ps[1..]), content, role);
        { TextLineRead(p, RenderText(ps[1..]), content, role); }
        Flush(role, content) + TextFrom(RenderText(ps[1..]), " " + p.content, p.role);
        { TextRoundTrip(ps[1..], " " + p.content, p.role); }
        Flush(role, content) + (Flush(p.role, " " + p.content) + ps[1..]);
        { FlushSpaced(p); }
        Flush(role, content) + ([p] + ps[1..]);
        { assert ps == [p] + ps[1..]; }
        Flush(role, content) + ps;
      }
    }
  }

  /** The lines of the text test file. */
  function TextTestLines(): seq<string> {
    ["System: System prompt\n", "User: User prompt\n", "Assistant: Assistant response\n"]
  }

  lemma SystemTestLine()
    ensures TextLine(Prompt(System, "System prompt")) == "System: System prompt\n"
  {
    assert Marker(System) == SystemMarker;
    assert SystemMarker + " " == "System: ";
    assert "System: " + "System prompt" == "System: System prompt";
  }

  lemma UserTestLine()
    ensures TextLine(Prompt(User, "User prompt")) == "User: User prompt\n"
  {
    assert Marker(User) == UserMarker;
    assert UserMarker + " " == "User: ";
    assert "User: " + "User prompt" == "User: User prompt";
  }

  lemma AssistantTestLine()
    ensures TextLine(Prompt(Assistant, "Assistant response")) == "Assistant: Assistant response\n"
  {
    assert Marker(Assistant) == AssistantMarker;
    assert AssistantMarker + " " == "Assistant: ";
    assert "Assistant: " + "Assistant response" == "Assistant: Assistant response";
  }

  /** The text test file is the text form of the test prompts. */
  lemma TextTestRendered()
    ensures RenderText(TestPrompts()) == TextTestLines()
  {
    var ps := TestPrompts();
    SystemTestLine();
    UserTestLine();
    AssistantTestLine();
    assert RenderText(ps[2..]) == [TextLine(ps[2])];
    assert RenderText(ps[1..]) == [TextLine(ps[1])] + RenderText(ps[2..]);
    assert RenderText(ps) == [TextLine(ps[0])] + RenderText(ps[1..]);
  }

  /** The text test file yields the three test prompts. */
  lemma TextTestFile()
    ensures TextPrompts(TextTestLines()) == TestPrompts()
  {
    var ps := TestPrompts();
    forall i | 0 <= i < |ps|
      ensures TextWritable(ps[i])
    {
    }
    TextTestRendered();
    TextRoundTrip(ps, "", User);
    assert Flush(User, "") + ps == ps;
  }

  // ---------------------------------------------------------------------
  // load
  // ---------------------------------------------------------------------

  /** load(file_path): the file's lines (or, for JSON, its decoded prompts)
      are given; the loader is chosen by FileTypeOf. */
  method Load(path: string, lines: seq<string>, jsonPrompts: seq<Prompt>) returns (r: Result<seq<Prompt>>)
    ensures FileTypeOf(path) == Ok(JsonFile) ==> r == Ok(jsonPrompts)
    ensures FileTypeOf(path) == Ok(MarkdownFile) ==> r == Ok(MarkdownPrompts(lines))
    ensures FileTypeOf(path) == Ok(PlainTextFile) ==> r == Ok(TextPrompts(lines))
    ensures FileTypeOf(path).Err? ==> r == Err(ValueError(UnsupportedError(path)))
  {
    if EndsWith(path, ".json") {
      return Ok(jsonPrompts);
    }
    if EndsWith(path, ".md") {
      var ps := LoadMarkdownLines(lines);
      return Ok(ps);
    }
    if EndsWith(path, ".txt") {
      var ps := LoadTextLines(lines);
      return Ok(ps);
    }
    return Err(ValueError(UnsupportedError(path)));
  }

  /** The test's unsupported suffix raises ValueError. */
  lemma UnsupportedSuffix()
    ensures FileTypeOf("unsupported_file_type.xyz") == Err(ValueError(UnsupportedError("unsupported_file_type.xyz")))
  {
    var path := "unsupported_file_type.xyz";
    assert path[|path| - 1] == 'z';
    SuffixesExclusive(path);
  }
}
