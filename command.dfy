/**
 * A command extracted from an agent's answer: its type (a language tag,
 * with every shell alias folded to "sh") and its lines.  `output` and
 * `exitCode` are filled in by an executor.  The source's constructor does
 * not set them at all; the model starts them at "" and 0.
 */
module Commands {
  import opened PyStrings

  const Shell: string := "sh"

  /** The tags that name a shell, compared after lower-casing. */
  const ShellAliases: set<string> := {"sh", "shell", "bash", "powershell", "cmd"}

  datatype Command = Command(cmdType: string, cmds: seq<string>, output: string, exitCode: int)

  /** The type stored by the constructor: "sh" for a shell alias in any case,
      the tag verbatim otherwise. */
  function NormaliseType(t: string): (r: string)
    ensures Lower(t) in ShellAliases ==> r == Shell
    ensures Lower(t) !in ShellAliases ==> r == t
  {
    if Lower(t) in ShellAliases then Shell else t
  }

  /** Command(command_type, cmds) */
  function NewCommand(t: string, cmds: seq<string>): (c: Command)
    ensures c.cmdType == NormaliseType(t) && c.cmds == cmds
    ensures c.output == "" && c.exitCode == 0
  {
    Command(NormaliseType(t), cmds, "", 0)
  }

  /** "sh" is itself an alias, so normalising twice changes nothing. */
  lemma NormaliseIdempotent(t: string)
    ensures NormaliseType(NormaliseType(t)) == NormaliseType(t)
  {
    if Lower(t) in ShellAliases {
      assert Lower(Shell) == Shell;
    }
  }

  lemma NormaliseExamples()
    ensures NormaliseType("BASH") == Shell
    ensures NormaliseType("PowerShell") == Shell
    ensures NormaliseType("python") == "python"
    ensures NormaliseType("Python") == "Python"
  {
    assert Lower("BASH") == "bash";
    assert Lower("PowerShell") == "powershell";
    assert Lower("python") == "python";
    assert Lower("Python") == "python";
  }

  const HexDigits: string := "0123456789abcdef"

  /** The low w hex digits of n, lower case, most significant first. */
  function Hex(n: nat, w: nat): (r: string)
    ensures |r| == w
    ensures forall i :: 0 <= i < w ==> '0' <= r[i] <= 'f'
    decreases w
  {
    if w == 0 then "" else Hex(n / 16, w - 1) + [HexDigits[n % 16]]
  }

  /** Whether repr() shows c as itself inside quotes q: printable ASCII
      other than the backslash and the quote, and above ASCII whatever
      str.isprintable() accepts (the Unicode database, given as isPrintable). */
  predicate Kept(c: char, q: char, isPrintable: char -> bool) {
    c != '\\' && c != q && ((' ' <= c < '\U{7F}') || ('\U{7F}' < c && isPrintable(c)))
  }

  /** What follows the backslash when repr() escapes c: the backslash or the
      quote itself, the short escapes of tab, newline and carriage return,
      \xNN for the other control characters, DEL and the rest up to U+00FF,
      then \uNNNN and \UNNNNNNNN by the size of the code point. */
  function EscapeCode(c: char, q: char): (r: string)
    requires ' ' <= q < '\U{7F}'
    ensures forall i :: 0 <= i < |r| ==> ' ' <= r[i] < '\U{7F}'
  {
    if c == '\\' || c == q then [c]
    else if c == '\t' then "t"
    else if c == '\n' then "n"
    else if c == '\r' then "r"
    else if c as nat <= 0xFF then "x" + Hex(c as nat, 2)
    else if c as nat <= 0xFFFF then "u" + Hex(c as nat, 4)
    else "U" + Hex(c as nat, 8)
  }

  /** One character of a str repr() inside quotes q. */
  function ReprChar(c: char, q: char, isPrintable: char -> bool): string
    requires ' ' <= q < '\U{7F}'
  {
    if Kept(c, q, isPrintable) then [c] else "\\" + EscapeCode(c, q)
  }

  function ReprBody(s: string, q: char, isPrintable: char -> bool): string
    requires ' ' <= q < '\U{7F}'
  {
    if s == [] then "" else ReprChar(s[0], q, isPrintable) + ReprBody(s[1..], q, isPrintable)
  }

  /** repr(str): single quotes unless the text holds a single quote and no double quote. */
  function StrRepr(s: string, isPrintable: char -> bool): (r: string)
    ensures |r| >= 2 && r[0] == r[|r| - 1] && (r[0] == '\'' || r[0] == '"')
  {
    var q := if '\'' in s && '"' !in s then '"' else '\'';
    [q] + ReprBody(s, q, isPrintable) + [q]
  }

  /** What repr() may show unescaped: printable ASCII, and the characters
      above ASCII that str.isprintable() accepts. */
  predicate Shown(c: char, isPrintable: char -> bool) {
    (' ' <= c < '\U{7F}') || ('\U{7F}' < c && isPrintable(c))
  }

  lemma ReprCharShown(c: char, q: char, isPrintable: char -> bool)
    requires ' ' <= q < '\U{7F}'
    ensures forall i :: 0 <= i < |ReprChar(c, q, isPrintable)| ==> Shown(ReprChar(c, q, isPrintable)[i], isPrintable)
  {
  }

  lemma {:induction false} ReprBodyShown(s: string, q: char, isPrintable: char -> bool)
    requires ' ' <= q < '\U{7F}'
    ensures forall i :: 0 <= i < |ReprBody(s, q, isPrintable)| ==> Shown(ReprBody(s, q, isPrintable)[i], isPrintable)
    decreases |s|
  {
    if s != [] {
      ReprCharShown(s[0], q, isPrintable);
      ReprBodyShown(s[1..], q, isPrintable);
    }
  }

  /** Every character of a repr() is one str.isprintable() accepts: no
      control character, no DEL and no unprintable character above ASCII
      survives unescaped. */
  lemma ReprShown(s: string, isPrintable: char -> bool)
    ensures forall i :: 0 <= i < |StrRepr(s, isPrintable)| ==> Shown(StrRepr(s, isPrintable)[i], isPrintable)
  {
    var q := if '\'' in s && '"' !in s then '"' else '\'';
    ReprBodyShown(s, q, isPrintable);
  }

  /** A character that repr() leaves alone inside single quotes: printable
      ASCII other than the backslash and the quotes. */
  predicate Plain(c: char) {
    c != '\\' && c != '\'' && c != '"' && ' ' <= c < '\U{7F}'
  }

  lemma {:induction false} ReprBodyPlain(s: string, isPrintable: char -> bool)
    requires forall i :: 0 <= i < |s| ==> Plain(s[i])
    ensures ReprBody(s, '\'', isPrintable) == s
  {
    if s != [] {
      ReprBodyPlain(s[1..], isPrintable);
      assert s == [s[0]] + s[1..];
    }
  }

  /** A string of printable ASCII without quotes or backslashes is shown
      between single quotes unchanged. */
  lemma StrReprPlain(s: string, isPrintable: char -> bool)
    requires forall i :: 0 <= i < |s| ==> Plain(s[i])
    ensures StrRepr(s, isPrintable) == "'" + s + "'"
  {
    assert forall i :: 0 <= i < |s| ==> s[i] != '\'';
    ReprBodyPlain(s, isPrintable);
  }

  /** One more digit: for n = 16 * m + k, the digit k after the digits of m. */
  lemma HexStep(n: nat, m: nat, k: nat, w: nat)
    requires n == 16 * m + k && k < 16
    ensures Hex(n, w + 1) == Hex(m, w) + [HexDigits[k]]
  {
    assert n / 16 == m && n % 16 == k;
  }

  lemma HexDigitsOfA0()
    ensures Hex(0xA0, 2) == "a0"
  {
    HexStep(0xA, 0, 0xA, 0);
    HexStep(0xA0, 0xA, 0, 1);
    assert Hex(0xA, 1) == "" + "a";
  }

  lemma HexDigitsOf2028()
    ensures Hex(0x2028, 4) == "2028"
  {
    HexStep(0x2, 0, 2, 0);
    HexStep(0x20, 0x2, 0, 1);
    HexStep(0x202, 0x20, 2, 2);
    HexStep(0x2028, 0x202, 8, 3);
    assert Hex(0x2, 1) == "" + "2";
  }

  /** A no-break space, which str.isprintable() rejects, is shown as \xa0. */
  lemma NoBreakSpaceRepr(isPrintable: char -> bool)
    requires !isPrintable('\U{A0}')
    ensures StrRepr("\U{A0}", isPrintable) == "'\\xa0'"
  {
    HexDigitsOfA0();
    var s := "\U{A0}";
    assert ReprChar(s[0], '\'', isPrintable) == "\\xa0";
    assert s[1..] == [];
    assert ReprBody(s, '\'', isPrintable) == "\\xa0" + ReprBody([], '\'', isPrintable);
  }

  /** The line separator U+2028 is shown as \u2028. */
  lemma LineSeparatorRepr(isPrintable: char -> bool)
    requires !isPrintable('\U{2028}')
    ensures StrRepr("\U{2028}", isPrintable) == "'\\u2028'"
  {
    HexDigitsOf2028();
    var s := "\U{2028}";
    assert ReprChar(s[0], '\'', isPrintable) == "\\u2028";
    assert s[1..] == [];
    assert ReprBody(s, '\'', isPrintable) == "\\u2028" + ReprBody([], '\'', isPrintable);
  }

  function ReprAll(xs: seq<string>, isPrintable: char -> bool): (r: seq<string>)
    ensures |r| == |xs| && forall i :: 0 <= i < |xs| ==> r[i] == StrRepr(xs[i], isPrintable)
  {
    if xs == [] then [] else [StrRepr(xs[0], isPrintable)] + ReprAll(xs[1..], isPrintable)
  }

  /** repr(list[str]) */
  function ListRepr(xs: seq<string>, isPrintable: char -> bool): (r: string)
    ensures |r| >= 2 && r[0] == '[' && r[|r| - 1] == ']'
  {
    "[" + Join(", ", ReprAll(xs, isPrintable)) + "]"
  }

  /** str(command): "<type>: <repr of cmds>" */
  function ToString(c: Command, isPrintable: char -> bool): (r: string)
    ensures StartsWith(r, c.cmdType + ": [") && r[|r| - 1] == ']'
  {
    c.cmdType + ": " + ListRepr(c.cmds, isPrintable)
  }

  /** A shell command of one plain line is shown as "sh: ['<line>']". */
  lemma ToStringSingle(t: string, line: string, isPrintable: char -> bool)
    requires Lower(t) in ShellAliases
    requires forall i :: 0 <= i < |line| ==> Plain(line[i])
    ensures ToString(NewCommand(t, [line]), isPrintable) == "sh: ['" + line + "']"
  {
    StrReprPlain(line, isPrintable);
    assert ReprAll([line], isPrintable) == [StrRepr(line, isPrintable)];
    var q := "'" + line + "'";
    calc {
      ToString(NewCommand(t, [line]), isPrintable);
      Shell + ": " + ("[" + q + "]");
      { assert Shell + ": " + "[" == "sh: ["; }
      "sh: [" + q + "]";
      "sh: ['" + line + "']";
    }
  }
}
