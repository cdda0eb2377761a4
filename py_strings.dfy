/**
 * The Python `str` operations the workflow engine relies on, stated over
 * `seq<char>`: strip, startswith/endswith, find and `in`, replace, split and
 * join, splitlines, upper/lower.  Only the ASCII case mapping and the
 * whitespace characters of str.isspace() are modelled.
 */
module PyStrings {

  /** str.isspace(), which is also what str.strip() removes: the ASCII
      whitespace, the information separators U+001C..U+001F, NEL, NBSP, the
      Ogham space mark, the spaces U+2000..U+200A, the line and paragraph
      separators, the narrow no-break space, the medium mathematical space
      and the ideographic space. */
  predicate IsSpace(c: char) {
    c == ' ' || c == '\t' || c == '\n' || c == '\r' || c == '\U{B}' || c == '\U{C}'
    || c == '\U{1C}' || c == '\U{1D}' || c == '\U{1E}' || c == '\U{1F}'
    || c == '\U{85}' || c == '\U{A0}' || c == '\U{1680}'
    || ('\U{2000}' <= c <= '\U{200A}')
    || c == '\U{2028}' || c == '\U{2029}' || c == '\U{202F}' || c == '\U{205F}' || c == '\U{3000}'
  }

  /** str.lstrip() */
  function LStrip(s: string): (r: string)
    ensures |r| <= |s| && r == s[|s| - |r|..]
    ensures r == [] || !IsSpace(r[0])
    ensures forall i :: 0 <= i < |s| - |r| ==> IsSpace(s[i])
  {
    if s != [] && IsSpace(s[0]) then LStrip(s[1..]) else s
  }

  /** str.rstrip() */
  function RStrip(s: string): (r: string)
    ensures r <= s
    ensures r == [] || !IsSpace(r[|r| - 1])
    ensures forall i :: |r| <= i < |s| ==> IsSpace(s[i])
  {
    if s != [] && IsSpace(s[|s| - 1]) then RStrip(s[..|s| - 1]) else s
  }

  /** str.strip(): the result is s without its leading and trailing whitespace. */
  function Strip(s: string): (r: string)
    ensures |r| <= |s|
    ensures r == [] || (!IsSpace(r[0]) && !IsSpace(r[|r| - 1]))
  {
    RStrip(LStrip(s))
  }

  /** Leading whitespace is all that lstrip drops. */
  lemma {:induction false} LStripSpaces(lead: string, s: string)
    requires forall i :: 0 <= i < |lead| ==> IsSpace(lead[i])
    requires s == [] || !IsSpace(s[0])
    ensures LStrip(lead + s) == s
    decreases |lead|
  {
    if lead == [] {
      assert lead + s == s;
    } else {
      assert (lead + s)[1..] == lead[1..] + s;
      LStripSpaces(lead[1..], s);
    }
  }

  /** Trailing whitespace is all that rstrip drops. */
  lemma {:induction false} RStripSpaces(s: string, tail: string)
    requires forall i :: 0 <= i < |tail| ==> IsSpace(tail[i])
    requires s == [] || !IsSpace(s[|s| - 1])
    ensures RStrip(s + tail) == s
    decreases |tail|
  {
    if tail == [] {
      assert s + tail == s;
    } else {
      assert (s + tail)[..|s + tail| - 1] == s + tail[..|tail| - 1];
      RStripSpaces(s, tail[..|tail| - 1]);
    }
  }

  /** A trimmed text followed by whitespace strips back to itself. */
  lemma StripTrailing(s: string, tail: string)
    requires forall i :: 0 <= i < |tail| ==> IsSpace(tail[i])
    requires s == [] || (!IsSpace(s[0]) && !IsSpace(s[|s| - 1]))
    ensures Strip(s + tail) == s
  {
    if s == [] {
      assert s + tail == tail + [];
      LStripSpaces(tail, []);
    } else {
      assert (s + tail)[0] == s[0];
      assert LStrip(s + tail) == s + tail;
      RStripSpaces(s, tail);
    }
  }

  /** A trimmed text padded with whitespace on both sides strips back to itself. */
  lemma StripPadded(lead: string, s: string, tail: string)
    requires forall i :: 0 <= i < |lead| ==> IsSpace(lead[i])
    requires forall i :: 0 <= i < |tail| ==> IsSpace(tail[i])
    requires s == [] || (!IsSpace(s[0]) && !IsSpace(s[|s| - 1]))
    ensures Strip(lead + s + tail) == s
  {
    if s == [] {
      assert lead + s + tail == (lead + tail) + [];
      LStripSpaces(lead + tail, []);
    } else {
      assert lead + s + tail == lead + (s + tail);
      LStripSpaces(lead, s + tail);
      RStripSpaces(s, tail);
    }
  }

  /** Strip removes Unicode whitespace too: an ideographic space before and a
      no-break space after a status word are both dropped. */
  lemma StripUnicodeSpaces()
    ensures Strip("\U{3000}SUCCESS\U{A0}") == "SUCCESS"
  {
    assert "\U{3000}SUCCESS\U{A0}" == "\U{3000}" + "SUCCESS" + "\U{A0}";
    StripPadded("\U{3000}", "SUCCESS", "\U{A0}");
  }

  /** A text without whitespace at either end is its own strip. */
  lemma StripTrimmed(s: string)
    requires s == [] || (!IsSpace(s[0]) && !IsSpace(s[|s| - 1]))
    ensures Strip(s) == s
  {
    assert LStrip(s) == s;
  }

  /** Stripping twice is stripping once. */
  lemma StripIdempotent(s: string)
    ensures Strip(Strip(s)) == Strip(s)
  {
    StripTrimmed(Strip(s));
  }

  /** str.rstrip(chars): drops every trailing character that is in `chars`. */
  function RStripChars(s: string, chars: set<char>): (r: string)
    ensures r <= s
    ensures r == [] || r[|r| - 1] !in chars
    ensures forall i :: |r| <= i < |s| ==> s[i] in chars
  {
    if s != [] && s[|s| - 1] in chars then RStripChars(s[..|s| - 1], chars) else s
  }

  predicate StartsWith(s: string, prefix: string) {
    prefix <= s
  }

  predicate EndsWith(s: string, suffix: string) {
    |suffix| <= |s| && s[|s| - |suffix|..] == suffix
  }

  /** `sub` occurs in `s` at index k. */
  predicate OccursAt(s: string, sub: string, k: int) {
    0 <= k && k + |sub| <= |s| && s[k..k + |sub|] == sub
  }

  function FindFrom(s: string, sub: string, from: nat): (r: int)
    requires from <= |s|
    ensures r == -1 || (from <= r && OccursAt(s, sub, r))
    ensures r == -1 ==> forall k :: from <= k ==> !OccursAt(s, sub, k)
    ensures r >= 0 ==> forall k :: from <= k < r ==> !OccursAt(s, sub, k)
    decreases |s| - from
  {
    if from + |sub| > |s| then -1
    else if s[from..from + |sub|] == sub then from
    else FindFrom(s, sub, from + 1)
  }

  /** str.find(sub): the first index where `sub` occurs, or -1. */
  function Find(s: string, sub: string): (r: int)
    ensures r == -1 || OccursAt(s, sub, r)
    ensures r == -1 ==> forall k :: !OccursAt(s, sub, k)
    ensures r >= 0 ==> forall k :: 0 <= k < r ==> !OccursAt(s, sub, k)
  {
    FindFrom(s, sub, 0)
  }

  /** A one-character pattern is found at its first occurrence. */
  lemma FindCharAt(a: string, c: char, rest: string)
    requires c !in a
    ensures Find(a + [c] + rest, [c]) == |a|
  {
    var s := a + [c] + rest;
    assert OccursAt(s, [c], |a|);
    forall k | 0 <= k < |a|
      ensures !OccursAt(s, [c], k)
    {
      assert s[k] == a[k];
    }
  }

  /** A pattern is found right after a text that lacks its first character. */
  lemma FindAfter(a: string, sub: string, rest: string)
    requires sub != [] && sub[0] !in a
    ensures Find(a + sub + rest, sub) == |a|
  {
    var s := a + sub + rest;
    assert s[|a|..|a| + |sub|] == sub;
    assert OccursAt(s, sub, |a|);
    forall k | 0 <= k < |a|
      ensures !OccursAt(s, sub, k)
    {
      assert s[k] == a[k];
    }
  }

  /** A one-character pattern absent from the text is not found. */
  lemma FindCharAbsent(a: string, c: char)
    requires c !in a
    ensures Find(a, [c]) == -1
  {
    forall k | 0 <= k < |a|
      ensures !OccursAt(a, [c], k)
    {
      assert a[k..k + 1] == [a[k]];
    }
  }

  /** Python's `sub in s`. */
  predicate Contains(s: string, sub: string) {
    Find(s, sub) >= 0
  }

  /** Every character of a contained text occurs in the containing one. */
  lemma ContainsChar(s: string, sub: string, j: nat)
    requires Contains(s, sub) && j < |sub|
    ensures sub[j] in s
  {
    var k := Find(s, sub);
    assert s[k..k + |sub|][j] == s[k + j];
  }

  lemma ContainsAt(s: string, sub: string, k: int)
    requires OccursAt(s, sub, k)
    ensures Contains(s, sub)
  {
  }

  /** A string contains its own strip. */
  lemma StripContained(s: string)
    ensures Contains(s, Strip(s))
  {
    var l := LStrip(s);
    var r := Strip(s);
    var k := |s| - |l|;
    assert r == RStrip(l) && r <= l && l == s[k..];
    assert s[k..k + |r|] == r by {
      forall i | 0 <= i < |r|
        ensures s[k..k + |r|][i] == r[i]
      {
        assert r[i] == l[i] == s[k + i];
      }
    }
    assert OccursAt(s, r, k);
  }

  /** str.replace(pat, rep) for a non-empty pattern: leftmost, non-overlapping. */
  function ReplaceAll(s: string, pat: string, rep: string): (r: string)
    requires pat != []
    decreases |s|
  {
    if |s| < |pat| then s
    else if s[..|pat|] == pat then rep + ReplaceAll(s[|pat|..], pat, rep)
    else [s[0]] + ReplaceAll(s[1..], pat, rep)
  }

  /** Replacing a pattern that does not occur leaves the string unchanged. */
  lemma {:induction false} ReplaceAbsent(s: string, pat: string, rep: string)
    requires pat != []
    requires !Contains(s, pat)
    ensures ReplaceAll(s, pat, rep) == s
    decreases |s|
  {
    if |s| >= |pat| {
      assert !OccursAt(s, pat, 0);
      assert s[..|pat|] != pat;
      forall k
        ensures !OccursAt(s[1..], pat, k)
      {
        if 0 <= k && k + |pat| <= |s| - 1 {
          assert s[1..][k..k + |pat|] == s[k + 1..k + 1 + |pat|];
          assert !OccursAt(s, pat, k + 1);
        }
      }
      ReplaceAbsent(s[1..], pat, rep);
    }
  }

  /** A text without the pattern's first character is left unchanged. */
  lemma {:induction false} ReplaceWithoutFirstChar(s: string, pat: string, rep: string)
    requires pat != [] && pat[0] !in s
    ensures ReplaceAll(s, pat, rep) == s
    decreases |s|
  {
    if |s| >= |pat| {
      assert s[..|pat|][0] != pat[0];
      ReplaceWithoutFirstChar(s[1..], pat, rep);
      assert s == [s[0]] + s[1..];
    }
  }

  /** A leading pattern is replaced and the rest is handled on its own. */
  lemma ReplaceLeading(pat: string, s: string, rep: string)
    requires pat != []
    ensures ReplaceAll(pat + s, pat, rep) == rep + ReplaceAll(s, pat, rep)
  {
    assert (pat + s)[..|pat|] == pat && (pat + s)[|pat|..] == s;
  }

  /** str.split(sep) for a non-empty separator. */
  function Split(s: string, sep: string): (parts: seq<string>)
    requires sep != []
    ensures |parts| >= 1
    decreases |s|
  {
    var i := Find(s, sep);
    if i < 0 then [s] else [s[..i]] + Split(s[i + |sep|..], sep)
  }

  /** "".join(parts): the parts one after the other. */
  function Concat(parts: seq<string>): string {
    if parts == [] then "" else parts[0] + Concat(parts[1..])
  }

  /** Joining two lists is joining each and putting the results together. */
  lemma {:induction false} ConcatAppend(a: seq<string>, b: seq<string>)
    ensures Concat(a + b) == Concat(a) + Concat(b)
    decreases |a|
  {
    if a == [] {
      assert a + b == b;
    } else {
      assert (a + b)[0] == a[0] && (a + b)[1..] == a[1..] + b;
      ConcatAppend(a[1..], b);
      AppendAssoc(a[0], Concat(a[1..]), Concat(b));
    }
  }

  /** sep.join(parts) */
  function Join(sep: string, parts: seq<string>): (r: string)
  {
    if |parts| == 0 then ""
    else if |parts| == 1 then parts[0]
    else parts[0] + sep + Join(sep, parts[1..])
  }

  /** Splitting and joining with the same separator gives back the input. */
  lemma {:induction false} JoinSplit(s: string, sep: string)
    requires sep != []
    ensures Join(sep, Split(s, sep)) == s
    decreases |s|
  {
    var i := Find(s, sep);
    if i >= 0 {
      var rest := s[i + |sep|..];
      var parts := Split(rest, sep);
      JoinSplit(rest, sep);
      var all := [s[..i]] + parts;
      assert Split(s, sep) == all;
      assert all[0] == s[..i] && all[1..] == parts && |all| >= 2;
      assert Join(sep, all) == s[..i] + sep + Join(sep, parts);
      assert s == s[..i] + sep + rest;
    }
  }

  /** The text before the first separator holds no separator. */
  lemma PrefixLacksSep(s: string, sep: string, i: int)
    requires sep != [] && i == Find(s, sep) && i >= 0
    ensures !Contains(s[..i], sep)
  {
    var piece := s[..i];
    var r := Find(piece, sep);
    assert r == -1 || (r + |sep| <= i && piece[r..r + |sep|] == s[r..r + |sep|]);
    assert r >= 0 ==> OccursAt(s, sep, r) && r < i;
  }

  /** No piece of a split contains the separator. */
  lemma {:induction false} SplitPiecesLackSep(s: string, sep: string, k: nat)
    requires sep != []
    requires k < |Split(s, sep)|
    ensures !Contains(Split(s, sep)[k], sep)
    decreases |s|
  {
    var i := Find(s, sep);
    if i >= 0 {
      if k == 0 {
        PrefixLacksSep(s, sep, i);
      } else {
        SplitPiecesLackSep(s[i + |sep|..], sep, k - 1);
      }
    }
  }

  /** The first piece of a split is everything before the first separator. */
  lemma SplitFirst(s: string, sep: string)
    requires sep != []
    ensures Split(s, sep)[0] == if Find(s, sep) < 0 then s else s[..Find(s, sep)]
  {
  }

  /** The line boundaries of str.splitlines(). */
  predicate IsLineBreak(c: char) {
    c == '\n' || c == '\r' || c == '\U{B}' || c == '\U{C}' || c == '\U{1C}' || c == '\U{1D}'
    || c == '\U{1E}' || c == '\U{85}' || c == '\U{2028}' || c == '\U{2029}'
  }

  function LineBreakFrom(s: string, from: nat): (r: nat)
    requires from <= |s|
    ensures from <= r <= |s|
    ensures r < |s| ==> IsLineBreak(s[r])
    ensures forall k :: from <= k < r ==> !IsLineBreak(s[k])
    decreases |s| - from
  {
    if from == |s| || IsLineBreak(s[from]) then from else LineBreakFrom(s, from + 1)
  }

  /** str.splitlines(): lines without their terminators; "\r\n" is one
      terminator and a final terminator does not start an empty line. */
  function SplitLines(s: string): (lines: seq<string>)
    ensures s == [] <==> lines == []
    decreases |s|
  {
    if s == [] then []
    else
      var i := LineBreakFrom(s, 0);
      if i == |s| then [s]
      else
        var width := if s[i] == '\r' && i + 1 < |s| && s[i + 1] == '\n' then 2 else 1;
        [s[..i]] + SplitLines(s[i + width..])
  }

  /** No line returned by splitlines() contains a line boundary. */
  lemma {:induction false} SplitLinesNoBreaks(s: string, k: nat, j: nat)
    requires k < |SplitLines(s)| && j < |SplitLines(s)[k]|
    ensures !IsLineBreak(SplitLines(s)[k][j])
    decreases |s|
  {
    var i := LineBreakFrom(s, 0);
    if i == |s| {
      assert SplitLines(s) == [s];
      assert !IsLineBreak(s[j]);
    } else {
      var width := if s[i] == '\r' && i + 1 < |s| && s[i + 1] == '\n' then 2 else 1;
      assert SplitLines(s) == [s[..i]] + SplitLines(s[i + width..]);
      if k == 0 {
        assert SplitLines(s)[0][j] == s[j] && j < i;
      } else {
        assert SplitLines(s)[k] == SplitLines(s[i + width..])[k - 1];
        SplitLinesNoBreaks(s[i + width..], k - 1, j);
      }
    }
  }

  predicate NoLineBreak(s: string) {
    forall k :: 0 <= k < |s| ==> !IsLineBreak(s[k])
  }

  /** A line without boundaries followed by "\n" is the first line. */
  lemma SplitLinesCons(a: string, rest: string)
    requires NoLineBreak(a)
    ensures SplitLines(a + "\n" + rest) == [a] + SplitLines(rest)
  {
    var s := a + "\n" + rest;
    assert s[|a|] == '\n';
    assert LineBreakFrom(s, 0) == |a|;
    assert s[..|a|] == a && s[|a| + 1..] == rest;
  }

  /** A non-empty text without boundaries is a single line. */
  lemma SplitLinesSingle(a: string)
    requires a != [] && NoLineBreak(a)
    ensures SplitLines(a) == [a]
  {
    assert LineBreakFrom(a, 0) == |a|;
  }

  /** str.upper() on ASCII letters. */
  function UpperChar(c: char): char {
    if 'a' <= c <= 'z' then (c as int - 32) as char else c
  }

  /** str.lower() on ASCII letters. */
  function LowerChar(c: char): char {
    if 'A' <= c <= 'Z' then (c as int + 32) as char else c
  }

  function Upper(s: string): (r: string)
    ensures |r| == |s| && forall i :: 0 <= i < |s| ==> r[i] == UpperChar(s[i])
  {
    seq(|s|, i requires 0 <= i < |s| => UpperChar(s[i]))
  }

  function Lower(s: string): (r: string)
    ensures |r| == |s| && forall i :: 0 <= i < |s| ==> r[i] == LowerChar(s[i])
  {
    seq(|s|, i requires 0 <= i < |s| => LowerChar(s[i]))
  }

  /** Concatenation regrouped; stated once so that long chains of writes
      need not rediscover it. */
  /** A string built as head + mid + tail starts with head and ends with tail. */
  lemma Framed(head: string, mid: string, tail: string)
    ensures StartsWith(head + mid + tail, head) && EndsWith(head + mid + tail, tail)
  {
    assert (head + mid + tail)[..|head|] == head;
    assert (head + mid + tail)[|head + mid|..] == tail;
  }

  lemma AppendAssoc(a: string, b: string, c: string)
    ensures a + b + c == a + (b + c)
  {
  }

  lemma AppendAssoc3(a: string, b: string, c: string, d: string)
    ensures a + b + c + d == a + (b + c + d)
  {
  }

  /** The number of occurrences of c in s. */
  function Count(s: string, c: char): (n: nat)
    ensures n <= |s|
  {
    if s == [] then 0 else (if s[0] == c then 1 else 0) + Count(s[1..], c)
  }

  lemma CountAppend(a: string, b: string, c: char)
    ensures Count(a + b, c) == Count(a, c) + Count(b, c)
  {
    if a != [] {
      assert (a + b)[1..] == a[1..] + b;
      CountAppend(a[1..], b, c);
    } else {
      assert a + b == b;
    }
  }

  /** Decimal digits of a natural number, as Python's str(int) prints it. */
  function NatToString(n: nat): (r: string)
    ensures r != []
    ensures forall i :: 0 <= i < |r| ==> '0' <= r[i] <= '9'
  {
    if n < 10 then [('0' as int + n) as char]
    else NatToString(n / 10) + [('0' as int + n % 10) as char]
  }

  /** Python's str(int). */
  function IntToString(n: int): string {
    if n < 0 then "-" + NatToString(-n) else NatToString(n)
  }
}
