/**
 * The string helpers used when logging results and recording history:
 * escape_linefeed, trunc_right, trunc_left and trunc_middle.  Slice bounds
 * follow Python's rules, so negative lengths behave as in the source.
 */
module StringUtils {
  import opened Wrappers
  import opened PyStrings

  /** Python's normalisation of a slice bound `i` against a sequence of length n. */
  function SliceIndex(i: int, n: nat): (k: nat)
    ensures k <= n
    ensures 0 <= i <= n ==> k == i
    ensures -(n as int) <= i < 0 ==> k == n + i
    ensures i > n ==> k == n
    ensures i < -(n as int) ==> k == 0
  {
    if i < 0 then (if n + i < 0 then 0 else n + i)
    else if i > n then n
    else i
  }

  /** escape_linefeed: every "\n" becomes the two characters backslash and n. */
  function EscapeLinefeed(s: string): string {
    ReplaceAll(s, "\n", "\\n")
  }

  lemma {:induction false} EscapeLinefeedNoNewline(s: string)
    ensures '\n' !in EscapeLinefeed(s)
    decreases |s|
  {
    if s != [] {
      EscapeLinefeedNoNewline(s[1..]);
      if s[..1] == "\n" {
        assert EscapeLinefeed(s) == "\\n" + EscapeLinefeed(s[1..]);
      } else {
        assert s[0] != '\n';
        assert EscapeLinefeed(s) == [s[0]] + EscapeLinefeed(s[1..]);
      }
    }
  }

  /** Each newline grows by exactly one character. */
  lemma {:induction false} EscapeLinefeedLength(s: string)
    ensures |EscapeLinefeed(s)| == |s| + Count(s, '\n')
    decreases |s|
  {
    if s != [] {
      EscapeLinefeedLength(s[1..]);
      if s[..1] == "\n" {
        assert s[0] == '\n';
        assert EscapeLinefeed(s) == "\\n" + EscapeLinefeed(s[1..]);
      } else {
        assert s[0] != '\n';
        assert EscapeLinefeed(s) == [s[0]] + EscapeLinefeed(s[1..]);
      }
    }
  }

  const Ellipsis: string := "..."

  /** trunc_right: content longer than `length` keeps its head and gains "...". */
  function TruncRight(s: string, length: int): (r: string)
    ensures |s| <= length ==> r == s
    ensures |s| > length ==> EndsWith(r, Ellipsis) && r[..|r| - 3] <= s
    ensures 0 <= length < |s| ==> |r| == length + 3 && r[..length] == s[..length]
  {
    if |s| > length then s[..SliceIndex(length, |s|)] + Ellipsis else s
  }

  /** trunc_left as written: content longer than `length` loses its first
      `length` characters and gains "..." (so the result is not bounded by length). */
  function TruncLeft(s: string, length: int): (r: string)
    ensures |s| <= length ==> r == s
    ensures 0 <= length < |s| ==> r == s[length..] + Ellipsis && |r| == |s| - length + 3
  {
    if |s| > length then s[SliceIndex(length, |s|)..] + Ellipsis else s
  }

  /** The as-written trunc_left leaves a 300-character input at 203 characters
      when asked to limit it to 100. */
  lemma TruncLeftExceedsLimit()
    ensures var s := seq(300, _ => 'a'); |TruncLeft(s, 100)| == 203 > 100 + |Ellipsis|
  {
  }

  /** trunc_left as its description intends: keep the last `length` characters
      behind a leading "...", so the result never exceeds length + 3. */
  function TruncLeftLimited(s: string, length: int): (r: string)
    ensures |s| <= length ==> r == s
    ensures 0 <= length < |s| ==> |r| == length + 3 && StartsWith(r, Ellipsis)
                                  && EndsWith(s, r[3..])
  {
    if |s| > length then
      var keep := if length < 0 then 0 else length;
      Ellipsis + s[|s| - keep..]
    else s
  }

  const TruncationMarker: string := "\n...(truncated)...\n"

  /** trunc_middle: None stays None; longer content keeps length//2 characters
      of its head and the tail from index -length//2 around the marker
      (Python's // floors, which is Dafny's / for a positive divisor). */
  function TruncMiddle(content: Option<string>, length: int): (r: Option<string>)
    ensures content.None? <==> r.None?
    ensures content.Some? && |content.value| <= length ==> r == content
  {
    match content
    case None => None
    case Some(s) =>
      if |s| > length then
        Some(s[..SliceIndex(length / 2, |s|)] + TruncationMarker + s[SliceIndex(-length / 2, |s|)..])
      else Some(s)
  }

  /** With a positive limit, the result keeps floor(length/2) head characters and
      ceil(length/2) tail characters, so it is exactly length + 19 long. */
  lemma TruncMiddleLong(s: string, length: int)
    requires 0 < length < |s|
    ensures TruncMiddle(Some(s), length)
         == Some(s[..length / 2] + TruncationMarker + s[|s| - (length - length / 2)..])
    ensures |TruncMiddle(Some(s), length).value| == length + |TruncationMarker| == length + 19
  {
    assert -length / 2 == -(length - length / 2);
  }

  /** A zero limit keeps no head and, since -0//2 is 0, the whole content as tail. */
  lemma TruncMiddleZero(s: string)
    requires s != []
    ensures TruncMiddle(Some(s), 0) == Some(TruncationMarker + s)
  {
    assert SliceIndex(0 / 2, |s|) == 0 && SliceIndex(-0 / 2, |s|) == 0;
    assert TruncMiddle(Some(s), 0) == Some(s[..0] + TruncationMarker + s[0..]);
    assert s[..0] + TruncationMarker + s[0..] == TruncationMarker + s;
  }
}
