/**
 * The handful of Python `str` operations the core relies on, over `seq<char>`:
 * `isspace`/`strip`, `startswith`, `split(sep)`, `splitlines`, substring search
 * (`in`, `index`), `"\n".join` and ASCII `lower`.
 */
module Text {
  import opened Wrappers

  /** Python's `str.isspace()` for one character (by code point). */
  predicate IsSpace(c: char) {
    var n := c as int;
    || (0x09 <= n <= 0x0d) || (0x1c <= n <= 0x20)
    || n == 0x85 || n == 0xa0 || n == 0x1680
    || (0x2000 <= n <= 0x200a)
    || n == 0x2028 || n == 0x2029 || n == 0x202f || n == 0x205f || n == 0x3000
  }

  /** The characters at which Python's `str.splitlines()` ends a line (by code point). */
  predicate IsLineBreak(c: char) {
    var n := c as int;
    || (0x0a <= n <= 0x0d) || (0x1c <= n <= 0x1e)
    || n == 0x85 || n == 0x2028 || n == 0x2029
  }

  predicate StartsWith(s: string, prefix: string) {
    prefix <= s
  }

  /** `s.lstrip()`: drops the leading whitespace, and only that. */
  function LStrip(s: string): (r: string)
    ensures |r| <= |s| && r == s[|s| - |r|..]
    ensures r == [] || !IsSpace(r[0])
    ensures forall i :: 0 <= i < |s| - |r| ==> IsSpace(s[i])
  {
    if s != [] && IsSpace(s[0]) then LStrip(s[1..]) else s
  }

  /** `s.rstrip()`: drops the trailing whitespace, and only that. */
  function RStrip(s: string): (r: string)
    ensures |r| <= |s| && r == s[..|r|]
    ensures r == [] || !IsSpace(r[|r| - 1])
    ensures forall i :: |r| <= i < |s| ==> IsSpace(s[i])
  {
    if s != [] && IsSpace(s[|s| - 1]) then RStrip(s[..|s| - 1]) else s
  }

  /** `s.strip()`. */
  function Strip(s: string): string {
    RStrip(LStrip(s))
  }

  /** The first whitespace-free run of a string that does not start with whitespace:
      `s.split()[0]` for such a string. */
  function LeadingToken(s: string): (r: string)
    ensures r <= s
    ensures forall i :: 0 <= i < |r| ==> !IsSpace(r[i])
    ensures |r| == |s| || IsSpace(s[|r|])
  {
    if s == [] || IsSpace(s[0]) then [] else [s[0]] + LeadingToken(s[1..])
  }

  /** `sep.join(parts)` for a one-character separator. */
  function JoinWith(parts: seq<string>, sep: char): string {
    if |parts| == 0 then []
    else if |parts| == 1 then parts[0]
    else parts[0] + [sep] + JoinWith(parts[1..], sep)
  }

  /** The last piece of a join is the text after the join's last separator. */
  lemma {:induction false} JoinLastPiece(parts: seq<string>, sep: char)
    requires |parts| >= 1
    ensures var s := JoinWith(parts, sep);
      var last := parts[|parts| - 1];
      && |last| <= |s| && s[|s| - |last|..] == last
      && (|parts| >= 2 ==> |last| < |s| && s[|s| - |last| - 1] == sep)
  {
    if |parts| >= 2 {
      JoinLastPiece(parts[1..], sep);
    }
  }

  /** `s.split(sep)` for a one-character separator: the pieces between the
      separators, so there is always one more piece than separators. */
  function SplitOn(s: string, sep: char): (r: seq<string>)
    ensures |r| >= 1
    ensures JoinWith(r, sep) == s
    ensures forall i :: 0 <= i < |r| ==> sep !in r[i]
    ensures r[0] <= s && (|r[0]| == |s| || s[|r[0]|] == sep)
    ensures sep in s <==> |r| >= 2
  {
    if sep !in s then [s]
    else
      var i := IndexOfChar(s, sep);
      [s[..i]] + SplitOn(s[i + 1..], sep)
  }

  /** The second piece of a split is the text after the first separator, up to the next
      separator or the end. */
  lemma SplitSecondPiece(s: string, sep: char)
    requires sep in s
    ensures |SplitOn(s, sep)| >= 2
    ensures var q := IndexOfChar(s, sep);
      var piece := SplitOn(s, sep)[1];
      && piece <= s[q + 1..]
      && (q + 1 + |piece| == |s| || s[q + 1 + |piece|] == sep)
  {
    var q := IndexOfChar(s, sep);
    assert SplitOn(s, sep)[1] == SplitOn(s[q + 1..], sep)[0];
  }

  /** The position of the first occurrence of `c` in `s`. */
  function IndexOfChar(s: string, c: char): (i: nat)
    requires c in s
    ensures i < |s| && s[i] == c && c !in s[..i]
  {
    if s[0] == c then 0 else 1 + IndexOfChar(s[1..], c)
  }

  /** `s.splitlines()`: a line per break; `\r\n` is one break; a final break
      opens no further line, so the empty string has no lines. */
  function SplitLines(s: string): (r: seq<string>)
    ensures forall i :: 0 <= i < |r| ==> forall j :: 0 <= j < |r[i]| ==> !IsLineBreak(r[i][j])
    ensures s == [] <==> r == []
    decreases |s|
  {
    if s == [] then []
    else
      var n := LineLength(s);
      if n == |s| then [s]
      else
        var next := if s[n] == '\r' && n + 1 < |s| && s[n + 1] == '\n' then n + 2 else n + 1;
        [s[..n]] + SplitLines(s[next..])
  }

  /** The length of the first line of `s`: the number of characters before the first line break. */
  function LineLength(s: string): (n: nat)
    ensures n <= |s|
    ensures forall j :: 0 <= j < n ==> !IsLineBreak(s[j])
    ensures n < |s| ==> IsLineBreak(s[n])
  {
    if s == [] || IsLineBreak(s[0]) then 0 else 1 + LineLength(s[1..])
  }

  /** `sub` occurs in `s` starting at index `i`. */
  predicate OccursAt(s: string, sub: string, i: int) {
    0 <= i && i + |sub| <= |s| && s[i..i + |sub|] == sub
  }

  /** An occurrence past the first character is an occurrence in the rest of the string. */
  lemma OccursShifted(s: string, sub: string, k: int)
    requires s != [] && 1 <= k
    ensures OccursAt(s, sub, k) <==> OccursAt(s[1..], sub, k - 1)
  {
    if k + |sub| <= |s| {
      assert s[1..][k - 1..] == s[k..];
      assert s[k..k + |sub|] == s[1..][k - 1..k - 1 + |sub|];
    }
  }

  /** Python's `s.find(sub)` (and `s.index(sub)` when it succeeds): the lowest index at which `sub` occurs. */
  function Find(s: string, sub: string): (r: Option<nat>)
    ensures r.Some? ==> OccursAt(s, sub, r.value)
    ensures r.Some? ==> forall i :: 0 <= i < r.value ==> !OccursAt(s, sub, i)
    ensures r.None? ==> forall i :: !OccursAt(s, sub, i)
  {
    if |sub| > |s| then None
    else if sub <= s then Some(0)
    else
      assert !OccursAt(s, sub, 0);
      assert forall k :: 1 <= k ==> (OccursAt(s, sub, k) <==> OccursAt(s[1..], sub, k - 1)) by {
        forall k | 1 <= k ensures OccursAt(s, sub, k) <==> OccursAt(s[1..], sub, k - 1) {
          OccursShifted(s, sub, k);
        }
      }
      match Find(s[1..], sub)
      case None => None
      case Some(i) => Some(i + 1)
  }

  /** Python's `sub in s` for strings. */
  predicate Contains(s: string, sub: string) {
    Find(s, sub).Some?
  }

  function LowerChar(c: char): char {
    if 'A' <= c <= 'Z' then (c as int + 32) as char else c
  }

  /** `s.lower()`, for ASCII letters. */
  function Lower(s: string): string {
    seq(|s|, i requires 0 <= i < |s| => LowerChar(s[i]))
  }
}
