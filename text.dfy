/**
 * The few string operations of Python's `str` that discovery relies on:
 * `lower()`, `startswith()`, `in`, `strip()` and `split("\r\n")`.
 * Strings are sequences of Unicode scalar values.
 */
module Text {

  /** `c.lower()` on a single ASCII letter; every other character is kept. */
  function LowerChar(c: char): char {
    if 'A' <= c <= 'Z' then (c as int + 32) as char else c
  }

  /** `s.lower()`, restricted to ASCII case mapping. */
  function Lower(s: string): (r: string)
    ensures |r| == |s|
    ensures forall i :: 0 <= i < |s| ==> r[i] == LowerChar(s[i])
  {
    seq(|s|, i requires 0 <= i < |s| => LowerChar(s[i]))
  }

  /** `s.startswith(prefix)`. */
  predicate StartsWith(s: string, prefix: string) {
    |prefix| <= |s| && s[..|prefix|] == prefix
  }

  /** `q in s` for strings: `q` occurs in `s` as a contiguous piece. */
  predicate Contains(s: string, q: string) {
    exists k :: 0 <= k <= |s| - |q| && OccursAt(s, q, k)
  }

  /** `q` is the piece of `s` starting at index `k`. */
  predicate OccursAt(s: string, q: string, k: int) {
    0 <= k <= |s| - |q| && s[k..k + |q|] == q
  }

  lemma ContainsSelf(s: string)
    ensures Contains(s, s)
  {
    assert s[0..|s|] == s;
    assert OccursAt(s, s, 0);
  }

  /** `c.isspace()`: the characters that `str.strip()` removes. */
  predicate IsSpace(c: char) {
    || '\t' <= c <= '\r'
    || '\U{1C}' <= c <= '\U{20}'
    || c == '\U{85}' || c == '\U{A0}' || c == '\U{1680}'
    || '\U{2000}' <= c <= '\U{200A}'
    || c == '\U{2028}' || c == '\U{2029}' || c == '\U{202F}' || c == '\U{205F}' || c == '\U{3000}'
  }

  /** The first index from `i` on that is not whitespace, or `|s|`. */
  function SkipSpaces(s: string, i: nat): (r: nat)
    requires i <= |s|
    ensures i <= r <= |s|
    ensures forall k :: i <= k < r ==> IsSpace(s[k])
    ensures r < |s| ==> !IsSpace(s[r])
    decreases |s| - i
  {
    if i == |s| || !IsSpace(s[i]) then i else SkipSpaces(s, i + 1)
  }

  /** The end of `s[i..j]` once its trailing whitespace is dropped. */
  function DropTrailingSpaces(s: string, i: nat, j: nat): (r: nat)
    requires i <= j <= |s|
    ensures i <= r <= j
    ensures forall k :: r <= k < j ==> IsSpace(s[k])
    ensures i < r ==> !IsSpace(s[r - 1])
  {
    if j == i || !IsSpace(s[j - 1]) then j else DropTrailingSpaces(s, i, j - 1)
  }

  /**
   * `s.strip()`: the slice of `s` left after removing every leading and
   * trailing whitespace character; it neither starts nor ends with one.
   */
  function Strip(s: string): (r: string)
    ensures exists i, j :: StripsTo(s, r, i, j)
    ensures r != [] ==> !IsSpace(r[0]) && !IsSpace(r[|r| - 1])
  {
    var i := SkipSpaces(s, 0);
    var j := DropTrailingSpaces(s, i, |s|);
    assert StripsTo(s, s[i..j], i, j);
    s[i..j]
  }

  /** `r` is `s[i..j]`, and everything of `s` outside that slice is whitespace. */
  ghost predicate StripsTo(s: string, r: string, i: int, j: int) {
    && 0 <= i <= j <= |s| && r == s[i..j]
    && (forall k :: 0 <= k < i ==> IsSpace(s[k]))
    && (forall k :: j <= k < |s| ==> IsSpace(s[k]))
  }

  /** `s` has a carriage-return/line-feed pair somewhere. */
  predicate HasCRLF(s: string) {
    exists k :: 0 <= k < |s| - 1 && s[k] == '\r' && s[k + 1] == '\n'
  }

  /** `s.split("\r\n")`: the pieces between non-overlapping separators, left to right. */
  function SplitCRLF(s: string): (lines: seq<string>)
    ensures |lines| >= 1
    ensures lines[0] <= s
    decreases |s|
  {
    if |s| < 2 then [s]
    else if s[0] == '\r' && s[1] == '\n' then [""] + SplitCRLF(s[2..])
    else
      var rest := SplitCRLF(s[1..]);
      [[s[0]] + rest[0]] + rest[1..]
  }

  /** `"\r\n".join(lines)`. */
  function JoinCRLF(lines: seq<string>): string
    requires |lines| >= 1
  {
    if |lines| == 1 then lines[0] else lines[0] + "\r\n" + JoinCRLF(lines[1..])
  }

  lemma {:induction false} JoinConsFirst(c: char, lines: seq<string>)
    requires |lines| >= 1
    ensures JoinCRLF([[c] + lines[0]] + lines[1..]) == [c] + JoinCRLF(lines)
  {
    var ls := [[c] + lines[0]] + lines[1..];
    assert |ls| == |lines| && ls[0] == [c] + lines[0];
    if |lines| > 1 {
      assert ls[1..] == lines[1..];
      var tail := "\r\n" + JoinCRLF(lines[1..]);
      assert ([c] + lines[0]) + tail == [c] + (lines[0] + tail);
    }
  }

  /** Splitting and joining again gives back the response. */
  lemma {:induction false} SplitJoin(s: string)
    ensures JoinCRLF(SplitCRLF(s)) == s
    decreases |s|
  {
    if |s| < 2 {
    } else if s[0] == '\r' && s[1] == '\n' {
      SplitJoin(s[2..]);
      var rest := SplitCRLF(s[2..]);
      assert ([""] + rest)[1..] == rest;
      assert s == "\r\n" + s[2..];
    } else {
      SplitJoin(s[1..]);
      var rest := SplitCRLF(s[1..]);
      JoinConsFirst(s[0], rest);
      assert s == [s[0]] + s[1..];
    }
  }

  /** No piece of a split contains the separator. */
  lemma {:induction false} SplitLinesHaveNoCRLF(s: string)
    ensures forall i :: 0 <= i < |SplitCRLF(s)| ==> !HasCRLF(SplitCRLF(s)[i])
    decreases |s|
  {
    var lines := SplitCRLF(s);
    if |s| < 2 {
      assert lines == [s];
    } else if s[0] == '\r' && s[1] == '\n' {
      SplitLinesHaveNoCRLF(s[2..]);
      var rest := SplitCRLF(s[2..]);
      assert lines == [""] + rest;
      forall i | 0 <= i < |lines| ensures !HasCRLF(lines[i]) {
        if i > 0 { assert lines[i] == rest[i - 1]; }
      }
    } else {
      SplitLinesHaveNoCRLF(s[1..]);
      var rest := SplitCRLF(s[1..]);
      var first := [s[0]] + rest[0];
      assert lines == [first] + rest[1..];
      assert !HasCRLF(rest[0]);
      forall k | 0 <= k < |first| - 1 ensures !(first[k] == '\r' && first[k + 1] == '\n') {
        if k == 0 {
          assert first[1] == rest[0][0] == s[1];
        } else {
          assert first[k] == rest[0][k - 1] && first[k + 1] == rest[0][k];
        }
      }
      forall i | 0 <= i < |lines| ensures !HasCRLF(lines[i]) {
        if i > 0 { assert lines[i] == rest[i]; }
      }
    }
  }
}
