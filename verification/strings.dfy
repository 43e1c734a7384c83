/**
 The string operations the enhancements rely on: Python's substring test
 `sub in s`, `s.split(c)` for a one-character separator and `sep.join(parts)`.
 */
module Strings {

  /** `sub` occurs in `s` starting at index `i`. */
  ghost predicate OccursAt(s: string, sub: string, i: int) {
    0 <= i && i + |sub| <= |s| && s[i..i + |sub|] == sub
  }

  /** Whether `sub` occurs in `s` at some index `k` or later. */
  function ContainsFrom(s: string, sub: string, k: nat): (b: bool)
    ensures b <==> exists i :: k <= i && OccursAt(s, sub, i)
    decreases |s| - k
  {
    if k + |sub| > |s| then false
    else if s[k..k + |sub|] == sub then assert OccursAt(s, sub, k); true
    else ContainsFrom(s, sub, k + 1)
  }

  /** Python's `sub in s` on two strings; the empty string occurs everywhere. */
  function Contains(s: string, sub: string): (b: bool)
    ensures b <==> exists i :: OccursAt(s, sub, i)
  {
    ContainsFrom(s, sub, 0)
  }

  /** An occurrence of `sub` inside an occurrence of `mid` is an occurrence in `s`. */
  lemma OccursWithin(s: string, mid: string, sub: string, i: int, j: int)
    requires OccursAt(s, mid, i) && OccursAt(mid, sub, j)
    ensures OccursAt(s, sub, i + j)
  {
    forall k | 0 <= k < |sub|
      ensures s[i + j + k] == sub[k]
    {
      assert s[i..i + |mid|][j + k] == mid[j + k];
      assert mid[j..j + |sub|][k] == sub[k];
    }
  }

  /** The index of the first `c` in `s`. */
  function IndexOf(s: string, c: char): (k: nat)
    requires c in s
    ensures k < |s| && s[k] == c && c !in s[..k]
  {
    if s[0] == c then 0
    else
      var k := 1 + IndexOf(s[1..], c);
      assert s[..k] == [s[0]] + s[1..][..k - 1];
      k
  }

  /** Python's `sep.join(parts)`. */
  function Join(parts: seq<string>, sep: string): string
  {
    if |parts| == 0 then ""
    else if |parts| == 1 then parts[0]
    else parts[0] + sep + Join(parts[1..], sep)
  }

  /**
   Python's `s.split(c)` for a single-character separator: the pieces between
   consecutive separators, so there is always at least one piece and
   `"a,,b"` gives an empty middle piece.
   */
  function Split(s: string, c: char): (parts: seq<string>)
    ensures |parts| >= 1
    ensures forall i :: 0 <= i < |parts| ==> c !in parts[i]
    ensures Join(parts, [c]) == s
    decreases |s|
  {
    if c !in s then [s]
    else
      var k := IndexOf(s, c);
      var rest := Split(s[k + 1..], c);
      assert s == s[..k] + [c] + s[k + 1..];
      assert ([s[..k]] + rest)[1..] == rest;
      [s[..k]] + rest
  }

  /** The first separator in a join is the one after the first piece. */
  lemma IndexOfJoin(parts: seq<string>, c: char)
    requires |parts| >= 2 && c !in parts[0]
    ensures c in Join(parts, [c])
    ensures IndexOf(Join(parts, [c]), c) == |parts[0]|
    ensures Join(parts, [c])[|parts[0]| + 1..] == Join(parts[1..], [c])
  {
    var s := Join(parts, [c]);
    var p := |parts[0]|;
    assert s == parts[0] + [c] + Join(parts[1..], [c]);
    assert s[p] == c;
  }

  /** Splitting a join of separator-free pieces gives the pieces back. */
  lemma {:induction false} SplitOfJoin(parts: seq<string>, c: char)
    requires |parts| >= 1
    requires forall i :: 0 <= i < |parts| ==> c !in parts[i]
    ensures Split(Join(parts, [c]), c) == parts
    decreases |parts|
  {
    if |parts| >= 2 {
      var s := Join(parts, [c]);
      IndexOfJoin(parts, c);
      SplitOfJoin(parts[1..], c);
      assert Split(s, c) == [s[..|parts[0]|]] + Split(s[|parts[0]| + 1..], c);
      assert s[..|parts[0]|] == parts[0];
    }
  }
}
