/**
 * String helpers with JavaScript semantics: `indexOf`, `split` on a non-empty
 * string separator, `join`, `includes`, and integer formatting.
 */
module Strings {
  import opened Optional

  /** `sep` occurs in `s` starting at index `i`. */
  predicate OccursAt(s: string, sep: string, i: nat) {
    i + |sep| <= |s| && s[i..i + |sep|] == sep
  }

  /** `sep` occurs nowhere in `s`. */
  ghost predicate Free(s: string, sep: string) {
    forall i: nat :: !OccursAt(s, sep, i)
  }

  /** The first character of `sep` never recurs inside it, so two occurrences cannot overlap. */
  predicate Unbordered(sep: string) {
    |sep| > 0 && forall k :: 0 < k < |sep| ==> sep[k] != sep[0]
  }

  /** `s.indexOf(sep, from)`: the first occurrence at or after `from`. */
  function IndexOf(s: string, sep: string, from: nat): (r: Option<nat>)
    decreases |s| - from
    ensures r.Some? ==> from <= r.value && OccursAt(s, sep, r.value)
    ensures r.Some? ==> forall j: nat :: from <= j < r.value ==> !OccursAt(s, sep, j)
    ensures r.None? ==> forall j: nat :: from <= j ==> !OccursAt(s, sep, j)
  {
    if |s| < from + |sep| then None
    else if s[from..from + |sep|] == sep then Some(from)
    else IndexOf(s, sep, from + 1)
  }

  /** `s.includes(sub)`. */
  predicate Includes(s: string, sub: string) {
    IndexOf(s, sub, 0).Some?
  }

  /** `s.split(sep)` for a non-empty string separator: the pieces between non-overlapping occurrences, left to right. */
  function Split(s: string, sep: string): (parts: seq<string>)
    requires |sep| > 0
    decreases |s|
    ensures |parts| >= 1
  {
    match IndexOf(s, sep, 0)
    case None => [s]
    case Some(i) => [s[..i]] + Split(s[i + |sep|..], sep)
  }

  /** `parts.join(sep)`. */
  function Join(parts: seq<string>, sep: string): string
    decreases |parts|
  {
    if |parts| == 0 then ""
    else if |parts| == 1 then parts[0]
    else parts[0] + sep + Join(parts[1..], sep)
  }

  /** An occurrence inside a slice is an occurrence in the whole string. */
  lemma OccursInSlice(s: string, sep: string, lo: nat, hi: nat, j: nat)
    requires lo <= hi <= |s|
    requires OccursAt(s[lo..hi], sep, j)
    ensures OccursAt(s, sep, lo + j)
  {
    var t := s[lo..hi];
    assert j + |sep| <= |t|;
    forall k | 0 <= k < |sep|
      ensures s[lo + j + k] == sep[k]
    {
      assert t[j..j + |sep|][k] == t[j + k] == s[lo + j + k];
    }
    assert s[lo + j..lo + j + |sep|] == sep;
  }

  /** A string with no occurrence has itself as its only piece. */
  lemma SplitFree(s: string, sep: string)
    requires |sep| > 0 && Free(s, sep)
    ensures Split(s, sep) == [s]
  {
  }

  /** Splitting then joining gives back the original string. */
  lemma {:induction false} JoinSplit(s: string, sep: string)
    requires |sep| > 0
    ensures Join(Split(s, sep), sep) == s
    decreases |s|
  {
    match IndexOf(s, sep, 0)
    case None =>
    case Some(i) =>
      var rest := s[i + |sep|..];
      var tail := Split(rest, sep);
      JoinSplit(rest, sep);
      assert Split(s, sep) == [s[..i]] + tail;
      assert ([s[..i]] + tail)[1..] == tail;
      assert Join(Split(s, sep), sep) == s[..i] + sep + rest;
      assert s[i..i + |sep|] == sep;
      assert s == s[..i] + s[i..i + |sep|] + rest;
  }

  /** No piece of a split contains the separator. */
  lemma {:induction false} SplitPiecesFree(s: string, sep: string)
    requires |sep| > 0
    ensures forall k :: 0 <= k < |Split(s, sep)| ==> Free(Split(s, sep)[k], sep)
    decreases |s|
  {
    match IndexOf(s, sep, 0)
    case None =>
      assert Split(s, sep) == [s];
    case Some(i) =>
      var rest := s[i + |sep|..];
      SplitPiecesFree(rest, sep);
      forall j: nat | OccursAt(s[..i], sep, j)
        ensures false
      {
        OccursInSlice(s, sep, 0, i, j);
      }
      assert Split(s, sep) == [s[..i]] + Split(rest, sep);
  }

  /** With a non-overlapping separator, an occurrence cannot start inside a separator-free prefix. */
  lemma NoEarlierOccurrence(a: string, sep: string, b: string, j: nat)
    requires Unbordered(sep) && Free(a, sep) && j < |a|
    ensures !OccursAt(a + sep + b, sep, j)
  {
    var s := a + sep + b;
    if j + |sep| <= |a| {
      assert s[j..j + |sep|] == a[j..j + |sep|];
      assert !OccursAt(a, sep, j);
    } else {
      var k := |a| - j;
      assert s[|a|] == sep[0] != sep[k];
      if j + |sep| <= |s| {
        assert s[j..j + |sep|][k] == s[|a|];
      }
    }
  }

  /** Splitting `a + sep + b` with `a` separator-free peels off `a` exactly. */
  lemma SplitPeel(a: string, sep: string, b: string)
    requires Unbordered(sep) && Free(a, sep)
    ensures Split(a + sep + b, sep) == [a] + Split(b, sep)
  {
    var s := a + sep + b;
    assert s[|a|..|a| + |sep|] == sep;
    assert OccursAt(s, sep, |a|);
    var r := IndexOf(s, sep, 0);
    assert r.Some? && r.value <= |a|;
    if r.value < |a| {
      NoEarlierOccurrence(a, sep, b, r.value);
    }
    assert r == Some(|a|);
    assert s[..|a|] == a;
    assert s[|a| + |sep|..] == b;
  }

  /** Joining separator-free pieces then splitting gives back the pieces. */
  lemma {:induction false} SplitJoin(parts: seq<string>, sep: string)
    requires Unbordered(sep) && |parts| >= 1
    requires forall k :: 0 <= k < |parts| ==> Free(parts[k], sep)
    ensures Split(Join(parts, sep), sep) == parts
    decreases |parts|
  {
    if |parts| == 1 {
      SplitFree(parts[0], sep);
    } else {
      SplitJoin(parts[1..], sep);
      SplitPeel(parts[0], sep, Join(parts[1..], sep));
    }
  }

  /** The text before the first occurrence of `sep` (all of `s` if none): `s.split(sep).shift()`. */
  function Before(s: string, sep: string): (r: string)
    requires |sep| > 0
    ensures r <= s
    ensures Free(r, sep)
    ensures r == s || OccursAt(s, sep, |r|)
  {
    JoinSplit(s, sep);
    SplitPiecesFree(s, sep);
    var parts := Split(s, sep);
    assert |parts| > 1 ==> s == parts[0] + sep + Join(parts[1..], sep);
    assert |parts| > 1 ==> s[|parts[0]|..|parts[0]| + |sep|] == sep;
    parts[0]
  }

  /** One decimal digit. */
  function Digit(d: nat): char
    requires d < 10
  {
    "0123456789"[d]
  }

  /** Decimal text of a natural number, as `String(n)` writes it. */
  function NatToString(n: nat): (r: string)
    ensures |r| >= 1
    ensures forall k :: 0 <= k < |r| ==> '0' <= r[k] <= '9'
    decreases n
  {
    if n < 10 then [Digit(n)] else NatToString(n / 10) + [Digit(n % 10)]
  }

  /** Decimal text of an integer, with a leading '-' when negative. */
  function IntToString(n: int): (r: string)
    ensures |r| >= 1
  {
    if n < 0 then "-" + NatToString(-n) else NatToString(n)
  }
}
