/** The `std::string` operations the parsers are written with, including `npos` and unsigned wrap-around. */
module Text {
  const SIZE_T: nat := 0x1_0000_0000_0000_0000
  const NPOS: nat := SIZE_T - 1
  /** `max_size()`: no string object is longer. */
  const MAX_SIZE: nat := 0x7FFF_FFFF_FFFF_FFFF

  /** The value of a `size_t` expression: reduced modulo 2^64.  No expression of the parsers leaves this range. */
  function U64(x: int): (r: nat)
    requires -2 * SIZE_T <= x < 2 * SIZE_T
    ensures r < SIZE_T
  {
    if x < -(SIZE_T as int) then x + 2 * SIZE_T
    else if x < 0 then x + SIZE_T
    else if x < SIZE_T then x
    else x - SIZE_T
  }

  predicate At(s: string, pat: string, i: nat) {
    i + |pat| <= |s| && forall j {:trigger pat[j]} :: 0 <= j < |pat| ==> s[i + j] == pat[j]
  }

  /** `n` is the first occurrence of `pat` at or behind `from`, or `npos` when there is none. */
  predicate FirstAt(s: string, pat: string, from: nat, n: nat) {
    if n == NPOS then forall i: nat {:trigger At(s, pat, i)} :: from <= i < |s| ==> !At(s, pat, i)
    else from <= n < |s| && At(s, pat, n) && forall i: nat {:trigger At(s, pat, i)} :: from <= i < n ==> !At(s, pat, i)
  }

  lemma {:induction false} SomeFirst(s: string, pat: string, from: nat, k: nat) returns (n: nat)
    requires |s| <= MAX_SIZE && |pat| > 0 && from <= k
    requires forall i: nat {:trigger At(s, pat, i)} :: from <= i < k ==> !At(s, pat, i)
    ensures n <= NPOS && FirstAt(s, pat, from, n)
    decreases |s| - k
  {
    if k >= |s| {
      n := NPOS;
    } else if At(s, pat, k) {
      n := k;
    } else {
      n := SomeFirst(s, pat, from, k + 1);
    }
  }

  /** `s.find(pat, from)`. */
  function Find(s: string, pat: string, from: nat): (n: nat)
    requires |s| <= MAX_SIZE && |pat| > 0
    ensures (n == NPOS || from <= n < |s|) && FirstAt(s, pat, from, n)
  {
    assert exists n: nat :: n <= NPOS && FirstAt(s, pat, from, n) by {
      var n := SomeFirst(s, pat, from, from);
    }
    var n: nat :| n <= NPOS && FirstAt(s, pat, from, n);
    n
  }

  /** `s.substr(pos, len)`, which throws beyond the end and is cut at it. */
  function Substr(s: string, pos: nat, len: nat): (r: string)
    requires pos <= |s|
    ensures |r| <= |s| && r <= s[pos..]
  {
    if len <= |s| - pos then s[pos..pos + len] else s[pos..]
  }

  lemma FindIs(s: string, pat: string, from: nat, k: nat)
    requires |s| <= MAX_SIZE && |pat| > 0
    requires from <= k && At(s, pat, k)
    requires forall i: nat {:trigger At(s, pat, i)} :: from <= i < k ==> !At(s, pat, i)
    ensures Find(s, pat, from) == k
  {
    assert Find(s, pat, from) >= k;
  }

  lemma AtChar(s: string, c: char, i: nat)
    ensures At(s, [c], i) <==> i < |s| && s[i] == c
  {
    assert [c][0] == c;
    if i < |s| {
      assert s[i + 0] == s[i];
    }
  }

  /** Finding one character: the first position that holds it. */
  lemma FindChar(s: string, c: char, from: nat, k: nat)
    requires |s| <= MAX_SIZE && from <= k < |s| && s[k] == c
    requires forall i :: from <= i < k ==> s[i] != c
    ensures Find(s, [c], from) == k
  {
    forall i: nat ensures At(s, [c], i) <==> i < |s| && s[i] == c {
      AtChar(s, c, i);
    }
    FindIs(s, [c], from, k);
  }

  /** Searching behind a prefix is searching the rest. */
  lemma FindShift(a: string, b: string, pat: string, from: nat)
    requires |a + b| <= MAX_SIZE && |pat| > 0
    ensures Find(a + b, pat, |a| + from) == if Find(b, pat, from) == NPOS then NPOS else |a| + Find(b, pat, from)
  {
    forall i: nat ensures At(a + b, pat, |a| + i) <==> At(b, pat, i) {
      if i + |pat| <= |b| {
        assert (a + b)[|a| + i..|a| + i + |pat|] == b[i..i + |pat|];
      }
    }
    var n := Find(a + b, pat, |a| + from);
    if n != NPOS {
      assert At(a + b, pat, |a| + (n - |a|));
      FindIs(b, pat, from, n - |a|);
    } else {
      assert forall i: nat :: from <= i ==> !At(b, pat, i);
    }
  }

  /** `s.substr(from, to - from)` in `size_t` arithmetic: `to` may be `npos`. */
  function Between(s: string, from: nat, to: nat): (r: string)
    requires |s| <= MAX_SIZE && from <= |s| && to < SIZE_T
    ensures |r| <= |s|
  {
    Substr(s, from, U64(to - from))
  }

  /** What follows the first occurrence does not matter for finding it. */
  lemma FindInPrefix(a: string, pat: string, rest: string)
    requires |a + pat + rest| <= MAX_SIZE && |pat| > 0
    ensures Find(a + pat + rest, pat, 0) == Find(a + pat, pat, 0) <= |a|
  {
    var s, k := a + pat, Find(a + pat, pat, 0);
    assert At(s, pat, |a|);
    forall i: nat | i <= |a| ensures At(s + rest, pat, i) <==> At(s, pat, i) {
      assert (s + rest)[i..i + |pat|] == s[i..i + |pat|];
    }
    FindIs(s + rest, pat, 0, k);
  }
}
