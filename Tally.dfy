/**
 * Counting and ordering over sequences of integers: the `filter(...).length`
 * counts, the first-seen key order of a JavaScript `Map`, and an ascending
 * copy as produced by `[...values].sort((a, b) => a - b)`.
 */
module Tally {

  /** How many times `v` occurs in `s`. */
  function Occurrences(s: seq<int>, v: int): nat
  {
    multiset(s)[v]
  }

  /** `s.filter(x => x <= t).length`. */
  function CountAtMost(s: seq<int>, t: int): (c: nat)
    ensures c <= |s|
    ensures c == |s| <==> forall i :: 0 <= i < |s| ==> s[i] <= t
  {
    if |s| == 0 then 0
    else CountAtMost(s[..|s| - 1], t) + (if s[|s| - 1] <= t then 1 else 0)
  }

  /** `s.filter(x => x > t).length`. */
  function CountAbove(s: seq<int>, t: int): (c: nat)
    ensures c <= |s|
    ensures c == 0 <==> forall i :: 0 <= i < |s| ==> s[i] <= t
  {
    if |s| == 0 then 0
    else CountAbove(s[..|s| - 1], t) + (if s[|s| - 1] > t then 1 else 0)
  }

  /** Every element is either at most `t` or above it. */
  lemma {:induction false} AtMostPlusAbove(s: seq<int>, t: int)
    ensures CountAtMost(s, t) + CountAbove(s, t) == |s|
  {
    if |s| > 0 {
      AtMostPlusAbove(s[..|s| - 1], t);
    }
  }

  /** No element occurs twice. */
  predicate Distinct(d: seq<int>)
  {
    forall i, j :: 0 <= i < j < |d| ==> d[i] != d[j]
  }

  /** Extending a prefix by one element adds that element's occurrence. */
  lemma PrefixGrows(s: seq<int>, i: nat)
    requires i < |s|
    ensures s[..i + 1] == s[..i] + [s[i]]
    ensures multiset(s[..i + 1]) == multiset(s[..i]) + multiset{s[i]}
  {
    assert s[..i + 1] == s[..i] + [s[i]];
  }

  /** The first-seen order of a longer prefix gains the new element when it is new. */
  lemma DedupGrows(s: seq<int>, i: nat)
    requires i < |s|
    ensures Dedup(s[..i + 1]) == if s[i] in s[..i] then Dedup(s[..i]) else Dedup(s[..i]) + [s[i]]
  {
    assert s[..i + 1][..i] == s[..i];
  }

  /** An element of a distinct sequence does not occur before its own position. */
  lemma DistinctNotBefore(d: seq<int>, j: nat)
    requires Distinct(d) && j < |d|
    ensures d[..j + 1] == d[..j] + [d[j]]
    ensures d[j] !in d[..j]
  {
    assert d[..j + 1] == d[..j] + [d[j]];
  }

  /**
   * The distinct elements of `s` in order of first occurrence: the key order
   * of a JavaScript `Map` filled by `map.set(v, ...)` for each `v` of `s`.
   */
  function Dedup(s: seq<int>): (d: seq<int>)
    ensures forall x :: x in d <==> x in s
    ensures Distinct(d)
  {
    if |s| == 0 then []
    else
      var p := Dedup(s[..|s| - 1]);
      if s[|s| - 1] in s[..|s| - 1] then p else p + [s[|s| - 1]]
  }

  /** The position of the first occurrence of `v` in `s`. */
  function FirstIndex(s: seq<int>, v: int): (i: nat)
    requires v in s
    ensures i < |s| && s[i] == v
    ensures forall j :: 0 <= j < i ==> s[j] != v
  {
    if s[0] == v then 0 else 1 + FirstIndex(s[1..], v)
  }

  /** A first occurrence inside a prefix is the first occurrence in the whole. */
  lemma FirstIndexInPrefix(s: seq<int>, n: nat, v: int)
    requires n <= |s| && v in s[..n]
    ensures FirstIndex(s, v) == FirstIndex(s[..n], v)
  {
    var i := FirstIndex(s[..n], v);
    var j := FirstIndex(s, v);
    assert s[i] == v;
    assert j <= i;
    assert s[..n][j] == v;
  }

  /** The keys of `Dedup(s)` are listed in the order their first occurrences appear in `s`. */
  lemma {:induction false} DedupFirstSeenOrder(s: seq<int>, a: nat, b: nat)
    requires a < b < |Dedup(s)|
    ensures FirstIndex(s, Dedup(s)[a]) < FirstIndex(s, Dedup(s)[b])
  {
    var n := |s|;
    var p := s[..n - 1];
    var d := Dedup(s);
    assert d[a] in s && d[b] in s;
    if b < |Dedup(p)| {
      assert d[a] == Dedup(p)[a] && d[b] == Dedup(p)[b];
      FirstIndexInPrefix(s, n - 1, d[a]);
      FirstIndexInPrefix(s, n - 1, d[b]);
      DedupFirstSeenOrder(p, a, b);
    } else {
      assert d[b] == s[n - 1] && s[n - 1] !in p;
      assert d[a] == Dedup(p)[a] && d[a] in p;
      FirstIndexInPrefix(s, n - 1, d[a]);
    }
  }

  /** Ascending order. */
  predicate Sorted(s: seq<int>)
  {
    forall i, j :: 0 <= i < j < |s| ==> s[i] <= s[j]
  }

  /** Insert `x` into an ascending sequence, keeping it ascending. */
  function Insert(x: int, s: seq<int>): (r: seq<int>)
    ensures |r| == |s| + 1
    ensures r[0] == if |s| == 0 || x <= s[0] then x else s[0]
    ensures multiset(r) == multiset(s) + multiset{x}
  {
    if |s| == 0 then [x]
    else if x <= s[0] then [x] + s
    else
      assert s == [s[0]] + s[1..];
      [s[0]] + Insert(x, s[1..])
  }

  /** Inserting into an ascending sequence keeps it ascending. */
  lemma {:induction false} InsertSorted(x: int, s: seq<int>)
    requires Sorted(s)
    ensures Sorted(Insert(x, s))
  {
    if |s| > 0 && x > s[0] {
      var rest := Insert(x, s[1..]);
      InsertSorted(x, s[1..]);
      assert Insert(x, s) == [s[0]] + rest;
      assert s[0] <= rest[0];
    }
  }

  /** An ascending permutation of `s`, leaving `s` itself as it was. */
  function SortedCopy(s: seq<int>): (r: seq<int>)
    ensures |r| == |s|
    ensures Sorted(r)
    ensures multiset(r) == multiset(s)
    ensures forall x :: x in r <==> x in s
  {
    if |s| == 0 then []
    else
      var p := s[..|s| - 1];
      assert s == p + [s[|s| - 1]];
      var r := Insert(s[|s| - 1], SortedCopy(p));
      InsertSorted(s[|s| - 1], SortedCopy(p));
      assert forall x :: x in r <==> x in multiset(r);
      assert forall x :: x in s <==> x in multiset(s);
      r
  }

  /** `values.reduce((sum, v) => sum + v, 0)`. */
  function Sum(s: seq<int>): int
  {
    if |s| == 0 then 0 else Sum(s[..|s| - 1]) + s[|s| - 1]
  }
}
