/** Sequence helpers shared by the chart builder and the period key. */
module Seqs {

  /** No element occurs twice in `s`. */
  ghost predicate Distinct<T>(s: seq<T>) {
    forall i, j :: 0 <= i < j < |s| ==> s[i] != s[j]
  }

  /** A sequence with a new head has no repetitions exactly when the head is
      new and the tail has none. */
  lemma DistinctCons<T>(x: T, s: seq<T>)
    ensures Distinct([x] + s) <==> x !in s && Distinct(s)
  {
    var t := [x] + s;
    assert forall i :: 0 <= i < |s| ==> t[i + 1] == s[i];
    if x in s {
      var k :| 0 <= k < |s| && s[k] == x;
      assert t[0] == t[k + 1];
    }
  }

  /** `i` is the position of the first occurrence of `x` in `s`. */
  ghost predicate IsFirstIndex<T>(s: seq<T>, i: nat, x: T) {
    i < |s| && s[i] == x && forall k :: 0 <= k < i ==> s[k] != x
  }

  /** Position of the first occurrence of `x` in `s`, as Python's `list.index`
      computes it. Python raises when `x` is absent; callers here prove presence. */
  function IndexOf<T(==)>(s: seq<T>, x: T): (i: nat)
    requires x in s
    ensures IsFirstIndex(s, i, x)
  {
    if s[0] == x then 0 else 1 + IndexOf(s[1..], x)
  }

  /** In a sequence without repetitions the first occurrence is the only one. */
  lemma IndexOfDistinct<T>(s: seq<T>, k: nat)
    requires Distinct(s) && k < |s|
    ensures IndexOf(s, s[k]) == k
  {
  }

  /** A sequence is its prefix before `k`, its element at `k`, and the rest. */
  lemma SplitAt<T>(s: seq<T>, k: nat)
    requires k < |s|
    ensures s == s[..k] + [s[k]] + s[k + 1..]
  {
  }

  /** Dropping the element at `k` drops one copy of it from the multiset. */
  lemma MultisetRemove<T>(s: seq<T>, k: nat)
    requires k < |s|
    ensures multiset(s[..k] + s[k + 1..]) == multiset(s) - multiset{s[k]}
  {
    assert s == s[..k] + [s[k]] + s[k + 1..];
    assert multiset(s) == multiset(s[..k]) + multiset{s[k]} + multiset(s[k + 1..]);
  }

  /** Python's `list(range(n))`. */
  function Range(n: nat): seq<nat> {
    seq(n, i => i)
  }

  /** Python's `[x] * n`. */
  function Repeat<T>(x: T, n: nat): seq<T> {
    seq(n, _ => x)
  }
}
