/**
 * Ordering results by a numeric key, largest first. The aggregation pipelines
 * sort breakdown groups by count and the latest-reviews query sorts records by
 * creation time; the store leaves the order of equal keys open, and this
 * insertion sort keeps equal keys in input order, which is one admissible choice.
 */
module Sorting {

  /** `s` is ordered by `rank`, largest first. */
  predicate SortedDesc<T>(s: seq<T>, rank: T -> int) {
    forall i, j :: 0 <= i < j < |s| ==> rank(s[i]) >= rank(s[j])
  }

  /** Put `x` in front of the first element that does not outrank it. */
  function Insert<T(!new)>(x: T, s: seq<T>, rank: T -> int): (r: seq<T>)
    ensures |r| == |s| + 1
    ensures multiset(r) == multiset(s) + multiset{x}
    ensures forall y :: y in r <==> y == x || y in s
  {
    if s == [] || rank(s[0]) <= rank(x) then [x] + s
    else
      assert s == [s[0]] + s[1..];
      [s[0]] + Insert(x, s[1..], rank)
  }

  /** A sorted sequence stays sorted behind an element that outranks all of it. */
  lemma ConsSorted<T>(h: T, t: seq<T>, rank: T -> int)
    requires SortedDesc(t, rank)
    requires forall y :: y in t ==> rank(y) <= rank(h)
    ensures SortedDesc([h] + t, rank)
  {
    var r := [h] + t;
    forall i, j | 0 <= i < j < |r| ensures rank(r[i]) >= rank(r[j]) {
      assert r[j] == t[j - 1];
      if i > 0 {
        assert r[i] == t[i - 1];
      } else {
        assert t[j - 1] in t;
      }
    }
  }

  /** The first element of a sorted sequence outranks all of it. */
  lemma HeadOutranks<T>(s: seq<T>, rank: T -> int)
    requires SortedDesc(s, rank) && s != []
    ensures forall y :: y in s ==> rank(y) <= rank(s[0])
  {
    forall y | y in s ensures rank(y) <= rank(s[0]) {
      var i :| 0 <= i < |s| && s[i] == y;
    }
  }

  /** Inserting into a sorted sequence keeps it sorted. */
  lemma {:induction false} InsertSorted<T(!new)>(x: T, s: seq<T>, rank: T -> int)
    requires SortedDesc(s, rank)
    ensures SortedDesc(Insert(x, s, rank), rank)
  {
    if s == [] || rank(s[0]) <= rank(x) {
      if s != [] {
        HeadOutranks(s, rank);
      }
      ConsSorted(x, s, rank);
    } else {
      var rest := s[1..];
      assert SortedDesc(rest, rank);
      InsertSorted(x, rest, rank);
      HeadOutranks(s, rank);
      assert forall y :: y in rest ==> y in s;
      ConsSorted(s[0], Insert(x, rest, rank), rank);
    }
  }

  /** The elements of `s` ordered by `rank`, largest first; equal ranks keep input order. */
  function SortDesc<T(!new)>(s: seq<T>, rank: T -> int): (r: seq<T>)
    ensures |r| == |s|
    ensures multiset(r) == multiset(s)
    ensures SortedDesc(r, rank)
  {
    if s == [] then []
    else
      assert s == [s[0]] + s[1..];
      InsertSorted(s[0], SortDesc(s[1..], rank), rank);
      Insert(s[0], SortDesc(s[1..], rank), rank)
  }

  /** A prefix of a sorted sequence is sorted and takes nothing the sequence does not hold. */
  lemma SortedPrefix<T>(t: seq<T>, k: nat, rank: T -> int)
    requires SortedDesc(t, rank) && k <= |t|
    ensures SortedDesc(t[..k], rank)
    ensures multiset(t[..k]) <= multiset(t)
  {
    assert t == t[..k] + t[k..];
    assert multiset(t) == multiset(t[..k]) + multiset(t[k..]);
  }

  /** In a sorted sequence, an element left out of the first `k` ranks no higher than any of them. */
  lemma SortedTailBelow<T>(t: seq<T>, k: nat, rank: T -> int, y: T, j: nat)
    requires SortedDesc(t, rank) && k <= |t|
    requires y in multiset(t) - multiset(t[..k]) && j < k
    ensures rank(y) <= rank(t[j])
  {
    assert t == t[..k] + t[k..];
    assert multiset(t) == multiset(t[..k]) + multiset(t[k..]);
    assert y in multiset(t[k..]);
    var i :| 0 <= i < |t[k..]| && t[k..][i] == y;
    assert t[k + i] == y;
  }
}
