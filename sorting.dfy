/**
  Python's `sorted(...)` on a list of integers. Any sorting algorithm gives the one
  ascending permutation, so the model uses insertion sort and proves it produces that one.
 */
module Sorting {

  predicate Sorted(s: seq<int>) {
    forall i, j :: 0 <= i < j < |s| ==> s[i] <= s[j]
  }

  predicate Distinct(s: seq<int>) {
    forall i, j :: 0 <= i < j < |s| ==> s[i] != s[j]
  }

  /** Strictly ascending: sorted and without repeats. */
  predicate Increasing(s: seq<int>) {
    forall i, j :: 0 <= i < j < |s| ==> s[i] < s[j]
  }

  /** Puts `x` into its place in a sorted list. */
  function Insert(x: nat, s: seq<nat>): (r: seq<nat>)
    ensures multiset(r) == multiset(s) + multiset{x}
    decreases |s|
  {
    if s == [] || x <= s[0] then [x] + s
    else
      assert s == [s[0]] + s[1..];
      [s[0]] + Insert(x, s[1..])
  }

  /** Inserting `x` into a list bounded below by `b` keeps it bounded below by `b`, when `x` is too. */
  lemma {:induction false} InsertAbove(x: nat, s: seq<nat>, b: int)
    requires b <= x && forall k :: 0 <= k < |s| ==> b <= s[k]
    ensures forall k :: 0 <= k < |Insert(x, s)| ==> b <= Insert(x, s)[k]
    decreases |s|
  {
    if s != [] && x > s[0] {
      InsertAbove(x, s[1..], b);
    }
  }

  lemma {:induction false} InsertSorted(x: nat, s: seq<nat>)
    requires Sorted(s)
    ensures Sorted(Insert(x, s))
    decreases |s|
  {
    if s != [] && x > s[0] {
      InsertSorted(x, s[1..]);
      InsertAbove(x, s[1..], s[0]);
    }
  }

  lemma {:induction false} InsertDistinct(x: nat, s: seq<nat>)
    requires Distinct(s) && x !in s
    ensures Distinct(Insert(x, s))
    decreases |s|
  {
    if s != [] && x > s[0] {
      var rest := Insert(x, s[1..]);
      assert x !in s[1..];
      InsertDistinct(x, s[1..]);
      assert s[0] !in s[1..];
      assert s[0] !in multiset(rest);
    }
  }

  /** `sorted(s)`: an ascending permutation of `s`. */
  function Sort(s: seq<nat>): (r: seq<nat>)
    ensures multiset(r) == multiset(s)
    ensures Sorted(r)
    ensures Distinct(s) ==> Distinct(r)
    decreases |s|
  {
    if s == [] then []
    else
      var rest := Sort(s[1..]);
      InsertFirst(s, rest);
      Insert(s[0], rest)
  }

  /** Inserting the head of `s` into a sorted permutation of its tail sorts `s`. */
  lemma InsertFirst(s: seq<nat>, rest: seq<nat>)
    requires s != [] && multiset(rest) == multiset(s[1..]) && Sorted(rest)
    requires Distinct(s[1..]) ==> Distinct(rest)
    ensures multiset(Insert(s[0], rest)) == multiset(s)
    ensures Sorted(Insert(s[0], rest))
    ensures Distinct(s) ==> Distinct(Insert(s[0], rest))
  {
    assert s == [s[0]] + s[1..];
    InsertSorted(s[0], rest);
    if Distinct(s) {
      assert Distinct(s[1..]);
      assert s[0] !in multiset(rest);
      InsertDistinct(s[0], rest);
    }
  }

  /** Sorting an already sorted list changes nothing. */
  lemma {:induction false} SortSorted(s: seq<nat>)
    requires Sorted(s)
    ensures Sort(s) == s
    decreases |s|
  {
    if s != [] {
      SortSorted(s[1..]);
      assert s == [s[0]] + s[1..];
    }
  }

  /** A sorted list without repeats is strictly ascending. */
  lemma SortedDistinctIncreasing(s: seq<int>)
    requires Sorted(s) && Distinct(s)
    ensures Increasing(s)
  {
  }

  lemma IncreasingDistinct(s: seq<int>)
    requires Increasing(s)
    ensures Sorted(s) && Distinct(s)
  {
  }
}
