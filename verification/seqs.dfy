/** Sequence helpers standing in for the LINQ operators the status hub uses. */
module Seqs {

  /** No element occurs twice in `s`. */
  predicate NoDuplicates<T(==)>(s: seq<T>) {
    forall i, j | 0 <= i < j < |s| :: s[i] != s[j]
  }

  /** The elements of `s` as a set. */
  function Elements<T>(s: seq<T>): set<T> {
    set x | x in s
  }

  /** `Enumerable.Distinct` continued after the elements of `seen`: the first
      occurrence of every element of `s` not already in `seen`, in order. */
  function DistinctAfter<T(==,!new)>(s: seq<T>, seen: set<T>): (r: seq<T>)
    ensures NoDuplicates(r)
    ensures forall x :: x in r <==> x in s && x !in seen
    decreases |s|
  {
    if |s| == 0 then []
    else if s[0] in seen then DistinctAfter(s[1..], seen)
    else
      var rest := DistinctAfter(s[1..], seen + {s[0]});
      assert s[0] !in rest;
      [s[0]] + rest
  }

  /** `Enumerable.Distinct`: every element of `s` exactly once. */
  function Distinct<T(==,!new)>(s: seq<T>): (r: seq<T>)
    ensures NoDuplicates(r)
    ensures forall x :: x in r <==> x in s
  {
    DistinctAfter(s, {})
  }

  /** Dropping the head of a sequence without repeats leaves one without repeats, lacking the head. */
  lemma TailOfNoDuplicates<T>(s: seq<T>)
    requires |s| > 0 && NoDuplicates(s)
    ensures NoDuplicates(s[1..])
    ensures s[0] !in s[1..]
    ensures Elements(s) == {s[0]} + Elements(s[1..])
  {
  }

  /** A sequence without repeats has exactly as many elements as its set. */
  lemma {:induction false} NoDuplicatesCardinality<T>(s: seq<T>)
    requires NoDuplicates(s)
    ensures |Elements(s)| == |s|
  {
    if |s| > 0 {
      TailOfNoDuplicates(s);
      NoDuplicatesCardinality(s[1..]);
    }
  }
}
