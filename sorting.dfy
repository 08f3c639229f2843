/** Canonical ordering of address and id lists (ids.SortShortIDs, ids.SortIDs),
    here an insertion sort over the ids' numeric order. */
module Sorting {

  ghost predicate Sorted(s: seq<nat>)
  {
    forall i, j :: 0 <= i < j < |s| ==> s[i] <= s[j]
  }

  /** Inserts `x` into a sorted list. */
  function Insert(x: nat, s: seq<nat>): (r: seq<nat>)
    requires Sorted(s)
    ensures Sorted(r)
    ensures multiset(r) == multiset(s) + multiset{x}
    ensures |r| == |s| + 1
    ensures r[0] == if s == [] || x <= s[0] then x else s[0]
  {
    if s == [] then [x]
    else if x <= s[0] then [x] + s
    else
      var rest := Insert(x, s[1..]);
      assert s == [s[0]] + s[1..];
      assert s[0] <= rest[0];
      [s[0]] + rest
  }

  /** The ids in ascending order: a sorted permutation of the input. */
  function SortIds(s: seq<nat>): (r: seq<nat>)
    ensures Sorted(r)
    ensures multiset(r) == multiset(s)
    ensures |r| == |s|
  {
    if s == [] then []
    else
      assert s == [s[0]] + s[1..];
      Insert(s[0], SortIds(s[1..]))
  }
}
