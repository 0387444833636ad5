/** The in-place `Array.prototype.sort` calls of the repository.

    Both call sites pass a comparator that never returns 0:
    `(a, b) => key(a) > key(b) ? 1 : -1` (util/graph.ts:19, ascending source)
    and `(a, b) => a.subtree_max > b.subtree_max ? -1 : 1`
    (algo/dam/mechanism.ts:57 and :132, descending subtree maximum, which is
    ascending in the negated key). Such a comparator fixes the order of
    elements with different keys only, so the model promises exactly that: the
    array ends up a permutation of its old contents in non-decreasing key
    order, with the order among equal keys left open. */
module Sorting {

  ghost predicate SortedBy<T>(s: seq<T>, key: T -> int) {
    forall i, j :: 0 <= i < j < |s| ==> key(s[i]) <= key(s[j])
  }

  /** Sorts `a` in place by `key` (insertion sort). */
  method SortBy<T>(a: array<T>, key: T -> int)
    modifies a
    ensures SortedBy(a[..], key)
    ensures multiset(a[..]) == old(multiset(a[..]))
  {
    var i := 0;
    while i < a.Length
      invariant 0 <= i <= a.Length
      invariant SortedBy(a[..i], key)
      invariant multiset(a[..]) == old(multiset(a[..]))
    {
      InsertAt(a, i, key);
      i := i + 1;
    }
    assert a[..a.Length] == a[..];
  }

  /** One pass of insertion: moves `a[i]` left into the sorted prefix `a[..i]`. */
  method InsertAt<T>(a: array<T>, i: nat, key: T -> int)
    requires i < a.Length
    requires SortedBy(a[..i], key)
    modifies a
    ensures SortedBy(a[..i + 1], key)
    ensures multiset(a[..]) == old(multiset(a[..]))
  {
    var j := i;
    while j > 0 && key(a[j - 1]) > key(a[j])
      invariant 0 <= j <= i
      invariant forall p, q :: 0 <= p < q <= i && q != j ==> key(a[p]) <= key(a[q])
      invariant multiset(a[..]) == old(multiset(a[..]))
    {
      Swap(a, j - 1, j);
      j := j - 1;
    }
  }

  method Swap<T>(a: array<T>, p: nat, q: nat)
    requires p < a.Length && q < a.Length
    modifies a
    ensures a[..] == old(a[..])[p := old(a[q])][q := old(a[p])]
    ensures multiset(a[..]) == old(multiset(a[..]))
  {
    a[p], a[q] := a[q], a[p];
  }
}
