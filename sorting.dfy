/** `Array.prototype.sort` with a comparator, as the components use it: the
    array is reordered in place so that every element is placed no later
    than the ones the comparator puts after it. */
module Sorting {

  /** Any two elements are comparable under `leq`. */
  ghost predicate Total<T(!new)>(leq: (T, T) -> bool) {
    forall x, y :: leq(x, y) || leq(y, x)
  }

  /** `leq` chains. */
  ghost predicate Transitive<T(!new)>(leq: (T, T) -> bool) {
    forall x, y, z :: leq(x, y) && leq(y, z) ==> leq(x, z)
  }

  /** Each element is `leq` its successor. */
  predicate Sorted<T>(s: seq<T>, leq: (T, T) -> bool) {
    forall i :: 0 < i < |s| ==> leq(s[i - 1], s[i])
  }

  /** For a transitive order, neighbour-by-neighbour order is order between
      every earlier and later element. */
  lemma {:induction false} SortedAllPairs<T(!new)>(s: seq<T>, leq: (T, T) -> bool, i: int, j: int)
    requires Transitive(leq) && Sorted(s, leq)
    requires 0 <= i < j < |s|
    ensures leq(s[i], s[j])
    decreases j - i
  {
    if j > i + 1 {
      SortedAllPairs(s, leq, i, j - 1);
    }
  }

  /** Insertion sort: each new element moves left past every element it
      must precede; elements already in order are never swapped. */
  method InsertionSort<T(!new)>(a: array<T>, leq: (T, T) -> bool)
    requires Total(leq)
    modifies a
    ensures Sorted(a[..], leq)
    ensures multiset(a[..]) == old(multiset(a[..]))
  {
    if a.Length == 0 {
      return;
    }
    var i := 1;
    while i < a.Length
      invariant 1 <= i <= a.Length
      invariant forall k :: 0 < k < i ==> leq(a[k - 1], a[k])
      invariant multiset(a[..]) == old(multiset(a[..]))
    {
      Insert(a, i, leq);
      i := i + 1;
    }
  }

  /** One pass: `a[i]` moves left into the ordered prefix `a[..i]`. */
  method Insert<T(!new)>(a: array<T>, i: int, leq: (T, T) -> bool)
    requires Total(leq)
    requires 0 < i < a.Length
    requires forall k :: 0 < k < i ==> leq(a[k - 1], a[k])
    modifies a
    ensures forall k :: 0 < k <= i ==> leq(a[k - 1], a[k])
    ensures multiset(a[..]) == old(multiset(a[..]))
  {
    var j := i;
    while j > 0 && !leq(a[j - 1], a[j])
      invariant 0 <= j <= i
      invariant forall k :: 0 < k <= i && k != j ==> leq(a[k - 1], a[k])
      invariant 0 < j < i ==> leq(a[j - 1], a[j + 1])
      invariant multiset(a[..]) == old(multiset(a[..]))
    {
      Swap(a, j);
      j := j - 1;
    }
  }

  /** Exchanges `a[j - 1]` and `a[j]`. */
  method Swap<T>(a: array<T>, j: int)
    requires 0 < j < a.Length
    modifies a
    ensures a[..] == old(a[..])[j - 1 := old(a[j])][j := old(a[j - 1])]
    ensures multiset(a[..]) == old(multiset(a[..]))
  {
    a[j - 1], a[j] := a[j], a[j - 1];
  }
}
