// `array.sort((a, b) => key(b) - key(a))`: an in-place sort into descending
// order of a real-valued key, as used for sector strength, daily
// performance, batch recommendations and policy impact.

module Sorting {

  predicate SortedDesc<T>(s: seq<T>, key: T -> real)
  {
    forall i, j :: 0 <= i < j < |s| ==> key(s[i]) >= key(s[j])
  }

  /** Insertion sort: the array ends up in descending key order and holds
    * the same elements as before. */
  method SortByKeyDesc<T>(a: array<T>, key: T -> real)
    modifies a
    ensures SortedDesc(a[..], key)
    ensures multiset(a[..]) == multiset(old(a[..]))
  {
    if a.Length < 2 {
      return;
    }
    var i := 1;
    while i < a.Length
      invariant 1 <= i <= a.Length
      invariant forall p, q :: 0 <= p < q < i ==> key(a[p]) >= key(a[q])
      invariant multiset(a[..]) == multiset(old(a[..]))
    {
      Insert(a, i, key);
      i := i + 1;
    }
  }

  /** While `a[i]` sinks: apart from position `j`, the first `i + 1`
    * elements are in order, and everything after `j` is below `a[j]`. */
  ghost predicate Sinking<T>(s: seq<T>, key: T -> real, i: nat, j: nat)
    requires j <= i < |s|
  {
    (forall p, q :: 0 <= p < q <= i && p != j && q != j ==> key(s[p]) >= key(s[q]))
    && (forall q :: j < q <= i ==> key(s[j]) > key(s[q]))
  }

  function Swapped<T>(s: seq<T>, j: nat): (t: seq<T>)
    requires 0 < j < |s|
    ensures |t| == |s| && multiset(t) == multiset(s)
  {
    SwapKeepsElements(s, j);
    s[j - 1 := s[j]][j := s[j - 1]]
  }

  lemma SinkStep<T>(s: seq<T>, key: T -> real, i: nat, j: nat)
    requires 0 < j <= i < |s| && Sinking(s, key, i, j) && key(s[j - 1]) < key(s[j])
    ensures Sinking(Swapped(s, j), key, i, j - 1)
  {
  }

  /** One insertion step: `a[i]` sinks into the sorted prefix before it. */
  method Insert<T>(a: array<T>, i: nat, key: T -> real)
    requires i < a.Length
    requires forall p, q :: 0 <= p < q < i ==> key(a[p]) >= key(a[q])
    modifies a
    ensures forall p, q :: 0 <= p < q <= i ==> key(a[p]) >= key(a[q])
    ensures multiset(a[..]) == multiset(old(a[..]))
  {
    var j := i;
    while j > 0 && key(a[j - 1]) < key(a[j])
      invariant 0 <= j <= i
      invariant Sinking(a[..], key, i, j)
      invariant multiset(a[..]) == multiset(old(a[..]))
    {
      ghost var s := a[..];
      a[j - 1], a[j] := a[j], a[j - 1];
      assert a[..] == Swapped(s, j);
      SinkStep(s, key, i, j);
      j := j - 1;
    }
  }

  /** Swapping two neighbours keeps the elements. */
  lemma SwapKeepsElements<T>(s: seq<T>, j: nat)
    requires 0 < j < |s|
    ensures multiset(s[j - 1 := s[j]][j := s[j - 1]]) == multiset(s)
  {
    var t := s[j - 1 := s[j]];
    assert multiset(t) == multiset(s) - multiset{s[j - 1]} + multiset{s[j]};
    assert t[j] == s[j];
  }
}
