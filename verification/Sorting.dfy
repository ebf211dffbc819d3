/** Sorting in place by a comparison, and why the outcome is determined by the elements. */
module Sorting {

  /** A comparison that places any two elements, treating some as equal. */
  ghost predicate IsOrder<T(!new)>(less: (T, T) -> bool)
  {
    && (forall x, y :: less(x, y) ==> !less(y, x))
    && (forall x, y, z :: less(x, z) ==> less(x, y) || less(y, z))
  }

  ghost predicate Sorted<T(!new)>(s: seq<T>, less: (T, T) -> bool)
  {
    forall i, j :: 0 <= i < j < |s| ==> !less(s[j], s[i])
  }

  ghost predicate Ascending<T(!new)>(s: seq<T>, less: (T, T) -> bool)
  {
    forall i, j :: 0 <= i < j < |s| ==> less(s[i], s[j])
  }

  ghost predicate Distinct<T>(s: seq<T>)
  {
    forall i, j :: 0 <= i < j < |s| ==> s[i] != s[j]
  }

  ghost function Elements<T>(s: seq<T>): set<T>
  {
    set x | x in s
  }

  /** Insertion sort. */
  method Sort<T(!new)>(a: array<T>, less: (T, T) -> bool)
    requires IsOrder(less)
    modifies a
    ensures Sorted(a[..], less)
    ensures multiset(a[..]) == multiset(old(a[..]))
  {
    var n := 0;
    while n < a.Length
      invariant 0 <= n <= a.Length
      invariant Sorted(a[..n], less)
      invariant multiset(a[..]) == multiset(old(a[..]))
    {
      var j := n;
      while j > 0 && less(a[j], a[j - 1])
        invariant 0 <= j <= n
        invariant forall p, q :: 0 <= p < q <= n && q != j ==> !less(a[q], a[p])
        invariant multiset(a[..]) == multiset(old(a[..]))
      {
        a[j - 1], a[j] := a[j], a[j - 1];
        j := j - 1;
      }
      n := n + 1;
    }
    assert a[..n] == a[..];
  }

  /** Sorting distinct elements by a comparison that tells them apart orders them strictly. */
  lemma SortedAscending<T(!new)>(before: seq<T>, after: seq<T>, less: (T, T) -> bool)
    requires IsOrder(less) && Sorted(after, less)
    requires Distinct(before) && multiset(before) == multiset(after)
    requires forall x, y :: x in before && y in before && x != y ==> less(x, y) || less(y, x)
    ensures Ascending(after, less) && Elements(after) == Elements(before) && Distinct(after)
    ensures |after| == |before|
  {
    SameMembers(before, after);
    DistinctCounts(before);
    forall i, j | 0 <= i < j < |after| ensures after[i] != after[j] {
      CountedTwice(after, i, j);
    }
  }

  lemma SameMembers<T>(a: seq<T>, b: seq<T>)
    requires multiset(a) == multiset(b)
    ensures forall x :: x in a <==> x in b
    ensures |a| == |b|
  {
    forall x ensures x in a <==> x in b {
      assert x in multiset(a) <==> x in a;
      assert x in multiset(b) <==> x in b;
    }
    assert |multiset(a)| == |a| && |multiset(b)| == |b|;
  }

  lemma TakeOut<T>(s: seq<T>, i: nat)
    requires i < |s|
    ensures multiset(s[..i] + s[i + 1..]) == multiset(s) - multiset{s[i]}
  {
    assert s == s[..i] + [s[i]] + s[i + 1..];
  }

  /** Where the last element of one listing stands in another listing of the same elements. */
  lemma LastElsewhere<T>(a: seq<T>, b: seq<T>) returns (i: nat)
    requires a != [] && multiset(a) == multiset(b)
    ensures i < |b| && b[i] == a[|a| - 1]
    ensures multiset(a[..|a| - 1]) == multiset(b[..i] + b[i + 1..])
  {
    SameMembers(a, b);
    assert a[|a| - 1] in b;
    i :| 0 <= i < |b| && b[i] == a[|a| - 1];
    TakeOut(a, |a| - 1);
    assert a[..|a| - 1] + a[|a|..] == a[..|a| - 1];
    TakeOut(b, i);
  }

  lemma {:induction false} DistinctCounts<T>(s: seq<T>)
    requires Distinct(s)
    ensures forall x :: multiset(s)[x] <= 1
    ensures |Elements(s)| == |s|
  {
    if s == [] {
      assert Elements(s) == {};
    } else {
      var init, last := s[..|s| - 1], s[|s| - 1];
      DistinctCounts(init);
      assert s == init + [last];
      assert last !in init;
      assert Elements(s) == Elements(init) + {last};
    }
  }

  lemma CountedTwice<T>(s: seq<T>, i: nat, j: nat)
    requires i < j < |s|
    ensures s[i] == s[j] ==> multiset(s)[s[i]] >= 2
  {
    assert s == s[..j] + [s[j]] + s[j + 1..];
    assert s[i] in s[..j];
  }

  lemma ElementsAppend<T>(s: seq<T>, x: T)
    ensures Elements(s + [x]) == Elements(s) + {x}
    ensures x !in Elements(s) && Distinct(s) ==> Distinct(s + [x])
  {
    assert forall i :: 0 <= i < |s| ==> s[i] in Elements(s);
  }

  lemma NoElements<T>(s: seq<T>)
    ensures Elements(s) == {} <==> s == []
  {
    if s != [] { assert s[0] in Elements(s); }
  }

  /** One set has one ascending listing. */
  lemma {:induction false} AscendingUnique<T(!new)>(s: seq<T>, t: seq<T>, less: (T, T) -> bool)
    requires IsOrder(less) && Ascending(s, less) && Ascending(t, less)
    requires Elements(s) == Elements(t)
    ensures s == t
  {
    NoElements(s);
    NoElements(t);
    if s != [] {
      assert s[0] in Elements(t) && t[0] in Elements(s);
      assert s[0] == t[0];
      forall x ensures x in Elements(s[1..]) <==> x in Elements(t[1..]) {
        assert x in Elements(s) <==> x in Elements(t);
      }
      AscendingUnique(s[1..], t[1..], less);
    }
  }

  /** The members of a set, in order. */
  method Listing<T(!new, ==)>(members: set<T>, less: (T, T) -> bool) returns (s: seq<T>)
    requires IsOrder(less)
    requires forall x, y :: x in members && y in members && x != y ==> less(x, y) || less(y, x)
    ensures Ascending(s, less) && Elements(s) == members && Distinct(s)
  {
    var rest, found: seq<T> := members, [];
    while rest != {}
      invariant rest <= members && Elements(found) == members - rest && Distinct(found)
      decreases |rest|
    {
      var x :| x in rest;
      ElementsAppend(found, x);
      rest, found := rest - {x}, found + [x];
    }
    var a := new T[|found|](i requires 0 <= i < |found| => found[i]);
    assert a[..] == found;
    Sort(a, less);
    s := a[..];
    assert forall x :: x in found ==> x in Elements(found);
    SortedAscending(found, s, less);
  }
}
