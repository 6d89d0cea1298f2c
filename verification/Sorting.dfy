/** Sorting by a total order, and why its result has no other form. */
module Sorting {
  ghost predicate Total<T(!new)>(leq: (T, T) -> bool) {
    && (forall a, b :: leq(a, b) || leq(b, a))
    && (forall a, b, c :: leq(a, b) && leq(b, c) ==> leq(a, c))
    && (forall a, b :: leq(a, b) && leq(b, a) ==> a == b)
  }

  predicate Sorted<T>(s: seq<T>, leq: (T, T) -> bool) {
    forall i, j :: 0 <= i < j < |s| ==> leq(s[i], s[j])
  }

  lemma Inserted<T(!new)>(s: seq<T>, k: nat, x: T, leq: (T, T) -> bool)
    requires Total(leq) && Sorted(s, leq) && k <= |s|
    requires forall j :: 0 <= j < k ==> leq(s[j], x)
    requires k < |s| ==> !leq(s[k], x)
    ensures Sorted(s[..k] + [x] + s[k..], leq)
    ensures multiset(s[..k] + [x] + s[k..]) == multiset(s) + multiset{x}
  {
    assert s == s[..k] + s[k..];
    if k < |s| {
      assert leq(x, s[k]);
      forall j | k <= j < |s| ensures leq(x, s[j]) { assert j > k ==> leq(s[k], s[j]); }
    }
  }

  method Sort<T(!new)>(items: seq<T>, leq: (T, T) -> bool) returns (sorted: seq<T>)
    requires Total(leq)
    ensures Sorted(sorted, leq) && multiset(sorted) == multiset(items)
  {
    sorted := [];
    for i := 0 to |items|
      invariant Sorted(sorted, leq) && multiset(sorted) == multiset(items[..i])
    {
      var k := 0;
      while k < |sorted| && leq(sorted[k], items[i])
        invariant k <= |sorted| && forall j :: 0 <= j < k ==> leq(sorted[j], items[i])
      {
        k := k + 1;
      }
      assert items[..i + 1] == items[..i] + [items[i]];
      Inserted(sorted, k, items[i], leq);
      sorted := sorted[..k] + [items[i]] + sorted[k..];
    }
    assert items[..|items|] == items;
  }

  lemma SameFirst<T(!new)>(a: seq<T>, b: seq<T>, leq: (T, T) -> bool)
    requires Total(leq) && Sorted(a, leq) && Sorted(b, leq) && a != [] && b != []
    requires a[0] in b && b[0] in a
    ensures a[0] == b[0]
  {
    assert leq(a[0], b[0]) && leq(b[0], a[0]) by { assert leq(a[0], a[0]) && leq(b[0], b[0]); }
  }

  lemma SameTails<T>(a: seq<T>, b: seq<T>)
    requires a != [] && b != [] && a[0] == b[0] && multiset(a) == multiset(b)
    ensures multiset(a[1..]) == multiset(b[1..])
  {
    assert a == [a[0]] + a[1..] && b == [b[0]] + b[1..];
    assert multiset(a[1..]) == multiset(a) - multiset{a[0]} && multiset(b[1..]) == multiset(b) - multiset{b[0]};
  }

  /** A sequence has one sorted form. */
  lemma {:induction false} SortedFormIsUnique<T(!new)>(a: seq<T>, b: seq<T>, leq: (T, T) -> bool)
    requires Total(leq) && Sorted(a, leq) && Sorted(b, leq) && multiset(a) == multiset(b)
    ensures a == b
    decreases |a|
  {
    assert |a| == |multiset(a)| == |multiset(b)| == |b|;
    if a != [] {
      assert a[0] in multiset(b) && b[0] in multiset(a);
      SameFirst(a, b, leq);
      SameTails(a, b);
      SortedFormIsUnique(a[1..], b[1..], leq);
      assert a == [a[0]] + a[1..] && b == [b[0]] + b[1..];
    }
  }

  predicate Distinct<T(==)>(s: seq<T>) { forall i, j :: 0 <= i < j < |s| ==> s[i] != s[j] }

  /** Rearranging distinct items keeps them distinct. */
  lemma DistinctRearranged<T>(a: seq<T>, b: seq<T>)
    requires Distinct(a) && multiset(a) == multiset(b)
    ensures Distinct(b)
  {
    forall i, j | 0 <= i < j < |b| ensures b[i] != b[j] {
      if b[i] == b[j] {
        var x := b[i];
        assert b == b[..j] + b[j..] && b[..j][i] == x && b[j..][0] == x;
        assert multiset(b)[x] == multiset(b[..j])[x] + multiset(b[j..])[x] >= 2;
        OnceOnly(a, x);
      }
    }
  }

  lemma OnceOnly<T>(a: seq<T>, x: T)
    requires Distinct(a)
    ensures multiset(a)[x] <= 1
  {
    if x in a {
      var k :| 0 <= k < |a| && a[k] == x;
      assert a == a[..k] + [x] + a[k + 1..];
      assert x !in a[..k] && x !in a[k + 1..];
      assert multiset(a) == multiset(a[..k]) + multiset{x} + multiset(a[k + 1..]);
    }
  }

  // ----- picking by index -----

  predicate Ascending(xs: seq<nat>) { forall i, j :: 0 <= i < j < |xs| ==> xs[i] < xs[j] }

  /** The items among the first `n` whose index is kept, in order. */
  function Pick<T>(items: seq<T>, keep: set<nat>, n: nat): seq<T>
    requires n <= |items|
  {
    if n == 0 then [] else Pick(items, keep, n - 1) + if n - 1 in keep then [items[n - 1]] else []
  }

  /** The kept indices below `n`, ascending. */
  function Indices(keep: set<nat>, n: nat): (xs: seq<nat>)
    ensures Ascending(xs)
    ensures forall k :: 0 <= k < |xs| ==> xs[k] in keep && xs[k] < n
    ensures forall i :: i in keep && i < n ==> i in xs
  {
    if n == 0 then [] else Indices(keep, n - 1) + if n - 1 in keep then [n - 1] else []
  }

  lemma {:induction false} PickIndices<T>(items: seq<T>, keep: set<nat>, n: nat)
    requires n <= |items|
    ensures |Pick(items, keep, n)| == |Indices(keep, n)|
    ensures forall k :: 0 <= k < |Indices(keep, n)| ==> Pick(items, keep, n)[k] == items[Indices(keep, n)[k]]
  {
    if n > 0 { PickIndices(items, keep, n - 1); }
  }

  lemma {:induction false} AscendingIsUnique(a: seq<nat>, b: seq<nat>)
    requires Ascending(a) && Ascending(b) && forall i :: i in a <==> i in b
    ensures a == b
    decreases |a|
  {
    assert (a != [] ==> a[0] in b) && (b != [] ==> b[0] in a);
    if a != [] {
      assert a[0] == b[0];
      forall i ensures i in a[1..] <==> i in b[1..] {
        assert i in a[1..] <==> i in a && i != a[0];
        assert i in b[1..] <==> i in b && i != b[0];
      }
      AscendingIsUnique(a[1..], b[1..]);
    }
  }
}
