/** Sorting by a strict order, as the library call sort.Slice does it: the result is a permutation of
    the input in which no element comes before a smaller one. When the order is strict and total on the
    elements, that determines the result. */
module Sorting {
  ghost predicate Sorted<T(!new)>(xs: seq<T>, less: (T, T) -> bool) {
    forall i, j | 0 <= i < j < |xs| :: !less(xs[j], xs[i])
  }

  /** The order tells any two different elements of xs apart. */
  ghost predicate Decides<T(!new)>(xs: seq<T>, less: (T, T) -> bool) {
    forall i, j | 0 <= i < |xs| && 0 <= j < |xs| && !less(xs[i], xs[j]) && !less(xs[j], xs[i]) :: xs[i] == xs[j]
  }

  /** Weak order: what every comparison below satisfies on all values. */
  ghost predicate WeakOrder<T(!new)>(less: (T, T) -> bool) {
    && (forall a :: !less(a, a))
    && (forall a, b, c | less(a, b) && less(b, c) :: less(a, c))
    && (forall a, b, c | !less(a, b) && !less(b, c) :: !less(a, c))
  }

  function Insert<T>(x: T, xs: seq<T>, less: (T, T) -> bool): seq<T> {
    if xs == [] || !less(xs[0], x) then [x] + xs
    else [xs[0]] + Insert(x, xs[1..], less)
  }

  function Sort<T>(xs: seq<T>, less: (T, T) -> bool): seq<T> {
    if xs == [] then [] else Insert(xs[0], Sort(xs[1..], less), less)
  }

  lemma {:induction false} InsertPermutes<T>(x: T, xs: seq<T>, less: (T, T) -> bool)
    ensures multiset(Insert(x, xs, less)) == multiset{x} + multiset(xs)
  {
    if xs != [] && less(xs[0], x) {
      InsertPermutes(x, xs[1..], less);
      assert xs == [xs[0]] + xs[1..];
    }
  }

  lemma {:induction false} SortPermutes<T>(xs: seq<T>, less: (T, T) -> bool)
    ensures multiset(Sort(xs, less)) == multiset(xs)
    ensures |Sort(xs, less)| == |xs|
  {
    if xs != [] {
      SortPermutes(xs[1..], less);
      InsertPermutes(xs[0], Sort(xs[1..], less), less);
      assert xs == [xs[0]] + xs[1..];
    }
    assert |multiset(Sort(xs, less))| == |multiset(xs)|;
  }

  lemma {:induction false} InsertSorted<T(!new)>(x: T, xs: seq<T>, less: (T, T) -> bool)
    requires WeakOrder(less) && Sorted(xs, less)
    ensures Sorted(Insert(x, xs, less), less)
  {
    var r := Insert(x, xs, less);
    if xs != [] && less(xs[0], x) {
      InsertSorted(x, xs[1..], less);
      InsertPermutes(x, xs[1..], less);
      forall j | 0 < j < |r|
        ensures !less(r[j], xs[0])
      {
        assert r[j] in multiset(r[1..]);
        if r[j] != x {
          var k :| 0 <= k < |xs[1..]| && xs[1..][k] == r[j];
          assert xs[k + 1] == r[j];
        }
      }
    }
  }

  lemma {:induction false} SortSorts<T(!new)>(xs: seq<T>, less: (T, T) -> bool)
    requires WeakOrder(less)
    ensures Sorted(Sort(xs, less), less)
  {
    if xs == [] {
    } else {
      SortSorts(xs[1..], less);
      InsertSorted(xs[0], Sort(xs[1..], less), less);
    }
  }

  /** The library sort: some arrangement of the entries in which none comes before a smaller one. */
  method SortSlice<T(!new)>(xs: seq<T>, less: (T, T) -> bool) returns (ys: seq<T>)
    requires WeakOrder(less)
    ensures multiset(ys) == multiset(xs) && |ys| == |xs| && Sorted(ys, less)
  {
    SortPermutes(xs, less);
    SortSorts(xs, less);
    ys := Sort(xs, less);
  }

  /** Two sorted arrangements of the same elements are the same list. */
  lemma {:induction false} SortedUnique<T(!new)>(xs: seq<T>, ys: seq<T>, less: (T, T) -> bool)
    requires multiset(xs) == multiset(ys) && Decides(xs, less)
    requires Sorted(xs, less) && Sorted(ys, less)
    ensures xs == ys
  {
    assert |multiset(xs)| == |xs| && |multiset(ys)| == |ys|;
    if xs != [] {
      SameHead(xs, ys, less);
      assert xs == [xs[0]] + xs[1..] && ys == [ys[0]] + ys[1..];
      assert multiset(xs[1..]) == multiset(xs) - multiset{xs[0]};
      assert multiset(ys[1..]) == multiset(ys) - multiset{ys[0]};
      SortedUnique(xs[1..], ys[1..], less);
    }
  }

  lemma SameHead<T(!new)>(xs: seq<T>, ys: seq<T>, less: (T, T) -> bool)
    requires multiset(xs) == multiset(ys) && Decides(xs, less) && xs != [] && ys != []
    requires Sorted(xs, less) && Sorted(ys, less)
    ensures xs[0] == ys[0]
  {
    assert xs[0] in multiset(ys) && ys[0] in multiset(xs);
    var i :| 0 <= i < |xs| && xs[i] == ys[0];
    var j :| 0 <= j < |ys| && ys[j] == xs[0];
    assert i > 0 ==> !less(xs[i], xs[0]);
    assert j > 0 ==> !less(ys[j], ys[0]);
  }

  lemma DecidesPermuted<T(!new)>(xs: seq<T>, ys: seq<T>, less: (T, T) -> bool)
    requires multiset(xs) == multiset(ys) && Decides(xs, less)
    ensures Decides(ys, less)
  {
    forall i, j | 0 <= i < |ys| && 0 <= j < |ys| && !less(ys[i], ys[j]) && !less(ys[j], ys[i])
      ensures ys[i] == ys[j]
    {
      assert ys[i] in multiset(xs) && ys[j] in multiset(xs);
      var k :| 0 <= k < |xs| && xs[k] == ys[i];
      var l :| 0 <= l < |xs| && xs[l] == ys[j];
    }
  }

  /** The same in place, on an array. */
  method SortArray<T(!new)>(a: array<T>, less: (T, T) -> bool)
    requires WeakOrder(less)
    modifies a
    ensures multiset(a[..]) == multiset(old(a[..])) && Sorted(a[..], less)
  {
    var ys := SortSlice(a[..], less);
    forall i | 0 <= i < a.Length {
      a[i] := ys[i];
    }
    assert a[..] == ys;
  }

  /** Two different entries that the order cannot tell apart can be sorted either way round. */
  lemma TieSwapped<T(!new)>(xs: seq<T>, less: (T, T) -> bool, i: nat, j: nat)
    requires WeakOrder(less) && Sorted(xs, less)
    requires i < j < |xs| && !less(xs[i], xs[j])
    ensures multiset(xs[i := xs[j]][j := xs[i]]) == multiset(xs)
    ensures Sorted(xs[i := xs[j]][j := xs[i]], less)
  {
    var ys := xs[i := xs[j]][j := xs[i]];
    forall k, l | 0 <= k < l < |ys|
      ensures !less(ys[l], ys[k])
    {
      assert k < j && l != j ==> !less(xs[l], xs[k]);
      assert i < l < j ==> !less(xs[l], xs[i]) && !less(xs[j], xs[l]);
      assert i < k < j ==> !less(xs[k], xs[i]) && !less(xs[j], xs[k]);
      assert l > j ==> !less(xs[l], xs[i]) && !less(xs[l], xs[j]);
      assert k < i ==> !less(xs[i], xs[k]) && !less(xs[j], xs[k]);
    }
  }

  /** A list has a single sorted arrangement exactly when the order tells its different entries apart. */
  lemma SortDetermined<T(!new)>(xs: seq<T>, less: (T, T) -> bool)
    requires WeakOrder(less)
    ensures Decides(xs, less) <==>
      forall ys, zs | multiset(ys) == multiset(xs) == multiset(zs) && Sorted(ys, less) && Sorted(zs, less) :: ys == zs
  {
    if Decides(xs, less) {
      forall ys, zs | multiset(ys) == multiset(xs) == multiset(zs) && Sorted(ys, less) && Sorted(zs, less)
        ensures ys == zs
      {
        DecidesPermuted(xs, ys, less);
        SortedUnique(ys, zs, less);
      }
    } else {
      var i, j :| 0 <= i < |xs| && 0 <= j < |xs| && !less(xs[i], xs[j]) && !less(xs[j], xs[i]) && xs[i] != xs[j];
      var ys, zs := TieTwoWays(xs, less, xs[i], xs[j]);
    }
  }

  lemma TieTwoWays<T(!new)>(xs: seq<T>, less: (T, T) -> bool, x: T, y: T) returns (ys: seq<T>, zs: seq<T>)
    requires WeakOrder(less) && x in xs && y in xs && x != y && !less(x, y) && !less(y, x)
    ensures multiset(ys) == multiset(xs) == multiset(zs) && Sorted(ys, less) && Sorted(zs, less) && ys != zs
  {
    ys := Sort(xs, less);
    SortPermutes(xs, less);
    SortSorts(xs, less);
    assert x in multiset(ys) && y in multiset(ys);
    var k :| 0 <= k < |ys| && ys[k] == x;
    var l :| 0 <= l < |ys| && ys[l] == y;
    hide Sorted;
    var first, second := if k < l then k else l, if k < l then l else k;
    TieSwapped(ys, less, first, second);
    zs := ys[first := ys[second]][second := ys[first]];
    assert zs[first] != ys[first];
  }
}
