/** Lists built from lists: what a rule evaluator collects over its inputs, lookup tables keyed by id, and
    when the entries collected that way are pairwise different. */
module Batches {
  import opened Wrappers

  function Emit<R>(o: Option<R>): seq<R> {
    if o.Some? then [o.value] else []
  }

  /** Everything `f` yields over the inputs, in order. */
  function FlatMap<X, R>(xs: seq<X>, f: X -> seq<R>): seq<R> {
    if xs == [] then [] else FlatMap(xs[..|xs| - 1], f) + f(xs[|xs| - 1])
  }

  lemma FlatMapStep<X, R>(xs: seq<X>, f: X -> seq<R>, i: nat)
    requires i < |xs|
    ensures FlatMap(xs[..i + 1], f) == FlatMap(xs[..i], f) + f(xs[i])
    ensures f(xs[i]) == [] ==> FlatMap(xs[..i + 1], f) == FlatMap(xs[..i], f)
  {
    assert xs[..i + 1][..i] == xs[..i];
  }

  lemma FlatMapNone<X, R>(xs: seq<X>, f: X -> seq<R>)
    ensures FlatMap(xs[..0], f) == []
  {
  }

  lemma {:induction false} FlatMapEmpty<X, R>(xs: seq<X>, f: X -> seq<R>)
    requires forall k | 0 <= k < |xs| :: f(xs[k]) == []
    ensures FlatMap(xs, f) == []
  {
    if xs == [] {
    } else {
      FlatMapEmpty(xs[..|xs| - 1], f);
    }
  }

  lemma {:induction false} FlatMapSame<X, R>(xs: seq<X>, f: X -> seq<R>, g: X -> seq<R>)
    requires forall k | 0 <= k < |xs| :: f(xs[k]) == g(xs[k])
    ensures FlatMap(xs, f) == FlatMap(xs, g)
  {
    if xs == [] {
    } else {
      FlatMapSame(xs[..|xs| - 1], f, g);
    }
  }

  lemma {:induction false} FlatMapPrefix<X, R>(xs: seq<X>, f: X -> seq<R>, i: nat)
    requires i <= |xs|
    ensures FlatMap(xs[..i], f) <= FlatMap(xs, f)
  {
    if i < |xs| {
      FlatMapPrefix(xs[..|xs| - 1], f, i);
      assert xs[..|xs| - 1][..i] == xs[..i];
    } else {
      assert xs[..i] == xs;
    }
  }

  /** A table by key in which later rows replace earlier ones. */
  function IndexBy<X>(xs: seq<X>, key: X -> int): map<int, X> {
    if xs == [] then map[] else IndexBy(xs[..|xs| - 1], key)[key(xs[|xs| - 1]) := xs[|xs| - 1]]
  }

  method IndexRows<X>(xs: seq<X>, key: X -> int) returns (m: map<int, X>)
    ensures m == IndexBy(xs, key)
  {
    m := map[];
    for i := 0 to |xs|
      invariant m == IndexBy(xs[..i], key)
    {
      assert xs[..i + 1][..i] == xs[..i];
      m := m[key(xs[i]) := xs[i]];
    }
    assert xs[..|xs|] == xs;
  }

  lemma {:induction false} IndexByRows<X>(xs: seq<X>, key: X -> int)
    ensures forall id :: id in IndexBy(xs, key) <==> exists i :: 0 <= i < |xs| && key(xs[i]) == id
    ensures forall id | id in IndexBy(xs, key) :: key(IndexBy(xs, key)[id]) == id
  {
    if xs == [] {
    } else {
      var front := xs[..|xs| - 1];
      IndexByRows(front, key);
      forall id
        ensures id in IndexBy(xs, key) <==> exists i :: 0 <= i < |xs| && key(xs[i]) == id
      {
        if id in IndexBy(front, key) {
          var i :| 0 <= i < |front| && key(front[i]) == id;
          assert xs[i] == front[i];
        }
        if i :| 0 <= i < |xs| && key(xs[i]) == id {
          assert i < |front| ==> front[i] == xs[i];
        }
      }
    }
  }

  lemma IndexByPush<X>(xs: seq<X>, key: X -> int, last: X)
    ensures IndexBy(xs + [last], key) == IndexBy(xs, key)[key(last) := last]
  {
    assert (xs + [last])[..|xs|] == xs;
  }

  lemma SameKeySamePlace<X>(xs: seq<X>, key: X -> int, i: nat, j: nat)
    requires DistinctValues(xs, key) && i < |xs| && j < |xs| && key(xs[i]) == key(xs[j])
    ensures i == j
  {
  }

  /** With distinct keys, the table holds exactly the rows. */
  lemma {:induction false} IndexByDistinct<X>(xs: seq<X>, key: X -> int, i: nat)
    requires DistinctValues(xs, key) && i < |xs|
    ensures key(xs[i]) in IndexBy(xs, key) && IndexBy(xs, key)[key(xs[i])] == xs[i]
  {
    if i < |xs| - 1 {
      var front := xs[..|xs| - 1];
      assert DistinctValues(front, key);
      IndexByDistinct(front, key, i);
    }
  }

  ghost predicate PairwiseApart<R(!new)>(rs: seq<R>, same: (R, R) -> bool) {
    forall i, j | 0 <= i < j < |rs| :: !same(rs[i], rs[j])
  }

  ghost predicate AllApart<R(!new)>(rs: seq<R>, ts: seq<R>, same: (R, R) -> bool) {
    forall i, j | 0 <= i < |rs| && 0 <= j < |ts| :: !same(rs[i], ts[j])
  }

  lemma ApartConcat<R(!new)>(rs: seq<R>, ts: seq<R>, same: (R, R) -> bool)
    requires PairwiseApart(rs, same) && PairwiseApart(ts, same) && AllApart(rs, ts, same)
    ensures PairwiseApart(rs + ts, same)
  {
    forall i, j | 0 <= i < j < |rs + ts|
      ensures !same((rs + ts)[i], (rs + ts)[j])
    {
      if j >= |rs| && i >= |rs| {
        assert !same(ts[i - |rs|], ts[j - |rs|]);
      }
    }
  }

  /** Entries collected from different inputs. */
  lemma {:induction false} FlatMapFrom<X, R>(xs: seq<X>, f: X -> seq<R>, r: R) returns (k: nat)
    requires r in FlatMap(xs, f)
    ensures k < |xs| && r in f(xs[k])
  {
    k := |xs| - 1;
    if r !in f(xs[k]) {
      k := FlatMapFrom(xs[..|xs| - 1], f, r);
    }
  }

  lemma {:induction false} FlatMapHas<X, R>(xs: seq<X>, f: X -> seq<R>, k: nat, r: R)
    requires k < |xs| && r in f(xs[k])
    ensures r in FlatMap(xs, f)
  {
    if k < |xs| - 1 {
      FlatMapHas(xs[..|xs| - 1], f, k, r);
    }
  }

  /** If no entry of one input is the same as an entry of another, and each input's entries are pairwise
      apart, then so is the whole collection. */
  lemma {:induction false} FlatMapApart<X, R(!new)>(xs: seq<X>, f: X -> seq<R>, same: (R, R) -> bool)
    requires forall k | 0 <= k < |xs| :: PairwiseApart(f(xs[k]), same)
    requires forall k, l | 0 <= k < l < |xs| :: AllApart(f(xs[k]), f(xs[l]), same)
    ensures PairwiseApart(FlatMap(xs, f), same)
  {
    if xs == [] {
    } else {
      var front, last := xs[..|xs| - 1], xs[|xs| - 1];
      FlatMapApart(front, f, same);
      forall i, j | 0 <= i < |FlatMap(front, f)| && 0 <= j < |f(last)|
        ensures !same(FlatMap(front, f)[i], f(last)[j])
      {
        var k := FlatMapFrom(front, f, FlatMap(front, f)[i]);
        var m :| 0 <= m < |f(front[k])| && f(front[k])[m] == FlatMap(front, f)[i];
        assert AllApart(f(xs[k]), f(xs[|xs| - 1]), same);
      }
      ApartConcat(FlatMap(front, f), f(last), same);
    }
  }

  /** Two entries in different places of the collection come from two inputs, or from two places of one. */
  lemma {:induction false} FlatMapOrigins<X, R>(xs: seq<X>, f: X -> seq<R>, i: nat, j: nat) returns (k: nat, l: nat)
    requires i < j < |FlatMap(xs, f)|
    requires forall x :: |f(x)| <= 1
    ensures k < l < |xs| && f(xs[k]) == [FlatMap(xs, f)[i]] && f(xs[l]) == [FlatMap(xs, f)[j]]
  {
    var front, last := xs[..|xs| - 1], xs[|xs| - 1];
    var n := |FlatMap(front, f)|;
    if j < n {
      k, l := FlatMapOrigins(front, f, i, j);
    } else {
      l := |xs| - 1;
      k := FlatMapOrigin(front, f, i);
    }
  }

  lemma {:induction false} FlatMapOrigin<X, R>(xs: seq<X>, f: X -> seq<R>, i: nat) returns (k: nat)
    requires i < |FlatMap(xs, f)|
    requires forall x :: |f(x)| <= 1
    ensures k < |xs| && f(xs[k]) == [FlatMap(xs, f)[i]]
  {
    var front := xs[..|xs| - 1];
    if i < |FlatMap(front, f)| {
      k := FlatMapOrigin(front, f, i);
    } else {
      k := |xs| - 1;
    }
  }

  /** Two inputs that both yield an entry yield two entries in different places. */
  lemma {:induction false} FlatMapPlaces<X, R>(xs: seq<X>, f: X -> seq<R>, k: nat, l: nat, a: R, b: R)
      returns (i: nat, j: nat)
    requires k < l < |xs| && f(xs[k]) == [a] && f(xs[l]) == [b]
    ensures i < j < |FlatMap(xs, f)| && FlatMap(xs, f)[i] == a && FlatMap(xs, f)[j] == b
  {
    var front := xs[..|xs| - 1];
    if l < |xs| - 1 {
      i, j := FlatMapPlaces(front, f, k, l, a, b);
    } else {
      FlatMapHas(front, f, k, a);
      i :| 0 <= i < |FlatMap(front, f)| && FlatMap(front, f)[i] == a;
      j := |FlatMap(front, f)|;
    }
  }

  function Values<X, K>(xs: seq<X>, key: X -> K): set<K> {
    set k | 0 <= k < |xs| :: key(xs[k])
  }

  lemma ValuesPush<X, K>(xs: seq<X>, key: X -> K, last: X)
    ensures Values(xs + [last], key) == Values(xs, key) + {key(last)}
  {
    assert forall k | 0 <= k < |xs| :: (xs + [last])[k] == xs[k];
    assert (xs + [last])[|xs|] == last;
  }

  ghost predicate DistinctValues<X, K>(xs: seq<X>, key: X -> K) {
    forall i, j | 0 <= i < j < |xs| :: key(xs[i]) != key(xs[j])
  }

  lemma NoValues<X, K>(key: X -> K)
    ensures Values([], key) == {} && DistinctValues([], key)
  {
  }

  lemma DistinctPush<X, K>(xs: seq<X>, key: X -> K, last: X)
    requires DistinctValues(xs, key) && key(last) !in Values(xs, key)
    ensures DistinctValues(xs + [last], key)
  {
    forall k | 0 <= k < |xs|
      ensures key(xs[k]) != key(last)
    {
      assert key(xs[k]) in Values(xs, key);
    }
  }

  /** A list has at most as many values as entries, and as many exactly when all are different. */
  lemma {:induction false} DistinctByCount<X, K>(xs: seq<X>, key: X -> K)
    ensures |Values(xs, key)| <= |xs|
    ensures |Values(xs, key)| == |xs| <==> DistinctValues(xs, key)
  {
    if xs == [] {
    } else {
      var front, last := xs[..|xs| - 1], xs[|xs| - 1];
      assert xs == front + [last];
      DistinctByCount(front, key);
      ValuesPush(front, key, last);
      if key(last) in Values(front, key) {
        assert Values(xs, key) == Values(front, key);
        var k :| 0 <= k < |front| && key(front[k]) == key(last);
        assert key(xs[k]) == key(xs[|xs| - 1]);
      }
    }
  }
}
