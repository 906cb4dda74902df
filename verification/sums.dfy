/** Sums and collections over lists, and why they do not depend on the order of the list. */
module Sums {
  import opened Batches

  function Sum<X>(xs: seq<X>, f: X -> int): int {
    if xs == [] then 0 else Sum(xs[..|xs| - 1], f) + f(xs[|xs| - 1])
  }

  /** How many entries satisfy a condition. */
  ghost function Count<X>(xs: seq<X>, p: X -> bool): int {
    Sum(xs, x => if p(x) then 1 else 0)
  }

  lemma SumStep<X>(xs: seq<X>, f: X -> int, i: nat)
    requires i < |xs|
    ensures Sum(xs[..i + 1], f) == Sum(xs[..i], f) + f(xs[i])
  {
    assert xs[..i + 1][..i] == xs[..i];
  }

  lemma CountStep<X>(xs: seq<X>, p: X -> bool, i: nat)
    requires i < |xs|
    ensures Count(xs[..i + 1], p) == Count(xs[..i], p) + if p(xs[i]) then 1 else 0
  {
    SumStep(xs, x => if p(x) then 1 else 0, i);
  }

  lemma {:induction false} CountSame<X>(xs: seq<X>, p: X -> bool, q: X -> bool)
    requires forall x :: p(x) == q(x)
    ensures Count(xs, p) == Count(xs, q)
  {
    if xs == [] {
    } else {
      CountSame(xs[..|xs| - 1], p, q);
    }
  }

  lemma CountPush<X>(xs: seq<X>, p: X -> bool, last: X)
    ensures Count(xs + [last], p) == Count(xs, p) + if p(last) then 1 else 0
  {
    assert (xs + [last])[..|xs|] == xs;
  }

  method Total<X>(xs: seq<X>, f: X -> int) returns (total: int)
    ensures total == Sum(xs, f)
  {
    total := 0;
    for i := 0 to |xs|
      invariant total == Sum(xs[..i], f)
    {
      assert xs[..i + 1][..i] == xs[..i];
      total := total + f(xs[i]);
    }
    assert xs[..|xs|] == xs;
  }

  lemma {:induction false} SumConcat<X>(xs: seq<X>, ys: seq<X>, f: X -> int)
    ensures Sum(xs + ys, f) == Sum(xs, f) + Sum(ys, f)
  {
    if ys == [] {
      assert xs + ys == xs;
    } else {
      assert (xs + ys)[..|xs + ys| - 1] == xs + ys[..|ys| - 1];
      SumConcat(xs, ys[..|ys| - 1], f);
    }
  }

  lemma {:induction false} FlatMapConcat<X, R>(xs: seq<X>, ys: seq<X>, f: X -> seq<R>)
    ensures FlatMap(xs + ys, f) == FlatMap(xs, f) + FlatMap(ys, f)
  {
    if ys == [] {
      assert xs + ys == xs;
    } else {
      assert (xs + ys)[..|xs + ys| - 1] == xs + ys[..|ys| - 1];
      FlatMapConcat(xs, ys[..|ys| - 1], f);
    }
  }

  /** A rearrangement of a list holds its last entry somewhere, and the rest around it. */
  lemma LastElsewhere<X>(xs: seq<X>, ys: seq<X>) returns (before: seq<X>, after: seq<X>)
    requires xs != [] && multiset(xs) == multiset(ys)
    ensures ys == before + [xs[|xs| - 1]] + after
    ensures multiset(xs[..|xs| - 1]) == multiset(before + after)
  {
    var front, last := xs[..|xs| - 1], xs[|xs| - 1];
    assert xs == front + [last];
    assert last in multiset(ys);
    var j :| 0 <= j < |ys| && ys[j] == last;
    before, after := ys[..j], ys[j + 1..];
    assert ys == before + [last] + after;
    TakeOut(front, before, last, after);
  }

  lemma TakeOut<X>(front: seq<X>, before: seq<X>, x: X, after: seq<X>)
    requires multiset(front + [x]) == multiset(before + [x] + after)
    ensures multiset(front) == multiset(before + after)
  {
    assert multiset(front) == multiset(front + [x]) - multiset{x};
    assert multiset(before + after) == multiset(before + [x] + after) - multiset{x};
  }

  lemma {:induction false} SumPermuted<X>(xs: seq<X>, ys: seq<X>, f: X -> int)
    requires multiset(xs) == multiset(ys)
    ensures Sum(xs, f) == Sum(ys, f)
  {
    if xs == [] {
      assert |multiset(ys)| == |ys| == 0;
    } else {
      var before, after := LastElsewhere(xs, ys);
      SumPermuted(xs[..|xs| - 1], before + after, f);
      SumConcat(before, after, f);
      SumConcat(before + [xs[|xs| - 1]], after, f);
      SumConcat(before, [xs[|xs| - 1]], f);
    }
  }

  lemma CountPermuted<X>(xs: seq<X>, ys: seq<X>, p: X -> bool)
    requires multiset(xs) == multiset(ys)
    ensures Count(xs, p) == Count(ys, p)
  {
    SumPermuted(xs, ys, x => if p(x) then 1 else 0);
  }

  lemma {:induction false} FlatMapPermuted<X, R>(xs: seq<X>, ys: seq<X>, f: X -> seq<R>)
    requires multiset(xs) == multiset(ys)
    ensures multiset(FlatMap(xs, f)) == multiset(FlatMap(ys, f))
  {
    if xs == [] {
      assert |multiset(ys)| == |ys| == 0;
    } else {
      var last := xs[|xs| - 1];
      var before, after := LastElsewhere(xs, ys);
      FlatMapPermuted(xs[..|xs| - 1], before + after, f);
      FlatMapConcat(before, after, f);
      FlatMapConcat(before + [last], after, f);
      FlatMapConcat(before, [last], f);
      assert FlatMap([last], f) == f(last);
    }
  }

  /** With distinct keys, a table does not depend on the order of its rows. */
  lemma IndexByPermuted<X>(xs: seq<X>, ys: seq<X>, key: X -> int)
    requires multiset(xs) == multiset(ys) && DistinctValues(xs, key) && DistinctValues(ys, key)
    ensures IndexBy(xs, key) == IndexBy(ys, key)
  {
    IndexByRows(xs, key);
    IndexByRows(ys, key);
    forall id | id in IndexBy(xs, key)
      ensures id in IndexBy(ys, key) && IndexBy(ys, key)[id] == IndexBy(xs, key)[id]
    {
      var i :| 0 <= i < |xs| && key(xs[i]) == id;
      assert xs[i] in multiset(ys);
      var j :| 0 <= j < |ys| && ys[j] == xs[i];
      IndexByDistinct(xs, key, i);
      IndexByDistinct(ys, key, j);
    }
    forall id | id in IndexBy(ys, key)
      ensures id in IndexBy(xs, key)
    {
      var j :| 0 <= j < |ys| && key(ys[j]) == id;
      assert ys[j] in multiset(xs);
    }
  }

  /** Distinct values stay distinct in any order. */
  lemma DistinctValuesPermuted<X, K>(xs: seq<X>, ys: seq<X>, key: X -> K)
    requires multiset(xs) == multiset(ys) && DistinctValues(xs, key)
    ensures DistinctValues(ys, key)
  {
    assert |multiset(xs)| == |xs| && |multiset(ys)| == |ys|;
    DistinctByCount(xs, key);
    DistinctByCount(ys, key);
    ValuesPermuted(xs, ys, key);
  }

  lemma ValuesPermuted<X, K>(xs: seq<X>, ys: seq<X>, key: X -> K)
    requires multiset(xs) == multiset(ys)
    ensures Values(xs, key) == Values(ys, key)
  {
    forall k | k in Values(xs, key)
      ensures k in Values(ys, key)
    {
      var i :| 0 <= i < |xs| && key(xs[i]) == k;
      assert xs[i] in multiset(ys);
    }
    forall k | k in Values(ys, key)
      ensures k in Values(xs, key)
    {
      var i :| 0 <= i < |ys| && key(ys[i]) == k;
      assert ys[i] in multiset(xs);
    }
  }

  /** One entry per input: the collection runs parallel to the inputs. */
  lemma {:induction false} FlatMapSingles<X, R>(xs: seq<X>, f: X -> seq<R>)
    requires forall x :: |f(x)| == 1
    ensures |FlatMap(xs, f)| == |xs| && forall k | 0 <= k < |xs| :: f(xs[k]) == [FlatMap(xs, f)[k]]
  {
    if xs == [] {
    } else {
      FlatMapSingles(xs[..|xs| - 1], f);
      assert forall k | 0 <= k < |xs| - 1 :: xs[..|xs| - 1][k] == xs[k];
    }
  }

  lemma {:induction false} SumFlatMap<X, R>(xs: seq<X>, f: X -> seq<R>, worth: R -> int, worthOf: X -> int)
    requires forall x :: Sum(f(x), worth) == worthOf(x)
    ensures Sum(FlatMap(xs, f), worth) == Sum(xs, worthOf)
  {
    if xs == [] {
    } else {
      SumFlatMap(xs[..|xs| - 1], f, worth, worthOf);
      SumConcat(FlatMap(xs[..|xs| - 1], f), f(xs[|xs| - 1]), worth);
    }
  }

  lemma {:induction false} CountNone<X>(xs: seq<X>, p: X -> bool)
    requires forall k | 0 <= k < |xs| :: !p(xs[k])
    ensures Count(xs, p) == 0
  {
    if xs == [] {
    } else {
      CountNone(xs[..|xs| - 1], p);
    }
  }

  /** A condition met by every entry up to some place is met at least that often. */
  lemma {:induction false} CountPrefix<X>(xs: seq<X>, p: X -> bool, n: nat)
    requires n <= |xs| && forall k | 0 <= k < n :: p(xs[k])
    ensures Count(xs, p) >= n
  {
    if xs == [] {
    } else {
      CountPrefix(xs[..|xs| - 1], p, if n < |xs| then n else n - 1);
    }
  }

  // ---------------------------------------------------------------- grouping by key

  function WithKey<X>(key: X -> int, id: int): X -> seq<X> {
    (x: X) => if key(x) == id then [x] else []
  }

  function GroupOf<X>(groups: map<int, seq<X>>, id: int): seq<X> {
    if id in groups then groups[id] else []
  }

  /** The rows grouped by key, each group in the order of the rows. */
  ghost predicate IsGrouping<X>(groups: map<int, seq<X>>, xs: seq<X>, key: X -> int) {
    forall id ::
      && GroupOf(groups, id) == FlatMap(xs, WithKey(key, id))
      && (id in groups <==> FlatMap(xs, WithKey(key, id)) != [])
  }

  method GroupRows<X>(xs: seq<X>, key: X -> int) returns (groups: map<int, seq<X>>)
    ensures IsGrouping(groups, xs, key)
  {
    groups := map[];
    assert IsGrouping(groups, [], key);
    for i := 0 to |xs|
      invariant IsGrouping(groups, xs[..i], key)
    {
      var id := key(xs[i]);
      GroupStep(groups, xs, key, i);
      hide IsGrouping;
      groups := groups[id := GroupOf(groups, id) + [xs[i]]];
    }
    assert xs[..|xs|] == xs;
  }

  lemma GroupStep<X>(groups: map<int, seq<X>>, xs: seq<X>, key: X -> int, i: nat)
    requires i < |xs| && IsGrouping(groups, xs[..i], key)
    ensures IsGrouping(groups[key(xs[i]) := GroupOf(groups, key(xs[i])) + [xs[i]]], xs[..i + 1], key)
  {
    var added := groups[key(xs[i]) := GroupOf(groups, key(xs[i])) + [xs[i]]];
    forall id
      ensures GroupOf(added, id) == FlatMap(xs[..i + 1], WithKey(key, id))
      ensures id in added <==> FlatMap(xs[..i + 1], WithKey(key, id)) != []
    {
      FlatMapStep(xs, WithKey(key, id), i);
      assert GroupOf(groups, id) == FlatMap(xs[..i], WithKey(key, id));
      hide FlatMap;
    }
  }

  function Within<X, R>(key: X -> int, done: set<int>, f: X -> seq<R>): X -> seq<R> {
    (x: X) => if key(x) in done then f(x) else []
  }

  /** Taking one more group into account adds what that group yields. */
  lemma {:induction false} WithinGrows<X, R>(xs: seq<X>, key: X -> int, done: set<int>, id: int, f: X -> seq<R>)
    requires id !in done
    ensures multiset(FlatMap(xs, Within(key, done + {id}, f)))
         == multiset(FlatMap(xs, Within(key, done, f))) + multiset(FlatMap(FlatMap(xs, WithKey(key, id)), f))
  {
    if xs == [] {
    } else {
      var front, last := xs[..|xs| - 1], xs[|xs| - 1];
      WithinGrows(front, key, done, id, f);
      WithinLast(xs, key, done, id, f);
      hide FlatMap, Within, WithKey;
    }
  }

  lemma WithinLast<X, R>(xs: seq<X>, key: X -> int, done: set<int>, id: int, f: X -> seq<R>)
    requires xs != [] && id !in done
    ensures var front, last := xs[..|xs| - 1], xs[|xs| - 1];
      var wide := if key(last) in done || key(last) == id then f(last) else [];
      var narrow, group := if key(last) in done then f(last) else [], if key(last) == id then f(last) else [];
      && multiset(FlatMap(xs, Within(key, done + {id}, f)))
         == multiset(FlatMap(front, Within(key, done + {id}, f))) + multiset(wide)
      && multiset(FlatMap(xs, Within(key, done, f)))
         == multiset(FlatMap(front, Within(key, done, f))) + multiset(narrow)
      && multiset(FlatMap(FlatMap(xs, WithKey(key, id)), f))
         == multiset(FlatMap(FlatMap(front, WithKey(key, id)), f)) + multiset(group)
      && multiset(wide) == multiset(narrow) + multiset(group)
  {
    var front, last := xs[..|xs| - 1], xs[|xs| - 1];
    FlatMapConcat(FlatMap(front, WithKey(key, id)), WithKey(key, id)(last), f);
    assert FlatMap([last], f) == f(last);
    assert FlatMap([], f) == [];
  }

  lemma {:induction false} WithinAll<X, R>(xs: seq<X>, key: X -> int, done: set<int>, f: X -> seq<R>)
    requires forall k | 0 <= k < |xs| :: key(xs[k]) in done
    ensures FlatMap(xs, Within(key, done, f)) == FlatMap(xs, f)
  {
    if xs == [] {
    } else {
      WithinAll(xs[..|xs| - 1], key, done, f);
    }
  }

  lemma {:induction false} WithinNone<X, R>(xs: seq<X>, key: X -> int, f: X -> seq<R>)
    ensures FlatMap(xs, Within(key, {}, f)) == []
  {
    if xs == [] {
    } else {
      WithinNone(xs[..|xs| - 1], key, f);
    }
  }

  /** Pigeonhole: if every counted entry is worth a share 1/parts of a positive total, and no entry is
      worth less than nothing, at most `parts` entries are counted. */
  lemma AtMostParts<X>(xs: seq<X>, worth: X -> int, p: X -> bool, total: int, parts: nat)
    requires Sum(xs, worth) <= total && 0 < total
    requires forall k | 0 <= k < |xs| :: worth(xs[k]) >= 0 && (p(xs[k]) ==> parts * worth(xs[k]) >= total)
    ensures Count(xs, p) <= parts
  {
    CountedWorth(xs, worth, p, total, parts);
    hide Count;
    MulLe(parts, Sum(xs, worth), total);
    CancelLe(total, Count(xs, p), parts);
  }

  lemma MulLe(factor: int, x: int, y: int)
    requires factor >= 0 && x <= y
    ensures factor * x <= factor * y
  {
  }

  lemma CancelLe(factor: int, x: int, y: int)
    requires factor > 0 && x * factor <= y * factor
    ensures x <= y
  {
    if x > y {
      MulLess(factor, y, x);
    }
  }

  lemma MulLess(factor: int, x: int, y: int)
    requires factor > 0 && x < y
    ensures x * factor < y * factor
  {
    assert y * factor - x * factor == (y - x) * factor;
  }

  lemma {:induction false} CountedWorth<X>(xs: seq<X>, worth: X -> int, p: X -> bool, total: int, parts: nat)
    requires forall k | 0 <= k < |xs| :: worth(xs[k]) >= 0 && (p(xs[k]) ==> parts * worth(xs[k]) >= total)
    ensures Count(xs, p) * total <= parts * Sum(xs, worth)
  {
    if xs == [] {
    } else {
      var front, last := xs[..|xs| - 1], xs[|xs| - 1];
      CountedWorth(front, worth, p, total, parts);
      assert parts * Sum(xs, worth) == parts * Sum(front, worth) + parts * worth(last);
      if p(last) {
        assert Count(xs, p) * total == Count(front, p) * total + total;
      } else {
        assert parts * worth(last) >= 0;
      }
    }
  }
}
