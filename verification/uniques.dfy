/** Lists without repeats: every de-duplication of the backend keeps first places and drops empty entries. */
module Uniques {
  function Itself<T>(): T -> T {
    (x: T) => x
  }

  /** The images of the entries, without empty ones and without repeats, each at its first place. */
  function Uniq<X, T(==)>(values: seq<X>, image: X -> T, empty: T -> bool): seq<T> {
    if values == [] then []
    else
      var before, v := Uniq(values[..|values| - 1], image, empty), image(values[|values| - 1]);
      if empty(v) || v in before then before else before + [v]
  }

  lemma UniqOfNothing<X, T>(image: X -> T, empty: T -> bool)
    ensures Uniq([], image, empty) == []
  {
  }

  ghost predicate NoRepeats<T>(xs: seq<T>) {
    forall i, j | 0 <= i < j < |xs| :: xs[i] != xs[j]
  }

  ghost predicate Shows<X, T>(values: seq<X>, image: X -> T, v: T) {
    exists k | 0 <= k < |values| :: image(values[k]) == v
  }

  lemma ShowsLast<X, T>(values: seq<X>, image: X -> T, v: T)
    requires values != []
    ensures Shows(values, image, v) <==> Shows(values[..|values| - 1], image, v) || image(values[|values| - 1]) == v
  {
    var front := values[..|values| - 1];
    if k :| 0 <= k < |front| && image(front[k]) == v {
      assert image(values[k]) == v;
    }
    if k :| 0 <= k < |values| && image(values[k]) == v {
      assert k < |front| ==> front[k] == values[k];
    }
  }

  lemma ShowsMore<X, T>(values: seq<X>, image: X -> T, v: T, n: nat)
    requires n <= |values|
    ensures Shows(values[..n], image, v) ==> Shows(values, image, v)
  {
    if Shows(values[..n], image, v) {
      var k :| 0 <= k < n && image(values[..n][k]) == v;
      assert image(values[k]) == v;
    }
  }

  /** Nothing is lost but the empty entries, and nothing repeats. */
  lemma {:induction false} UniqMembers<X, T(!new)>(values: seq<X>, image: X -> T, empty: T -> bool)
    ensures NoRepeats(Uniq(values, image, empty))
    ensures forall v :: v in Uniq(values, image, empty) <==> !empty(v) && Shows(values, image, v)
  {
    if values == [] {
    } else {
      UniqMembers(values[..|values| - 1], image, empty);
      forall v
        ensures Shows(values, image, v) <==> Shows(values[..|values| - 1], image, v) || image(values[|values| - 1]) == v
      {
        ShowsLast(values, image, v);
      }
      hide Shows;
    }
  }

  lemma ShowsItself<T(!new)>(values: seq<T>)
    ensures forall v :: Shows(values, Itself<T>(), v) <==> v in values
  {
    forall v
      ensures Shows(values, Itself<T>(), v) <==> v in values
    {
      if v in values {
        var k :| 0 <= k < |values| && values[k] == v;
        assert Itself<T>()(values[k]) == v;
      }
    }
  }

  /** Some place shows `a` with no `b` at or before it. */
  ghost predicate ShownBefore<X, T>(values: seq<X>, image: X -> T, a: T, b: T) {
    exists k | 0 <= k < |values| :: image(values[k]) == a && !Shows(values[..k + 1], image, b)
  }

  /** First places keep their order. */
  lemma {:induction false} UniqKeepsFirsts<X, T(!new)>(values: seq<X>, image: X -> T, empty: T -> bool, i: nat, j: nat)
    requires i < j < |Uniq(values, image, empty)|
    ensures ShownBefore(values, image, Uniq(values, image, empty)[i], Uniq(values, image, empty)[j])
  {
    var front, out := values[..|values| - 1], Uniq(values, image, empty);
    var before := Uniq(front, image, empty);
    if j < |before| {
      UniqKeepsFirsts(front, image, empty, i, j);
      var k :| 0 <= k < |front| && image(front[k]) == out[i] && !Shows(front[..k + 1], image, out[j]);
      assert image(values[k]) == out[i] && values[..k + 1] == front[..k + 1];
    } else {
      UniqMembers(front, image, empty);
      assert before[i] in before && Shows(front, image, out[i]) && !Shows(front, image, out[j]);
      var k :| 0 <= k < |front| && image(front[k]) == out[i];
      assert image(values[k]) == out[i] && values[..k + 1] == front[..k + 1];
      ShowsMore(front, image, out[j], k + 1);
    }
  }
}
