/** Reference lists: entities met in tool output, remembered once each by id, first sighting first. */
module References {
  import opened Wrappers
  import opened Batches
  import opened Sums
  import opened ContextValue
  import opened Sorting

  datatype Reference<+D> = Reference(id: int, detail: D)

  function Field(f: Fields, key: string): Value {
    if key in f.m then f.m[key] else Null
  }

  /** Integers, and double-precision numbers without a fractional part, can be read as ids. */
  function ReadInt64(v: Value): Option<int> {
    match v
    case Int(n) => Some(n)
    case Float(r) => if r == r.Floor as real then Some(r.Floor) else None
    case _ => None
  }

  function IdOf(src: Fields): Option<int> {
    ReadInt64(Field(src, "id"))
  }

  function RefId<D>(): Reference<D> -> int {
    (ref: Reference<D>) => ref.id
  }

  function Ids<D>(refs: seq<Reference<D>>): set<int> {
    Values(refs, RefId<D>())
  }

  function WithReference<D>(refs: seq<Reference<D>>, src: Fields, detail: Fields -> D): seq<Reference<D>> {
    match IdOf(src)
    case None => refs
    case Some(id) => if id in Ids(refs) then refs else refs + [Reference(id, detail(src))]
  }

  function WithReferences<D>(refs: seq<Reference<D>>, srcs: seq<Fields>, detail: Fields -> D): seq<Reference<D>> {
    if srcs == [] then refs
    else WithReference(WithReferences(refs, srcs[..|srcs| - 1], detail), srcs[|srcs| - 1], detail)
  }

  ghost predicate DistinctIds<D>(refs: seq<Reference<D>>) {
    DistinctValues(refs, RefId<D>())
  }

  ghost predicate StrictlyIncreasing<D>(refs: seq<Reference<D>>) {
    forall i, j | 0 <= i < j < |refs| :: refs[i].id < refs[j].id
  }

  /** The ids that can be read from a list of maps. */
  ghost function ReadableIds(srcs: seq<Fields>): set<int> {
    set k | 0 <= k < |srcs| && IdOf(srcs[k]).Some? :: IdOf(srcs[k]).value
  }

  /** Adding the entities of `srcs` keeps ids distinct and adds exactly the readable ids. */
  lemma {:induction false} WithReferencesIds<D>(refs: seq<Reference<D>>, srcs: seq<Fields>, detail: Fields -> D)
    requires DistinctIds(refs)
    ensures DistinctIds(WithReferences(refs, srcs, detail))
    ensures Ids(WithReferences(refs, srcs, detail)) == Ids(refs) + ReadableIds(srcs)
    ensures refs <= WithReferences(refs, srcs, detail)
  {
    if srcs == [] {
    } else {
      var front, last := srcs[..|srcs| - 1], srcs[|srcs| - 1];
      var before := WithReferences(refs, front, detail);
      WithReferencesIds(refs, front, detail);
      assert ReadableIds(srcs) == ReadableIds(front) + (if IdOf(last).Some? then {IdOf(last).value} else {}) by {
        assert forall k | 0 <= k < |front| :: srcs[k] == front[k];
      }
      if IdOf(last).Some? && IdOf(last).value !in Ids(before) {
        var added := Reference(IdOf(last).value, detail(last));
        ValuesPush(before, RefId<D>(), added);
        DistinctPush(before, RefId<D>(), added);
      }
    }
  }

  /** What is remembered about an id is what its first sighting said. */
  lemma {:induction false} FirstSightingWins<D>(srcs: seq<Fields>, detail: Fields -> D, k: nat)
    requires k < |srcs| && IdOf(srcs[k]).Some? && IdOf(srcs[k]).value !in ReadableIds(srcs[..k])
    ensures Reference(IdOf(srcs[k]).value, detail(srcs[k])) in WithReferences([], srcs, detail)
  {
    var front := srcs[..|srcs| - 1];
    if k < |srcs| - 1 {
      assert front[..k] == srcs[..k];
      FirstSightingWins(front, detail, k);
    } else {
      WithReferencesIds([], front, detail);
    }
  }

  lemma {:induction false} WithReferencesConcat<D>(refs: seq<Reference<D>>, a: seq<Fields>, b: seq<Fields>,
                                                   detail: Fields -> D)
    ensures WithReferences(refs, a + b, detail) == WithReferences(WithReferences(refs, a, detail), b, detail)
  {
    if b == [] {
      assert a + b == a;
    } else {
      assert (a + b)[..|a + b| - 1] == a + b[..|b| - 1];
      WithReferencesConcat(refs, a, b[..|b| - 1], detail);
    }
  }

  function ById<D>(): (Reference<D>, Reference<D>) -> bool {
    (a: Reference<D>, b: Reference<D>) => a.id < b.id
  }

  /** Sorting by id a list with distinct ids makes it strictly increasing and keeps its elements. */
  lemma SortByIdIncreases<D(!new)>(refs: seq<Reference<D>>)
    requires DistinctIds(refs)
    ensures StrictlyIncreasing(Sort(refs, ById<D>()))
    ensures multiset(Sort(refs, ById<D>())) == multiset(refs)
    ensures Ids(Sort(refs, ById<D>())) == Ids(refs)
  {
    var sorted := Sort(refs, ById<D>());
    SortPermutes(refs, ById<D>());
    SortSorts(refs, ById<D>());
    ValuesPermuted(refs, sorted, RefId<D>());
    DistinctValuesPermuted(refs, sorted, RefId<D>());
    forall i, j | 0 <= i < j < |sorted|
      ensures sorted[i].id < sorted[j].id
    {
      assert !ById<D>()(sorted[j], sorted[i]);
      assert RefId<D>()(sorted[i]) != RefId<D>()(sorted[j]);
    }
  }
}
