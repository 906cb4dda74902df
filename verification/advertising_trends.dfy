/** Trends behind the advertising analytics: a product's newest two metric rows, picked in one pass over rows
    in any order, and campaigns whose spend grew without result. */
module AdvertisingTrends {
  import opened Wrappers
  import opened Batches
  import opened Sorting
  import opened Sums
  import opened CriticalSkus

  // ---------------------------------------------------------------- the newest two rows of a product

  /** The date of an absent row; every stored row is later. */
  const ZERO_DAY := 0

  const NO_ROW := SkuRow(ZERO_DAY, 0, 0, 0, 0, None)

  datatype Pair = Pair(newest: SkuRow, previous: SkuRow)

  /** What one pass over the rows keeps for a product. */
  function Pick(rows: seq<SkuRow>, upper: int, productId: int): Option<Pair> {
    if rows == [] then None
    else
      var front, row := Pick(rows[..|rows| - 1], upper, productId), rows[|rows| - 1];
      if row.day > upper + 1 || row.productId != productId then front
      else if front.None? then Some(Pair(row, NO_ROW))
      else if row.day > front.value.newest.day then Some(Pair(row, front.value.newest))
      else if row.day > front.value.previous.day then Some(Pair(front.value.newest, row))
      else front
  }

  ghost predicate Holds(latest: map<int, SkuRow>, previous: map<int, SkuRow>, rows: seq<SkuRow>, upper: int) {
    forall p ::
      (p in latest <==> Pick(rows, upper, p).Some?) && (p in previous <==> p in latest)
      && (p in latest ==> Pick(rows, upper, p) == Some(Pair(latest[p], previous[p])))
  }

  method SplitLatestAndPreviousByProduct(rows: seq<SkuRow>, upper: int)
      returns (latest: map<int, SkuRow>, previous: map<int, SkuRow>)
    ensures Holds(latest, previous, rows, upper)
  {
    latest, previous := map[], map[];
    for i := 0 to |rows|
      invariant Holds(latest, previous, rows[..i], upper)
    {
      assert rows[..i + 1][..i] == rows[..i];
      var row := rows[i];
      if row.day > upper + 1 {
        continue;
      }
      var p := row.productId;
      if p !in latest || row.day > latest[p].day {
        previous := previous[p := if p in latest then latest[p] else NO_ROW];
        latest := latest[p := row];
        continue;
      }
      if p !in previous || row.day > previous[p].day {
        previous := previous[p := row];
      }
    }
    assert rows[..|rows|] == rows;
  }

  ghost predicate AllStored(rows: seq<SkuRow>) {
    forall k | 0 <= k < |rows| :: rows[k].day > ZERO_DAY
  }

  predicate Eligible(rows: seq<SkuRow>, upper: int, productId: int, k: int) {
    0 <= k < |rows| && rows[k].productId == productId && rows[k].day <= upper + 1
  }

  ghost predicate IsNewest(rows: seq<SkuRow>, upper: int, productId: int, i: int) {
    Eligible(rows, upper, productId, i) && forall k | Eligible(rows, upper, productId, k) :: rows[k].day <= rows[i].day
  }

  ghost predicate IsRunnerUp(rows: seq<SkuRow>, upper: int, productId: int, i: int, j: int) {
    && Eligible(rows, upper, productId, j) && j != i
    && forall k | Eligible(rows, upper, productId, k) && k != i :: rows[k].day <= rows[j].day
  }

  /** The pass keeps a product's newest row in range and the newest of its other rows, or the absent row
      when it has no other. A product without a row in range is not kept. */
  lemma {:induction false} PickIsNewestTwo(rows: seq<SkuRow>, upper: int, productId: int) returns (i: int, j: int)
    requires AllStored(rows)
    ensures Pick(rows, upper, productId).None? ==> forall k :: !Eligible(rows, upper, productId, k)
    ensures Pick(rows, upper, productId).Some? ==>
      IsNewest(rows, upper, productId, i) && Pick(rows, upper, productId).value.newest == rows[i]
    ensures Pick(rows, upper, productId).Some? && j >= 0 ==>
      IsRunnerUp(rows, upper, productId, i, j) && Pick(rows, upper, productId).value.previous == rows[j]
    ensures Pick(rows, upper, productId).Some? && j < 0 ==>
      Pick(rows, upper, productId).value.previous == NO_ROW && forall k | Eligible(rows, upper, productId, k) :: k == i
  {
    i, j := -1, -1;
    if rows != [] {
      var front, n := rows[..|rows| - 1], |rows| - 1;
      i, j := PickIsNewestTwo(front, upper, productId);
      assert forall k | 0 <= k < n :: Eligible(front, upper, productId, k) == Eligible(rows, upper, productId, k);
      if Eligible(rows, upper, productId, n) {
        var before := Pick(front, upper, productId);
        if before.None? {
          i, j := n, -1;
        } else if rows[n].day > before.value.newest.day {
          i, j := n, i;
        } else if rows[n].day > before.value.previous.day {
          j := n;
        }
      }
    }
  }

  /** Every row of the product in range is also among those of the other list. */
  ghost predicate SameEligible(rows: seq<SkuRow>, rows': seq<SkuRow>, upper: int, productId: int) {
    forall k | Eligible(rows, upper, productId, k) ::
      exists l :: Eligible(rows', upper, productId, l) && rows'[l] == rows[k]
  }

  /** The database key of a metric row of one seller. */
  function ProductDay(): SkuRow -> (int, int) {
    (row: SkuRow) => (row.productId, row.day)
  }

  /** The two rows kept do not depend on the order of the rows. */
  lemma PickForgetsOrder(rows: seq<SkuRow>, rows': seq<SkuRow>, upper: int, productId: int)
    requires multiset(rows) == multiset(rows') && DistinctValues(rows, ProductDay()) && AllStored(rows)
    ensures Pick(rows, upper, productId) == Pick(rows', upper, productId)
  {
    DistinctValuesPermuted(rows, rows', ProductDay());
    LaterRows(rows, rows');
    Elsewhere(rows, rows', upper, productId);
    Elsewhere(rows', rows, upper, productId);
    hide SameEligible, DistinctValues, Pick;
    PicksAgree(rows, rows', upper, productId);
  }

  lemma PicksAgree(rows: seq<SkuRow>, rows': seq<SkuRow>, upper: int, productId: int)
    requires SameEligible(rows, rows', upper, productId) && SameEligible(rows', rows, upper, productId)
    requires DistinctValues(rows, ProductDay()) && DistinctValues(rows', ProductDay())
    requires AllStored(rows) && AllStored(rows')
    ensures Pick(rows, upper, productId) == Pick(rows', upper, productId)
  {
    hide SameEligible, DistinctValues, AllStored, Pick;
    NoneTogether(rows, rows', upper, productId);
    NoneTogether(rows', rows, upper, productId);
    var i, j := PickIsNewestTwo(rows, upper, productId);
    var i', j' := PickIsNewestTwo(rows', upper, productId);
    if Pick(rows, upper, productId).Some? && Pick(rows', upper, productId).Some? {
      SameNewest(rows, rows', upper, productId, i, i');
      SameRunnerUp(rows, rows', upper, productId, i, j, i', j');
    }
  }

  lemma NoneTogether(rows: seq<SkuRow>, rows': seq<SkuRow>, upper: int, productId: int)
    requires SameEligible(rows, rows', upper, productId)
    ensures (exists k :: Eligible(rows, upper, productId, k)) ==> exists k :: Eligible(rows', upper, productId, k)
  {
  }

  lemma LaterRows(rows: seq<SkuRow>, rows': seq<SkuRow>)
    requires multiset(rows) == multiset(rows') && AllStored(rows)
    ensures AllStored(rows')
  {
    forall k | 0 <= k < |rows'|
      ensures rows'[k].day > ZERO_DAY
    {
      assert rows'[k] in multiset(rows);
    }
  }

  lemma SameNewest(rows: seq<SkuRow>, rows': seq<SkuRow>, upper: int, productId: int, i: int, i': int)
    requires SameEligible(rows, rows', upper, productId) && SameEligible(rows', rows, upper, productId)
    requires DistinctValues(rows, ProductDay())
    requires IsNewest(rows, upper, productId, i) && IsNewest(rows', upper, productId, i')
    ensures rows[i] == rows'[i']
  {
    SameDaySameRow(rows, upper, productId);
    var k :| Eligible(rows', upper, productId, k) && rows'[k] == rows[i];
    var l :| Eligible(rows, upper, productId, l) && rows[l] == rows'[i'];
    assert rows[i].day == rows[l].day;
  }

  /** Without a runner-up in one list there is none in the other; otherwise they are the same row. */
  lemma SameRunnerUp(rows: seq<SkuRow>, rows': seq<SkuRow>, upper: int, productId: int, i: int, j: int, i': int,
                     j': int)
    requires SameEligible(rows, rows', upper, productId) && SameEligible(rows', rows, upper, productId)
    requires DistinctValues(rows, ProductDay()) && DistinctValues(rows', ProductDay())
    requires IsNewest(rows, upper, productId, i) && IsNewest(rows', upper, productId, i') && rows[i] == rows'[i']
    requires if j >= 0 then IsRunnerUp(rows, upper, productId, i, j)
             else forall k | Eligible(rows, upper, productId, k) :: k == i
    requires if j' >= 0 then IsRunnerUp(rows', upper, productId, i', j')
             else forall k | Eligible(rows', upper, productId, k) :: k == i'
    ensures j >= 0 <==> j' >= 0
    ensures j >= 0 && j' >= 0 ==> rows[j] == rows'[j']
  {
    SameDaySameRow(rows, upper, productId);
    SameDaySameRow(rows', upper, productId);
    hide DistinctValues;
    if j >= 0 {
      var k :| Eligible(rows', upper, productId, k) && rows'[k] == rows[j];
      assert k != i';
    }
    if j' >= 0 {
      var l :| Eligible(rows, upper, productId, l) && rows[l] == rows'[j'];
      assert l != i;
    }
  }

  /** The rows of a product in range are the same in both lists. */
  lemma Elsewhere(rows: seq<SkuRow>, rows': seq<SkuRow>, upper: int, productId: int)
    requires multiset(rows) == multiset(rows')
    ensures SameEligible(rows, rows', upper, productId)
  {
    forall k | Eligible(rows, upper, productId, k)
      ensures exists l :: Eligible(rows', upper, productId, l) && rows'[l] == rows[k]
    {
      assert rows[k] in multiset(rows');
      var l :| 0 <= l < |rows'| && rows'[l] == rows[k];
      assert Eligible(rows', upper, productId, l);
    }
  }

  lemma SameDaySameRow(rows: seq<SkuRow>, upper: int, productId: int)
    requires DistinctValues(rows, ProductDay())
    ensures forall k, l | Eligible(rows, upper, productId, k) && Eligible(rows, upper, productId, l) &&
              rows[k].day == rows[l].day :: k == l
  {
    forall k, l | Eligible(rows, upper, productId, k) && Eligible(rows, upper, productId, l)
          && rows[k].day == rows[l].day
      ensures k == l
    {
      assert ProductDay()(rows[k]) == ProductDay()(rows[l]);
    }
  }

  // ---------------------------------------------------------------- spend growth without result

  datatype AdRow = AdRow(campaignId: int, day: int, spendCents: int, orders: int)

  function Earlier(): (AdRow, AdRow) -> bool {
    (x: AdRow, y: AdRow) => x.day < y.day
  }

  function AdSpend(): AdRow -> int {
    (row: AdRow) => row.spendCents
  }

  function AdOrders(): AdRow -> int {
    (row: AdRow) => row.orders
  }

  function AdDay(): AdRow -> int {
    (row: AdRow) => row.day
  }

  /** Rows in date order: spend grew by a fifth from the first half to the second, and orders did not follow. */
  predicate GrewWithoutResult(rows: seq<AdRow>) {
    var split := |rows| / 2;
    var prevSpend, curSpend := Sum(rows[..split], AdSpend()), Sum(rows[split..], AdSpend());
    var prevOrders, curOrders := Sum(rows[..split], AdOrders()), Sum(rows[split..], AdOrders());
    && |rows| >= 4 && prevSpend > 0 && 5 * (curSpend - prevSpend) >= prevSpend
    && if prevOrders <= 0 then curOrders <= 0 else 20 * (curOrders - prevOrders) < prevOrders
  }

  method HasSpendGrowthWithoutResult(rows: array<AdRow>) returns (grew: bool)
    modifies rows
    ensures multiset(rows[..]) == multiset(old(rows[..]))
    ensures if rows.Length < 4 then rows[..] == old(rows[..]) else Sorted(rows[..], Earlier())
    ensures grew == GrewWithoutResult(rows[..])
  {
    if rows.Length < 4 {
      return false;
    }
    SortArray(rows, Earlier());
    var split := rows.Length / 2;
    var prevSpend, curSpend, prevOrders, curOrders := 0, 0, 0, 0;
    for i := 0 to rows.Length
      invariant prevSpend == Sum(rows[..if i < split then i else split], AdSpend())
      invariant prevOrders == Sum(rows[..if i < split then i else split], AdOrders())
      invariant curSpend == if i < split then 0 else Sum(rows[split..i], AdSpend())
      invariant curOrders == if i < split then 0 else Sum(rows[split..i], AdOrders())
    {
      if i < split {
        assert rows[..i + 1][..i] == rows[..i];
        prevSpend, prevOrders := prevSpend + rows[i].spendCents, prevOrders + rows[i].orders;
      } else {
        assert rows[split..i + 1][..i - split] == rows[split..i];
        curSpend, curOrders := curSpend + rows[i].spendCents, curOrders + rows[i].orders;
      }
    }
    assert rows[..][..split] == rows[..split] && rows[..][split..] == rows[split..rows.Length];
    if prevSpend <= 0 || 5 * (curSpend - prevSpend) < prevSpend {
      return false;
    }
    if prevOrders <= 0 && curOrders <= 0 {
      return true;
    }
    if prevOrders <= 0 {
      return false;
    }
    grew := 20 * (curOrders - prevOrders) < prevOrders;
  }

  /** With one row per day, the verdict does not depend on the order of the rows. */
  lemma GrowthForgetsOrder(rows: seq<AdRow>, rows': seq<AdRow>)
    requires multiset(rows) == multiset(rows') && DistinctValues(rows, AdDay())
    requires Sorted(rows, Earlier()) && Sorted(rows', Earlier())
    ensures GrewWithoutResult(rows) <==> GrewWithoutResult(rows')
  {
    forall i, j | 0 <= i < |rows| && 0 <= j < |rows| && !Earlier()(rows[i], rows[j]) && !Earlier()(rows[j], rows[i])
      ensures rows[i] == rows[j]
    {
      SameKeySamePlace(rows, AdDay(), i, j);
    }
    SortedUnique(rows, rows', Earlier());
  }
}
