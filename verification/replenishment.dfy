/** The replenishment list: one item per stocked product, classified by depletion risk and priority and
    sorted with the most urgent first. */
module Replenishment {
  import opened Wrappers
  import opened Batches
  import opened Sorting
  import opened Sums
  import opened Uniques
  import opened CriticalSkus

  datatype Risk = LowDepletion | MediumDepletion | HighDepletion | CriticalOutOfStock

  datatype Priority = Low | Medium | High

  datatype Tag =
    | TagOutOfStock | TagCoverLe3 | TagLowStockOrCoverLe7 | TagStockSufficient
    | TagPriorityHigh | TagPriorityMedium | TagPriorityLow

  datatype Item = Item(productId: int, available: int, daysOfCover: Option<int>, importance: int, risk: Risk,
                       priority: Priority, tags: seq<Tag>)

  predicate CoverAtMost(daysOfCover: Option<int>, hundredths: int) {
    daysOfCover.Some? && daysOfCover.value <= hundredths
  }

  function ClassifyDepletionRisk(available: int, daysOfCover: Option<int>): (Risk, Tag) {
    if available <= 0 then (CriticalOutOfStock, TagOutOfStock)
    else if CoverAtMost(daysOfCover, 300) then (HighDepletion, TagCoverLe3)
    else if available <= 3 || CoverAtMost(daysOfCover, 700) then (MediumDepletion, TagLowStockOrCoverLe7)
    else (LowDepletion, TagStockSufficient)
  }

  function ClassifyReplenishmentPriority(available: int, daysOfCover: Option<int>, importance: int): (Priority, Tag) {
    if (available == 0 || CoverAtMost(daysOfCover, 300)) && importance >= 50 then (High, TagPriorityHigh)
    else if CoverAtMost(daysOfCover, 700) && importance >= 30 then (Medium, TagPriorityMedium)
    else (Low, TagPriorityLow)
  }

  function PriorityRank(priority: Priority): int {
    match priority
    case High => 3
    case Medium => 2
    case Low => 1
  }

  function RiskRank(risk: Risk): int {
    match risk
    case CriticalOutOfStock => 4
    case HighDepletion => 3
    case MediumDepletion => 2
    case LowDepletion => 1
  }

  /** Neither more stock nor a longer cover raises the depletion risk, and a longer cover never raises the priority. */
  lemma DepletionFalls(less: int, more: int, shorter: int, longer: int, importance: int)
    requires less <= more && shorter <= longer
    ensures RiskRank(ClassifyDepletionRisk(less, Some(shorter)).0)
         >= RiskRank(ClassifyDepletionRisk(more, Some(longer)).0)
    ensures RiskRank(ClassifyDepletionRisk(less, None).0) >= RiskRank(ClassifyDepletionRisk(more, None).0)
    ensures PriorityRank(ClassifyReplenishmentPriority(less, Some(shorter), importance).0)
         >= PriorityRank(ClassifyReplenishmentPriority(less, Some(longer), importance).0)
  {
  }

  /** The depletion risk in pieces and hundredths of days. */
  lemma DepletionRiskIff(available: int, daysOfCover: Option<int>)
    ensures var (risk, tag) := ClassifyDepletionRisk(available, daysOfCover);
      var threeDays := daysOfCover.Some? && daysOfCover.value <= 300;
      var low := available <= 3 || (daysOfCover.Some? && daysOfCover.value <= 700);
      && (risk == CriticalOutOfStock <==> available <= 0)
      && (risk == HighDepletion <==> available > 0 && threeDays)
      && (risk == MediumDepletion <==> available > 0 && !threeDays && low)
      && (tag == TagOutOfStock <==> risk == CriticalOutOfStock) && (tag == TagCoverLe3 <==> risk == HighDepletion)
      && (tag == TagLowStockOrCoverLe7 <==> risk == MediumDepletion)
      && (tag == TagStockSufficient <==> risk == LowDepletion)
  {
  }

  ghost predicate NoMoreUrgentRisk(left: Risk, right: Risk) {
    match left
    case CriticalOutOfStock => right == CriticalOutOfStock
    case HighDepletion => right == CriticalOutOfStock || right == HighDepletion
    case MediumDepletion => right != LowDepletion
    case LowDepletion => true
  }

  ghost predicate NoMoreUrgentPriority(left: Priority, right: Priority) {
    match left
    case High => right == High
    case Medium => right != Low
    case Low => true
  }

  /** The items come by falling priority, then by falling risk, then by falling importance, then by product id. */
  lemma ItemsInOrder(items: seq<Item>, i: nat, j: nat)
    requires Sorted(items, MoreUrgent()) && i < j < |items|
    ensures var a, b := items[i], items[j];
      && NoMoreUrgentPriority(b.priority, a.priority)
      && (a.priority == b.priority ==> NoMoreUrgentRisk(b.risk, a.risk))
      && (a.priority == b.priority && a.risk == b.risk ==> a.importance >= b.importance)
      && (a.priority == b.priority && a.risk == b.risk && a.importance == b.importance ==> a.productId <= b.productId)
  {
    assert !MoreUrgent()(items[j], items[i]);
  }

  function NoTag(): Tag -> bool {
    (tag: Tag) => false
  }

  function RevenueOf(metrics: map<int, SkuRow>, productId: int): int {
    if productId in metrics then metrics[productId].revenueCents else 0
  }

  function CoverOf(metrics: map<int, SkuRow>, productId: int): Option<int> {
    if productId in metrics then metrics[productId].daysOfCover else None
  }

  function ItemOf(level: StockLevel, metrics: map<int, SkuRow>, accountRevenue: int): Item {
    var cover := CoverOf(metrics, level.productId);
    var importance := CalcImportance(RevenueOf(metrics, level.productId), accountRevenue, 0).points;
    var (risk, riskTag) := ClassifyDepletionRisk(level.available, cover);
    var (priority, priorityTag) := ClassifyReplenishmentPriority(level.available, cover, importance);
    Item(level.productId, level.available, cover, importance, risk, priority,
         Uniq([riskTag, priorityTag], Itself<Tag>(), NoTag()))
  }

  /** What an item says in the rows it was made of: a product's stock, its cover and share in its metric row, and one
      tag for the risk and one for the priority. */
  lemma ItemReads(level: StockLevel, metrics: map<int, SkuRow>, accountRevenue: int)
    ensures var item, p := ItemOf(level, metrics, accountRevenue), level.productId;
      && item.productId == p && item.available == level.available
      && (p in metrics ==> item.daysOfCover == metrics[p].daysOfCover
                           && item.importance == CalcImportance(metrics[p].revenueCents, accountRevenue, 0).points)
      && (p !in metrics ==> item.daysOfCover == None && item.importance == 0)
      && |item.tags| == 2 && item.tags[0] == ClassifyDepletionRisk(item.available, item.daysOfCover).1
      && item.tags[1] == (match item.priority
                          case High => TagPriorityHigh
                          case Medium => TagPriorityMedium
                          case Low => TagPriorityLow)
  {
    hide CalcImportance;
    var cover := CoverOf(metrics, level.productId);
    var importance := CalcImportance(RevenueOf(metrics, level.productId), accountRevenue, 0).points;
    TwoTags(ClassifyDepletionRisk(level.available, cover).1,
            ClassifyReplenishmentPriority(level.available, cover, importance).1);
    ImportanceIff(0, accountRevenue, 0);
    hide Uniq;
  }

  lemma TwoTags(a: Tag, b: Tag)
    ensures a != b ==> Uniq([a, b], Itself<Tag>(), NoTag()) == [a, b]
  {
    assert [a, b][..1] == [a] && [a][..0] == [];
    assert Itself<Tag>()(a) == a && Itself<Tag>()(b) == b && !NoTag()(a) && !NoTag()(b);
    UniqOfNothing(Itself<Tag>(), NoTag());
    assert Uniq([a], Itself<Tag>(), NoTag()) == [a];
  }

  function ItemsOf(metrics: map<int, SkuRow>, accountRevenue: int): StockLevel -> seq<Item> {
    (level: StockLevel) => [ItemOf(level, metrics, accountRevenue)]
  }

  /** The items in the order of the stock rows. */
  function ItemList(skuRows: seq<SkuRow>, stockRows: seq<StockLevel>): seq<Item> {
    FlatMap(stockRows, ItemsOf(IndexBy(skuRows, SkuProduct()), Sum(skuRows, SkuRevenue())))
  }

  /** Higher priority first, then higher risk, then higher importance, then the smaller product id. */
  function MoreUrgent(): (Item, Item) -> bool {
    (left: Item, right: Item) =>
      if PriorityRank(left.priority) != PriorityRank(right.priority)
      then PriorityRank(left.priority) > PriorityRank(right.priority)
      else if RiskRank(left.risk) != RiskRank(right.risk) then RiskRank(left.risk) > RiskRank(right.risk)
      else if left.importance != right.importance then left.importance > right.importance
      else left.productId < right.productId
  }

  method ListReplenishment(skuRows: seq<SkuRow>, stockRows: seq<StockLevel>) returns (items: seq<Item>)
    ensures multiset(items) == multiset(ItemList(skuRows, stockRows)) && Sorted(items, MoreUrgent())
  {
    var metrics: map<int, SkuRow> := map[];
    var accountRevenue := 0;
    for i := 0 to |skuRows|
      invariant metrics == IndexBy(skuRows[..i], SkuProduct())
      invariant accountRevenue == Sum(skuRows[..i], SkuRevenue())
    {
      assert skuRows[..i + 1][..i] == skuRows[..i];
      metrics := metrics[skuRows[i].productId := skuRows[i]];
      accountRevenue := accountRevenue + skuRows[i].revenueCents;
    }
    assert skuRows[..|skuRows|] == skuRows;
    items := BuildItems(stockRows, metrics, accountRevenue);
    items := SortSlice(items, MoreUrgent());
  }

  method BuildItems(stockRows: seq<StockLevel>, metrics: map<int, SkuRow>, accountRevenue: int)
      returns (items: seq<Item>)
    ensures items == FlatMap(stockRows, ItemsOf(metrics, accountRevenue))
  {
    items := [];
    for i := 0 to |stockRows|
      invariant items == FlatMap(stockRows[..i], ItemsOf(metrics, accountRevenue))
    {
      hide Uniq, ClassifyDepletionRisk, ClassifyReplenishmentPriority, FlatMap;
      FlatMapStep(stockRows, ItemsOf(metrics, accountRevenue), i);
      var level := stockRows[i];
      var cover := CoverOf(metrics, level.productId);
      var importance := CalcImportance(RevenueOf(metrics, level.productId), accountRevenue, 0).points;
      var (risk, riskTag) := ClassifyDepletionRisk(level.available, cover);
      var (priority, priorityTag) := ClassifyReplenishmentPriority(level.available, cover, importance);
      var tags := UniqValues([riskTag, priorityTag], NoTag());
      items := items + [Item(level.productId, level.available, cover, importance, risk, priority, tags)];
    }
    assert stockRows[..|stockRows|] == stockRows;
  }

  // ---------------------------------------------------------------- what a list promises

  function IsHigh(): Item -> bool {
    (item: Item) => item.priority == High
  }

  function IsUrgent(): Item -> bool {
    (item: Item) => item.priority != Low
  }

  function ItemProduct(): Item -> int {
    (item: Item) => item.productId
  }

  function ItemRevenue(metrics: map<int, SkuRow>): Item -> int {
    (item: Item) => RevenueOf(metrics, item.productId)
  }

  function LevelRevenue(metrics: map<int, SkuRow>): StockLevel -> int {
    (level: StockLevel) => RevenueOf(metrics, level.productId)
  }

  /** The documented rule, on revenue shares: high needs a tenth of the account's revenue, medium a twentieth. */
  lemma PriorityIff(level: StockLevel, metrics: map<int, SkuRow>, accountRevenue: int)
    ensures var item, p := ItemOf(level, metrics, accountRevenue), level.productId;
      var revenue := if p in metrics then metrics[p].revenueCents else 0;
      var lasts := (hundredths: int) =>
        p in metrics && metrics[p].daysOfCover.Some? && metrics[p].daysOfCover.value <= hundredths;
      && (item.priority == High <==> (level.available == 0 || lasts(300)) && 0 < accountRevenue <= 10 * revenue)
      && (item.priority != Low <==>
            || ((level.available == 0 || lasts(300)) && 0 < accountRevenue <= 10 * revenue)
            || (lasts(700) && 0 < accountRevenue <= 20 * revenue))
      && (item.priority != Low ==> 0 < accountRevenue <= 20 * revenue)
      && (item.priority == High && level.available >= 0 ==>
          item.risk == CriticalOutOfStock || item.risk == HighDepletion)
  {
    hide Uniq, CalcImportance;
  }

  /** Revenue counted once per distinct product is within the revenue of all rows. */
  lemma {:induction false} RevenueWithin(levels: seq<StockLevel>, rows: seq<SkuRow>)
    requires DistinctValues(levels, StockProduct())
    requires forall row | row in rows :: row.revenueCents >= 0
    ensures Sum(levels, LevelRevenue(IndexBy(rows, SkuProduct()))) <= Sum(rows, SkuRevenue())
  {
    if rows == [] {
      SumOfNothing(levels);
    } else {
      var front, last := rows[..|rows| - 1], rows[|rows| - 1];
      RevenueWithin(levels, front);
      IndexedRevenues(front);
      AddedRow(levels, IndexBy(front, SkuProduct()), last);
    }
  }

  lemma {:induction false} SumOfNothing(levels: seq<StockLevel>)
    ensures Sum(levels, LevelRevenue(map[])) == 0
  {
    if levels == [] {
    } else {
      SumOfNothing(levels[..|levels| - 1]);
    }
  }

  lemma IndexedRevenues(rows: seq<SkuRow>)
    requires forall row | row in rows :: row.revenueCents >= 0
    ensures forall p :: RevenueOf(IndexBy(rows, SkuProduct()), p) >= 0
  {
    forall p
      ensures RevenueOf(IndexBy(rows, SkuProduct()), p) >= 0
    {
      IndexedRow(rows, p);
    }
  }

  lemma {:induction false} IndexedRow(rows: seq<SkuRow>, p: int)
    ensures p in IndexBy(rows, SkuProduct()) ==> IndexBy(rows, SkuProduct())[p] in rows
  {
    if rows == [] {
    } else {
      IndexedRow(rows[..|rows| - 1], p);
    }
  }

  /** Adding one row adds its revenue for at most one of the products. */
  lemma {:induction false} AddedRow(levels: seq<StockLevel>, metrics: map<int, SkuRow>, row: SkuRow)
    requires DistinctValues(levels, StockProduct()) && row.revenueCents >= 0
    requires forall p :: RevenueOf(metrics, p) >= 0
    ensures var added := metrics[row.productId := row];
      && Sum(levels, LevelRevenue(added)) <= Sum(levels, LevelRevenue(metrics)) + row.revenueCents
      && ((forall k | 0 <= k < |levels| :: levels[k].productId != row.productId) ==>
            Sum(levels, LevelRevenue(added)) == Sum(levels, LevelRevenue(metrics)))
  {
    if levels == [] {
    } else {
      var front, last := levels[..|levels| - 1], levels[|levels| - 1];
      AddedRow(front, metrics, row);
      if last.productId == row.productId {
        forall k | 0 <= k < |front|
          ensures front[k].productId != row.productId
        {
          assert StockProduct()(levels[k]) != StockProduct()(levels[|levels| - 1]);
        }
      }
    }
  }

  lemma ListedItem(stockRows: seq<StockLevel>, metrics: map<int, SkuRow>, account: int, item: Item)
    requires item in FlatMap(stockRows, ItemsOf(metrics, account))
    ensures IsUrgent()(item) ==> 0 < account <= 20 * ItemRevenue(metrics)(item)
    ensures IsHigh()(item) ==> 0 < account <= 10 * ItemRevenue(metrics)(item)
  {
    var i := FlatMapFrom(stockRows, ItemsOf(metrics, account), item);
    PriorityIff(stockRows[i], metrics, account);
    hide Uniq, CalcImportance, ClassifyDepletionRisk, ClassifyReplenishmentPriority;
  }

  lemma ItemRevenues(stockRows: seq<StockLevel>, metrics: map<int, SkuRow>, account: int)
    ensures Sum(FlatMap(stockRows, ItemsOf(metrics, account)), ItemRevenue(metrics))
             == Sum(stockRows, LevelRevenue(metrics))
  {
    forall level: StockLevel
      ensures Sum(ItemsOf(metrics, account)(level), ItemRevenue(metrics)) == LevelRevenue(metrics)(level)
    {
      hide Uniq, CalcImportance, ClassifyDepletionRisk, ClassifyReplenishmentPriority;
      var item := ItemOf(level, metrics, account);
      assert [item][..0] == [];
    }
    SumFlatMap(stockRows, ItemsOf(metrics, account), ItemRevenue(metrics), LevelRevenue(metrics));
  }

  /** With distinct stocked products and no negative revenue, a list of any size has at most ten items of
      high priority and at most twenty of high or medium priority. */
  lemma UrgentItemsAreFew(skuRows: seq<SkuRow>, stockRows: seq<StockLevel>, items: seq<Item>)
    requires multiset(items) == multiset(ItemList(skuRows, stockRows))
    requires DistinctValues(stockRows, StockProduct())
    requires forall row | row in skuRows :: row.revenueCents >= 0
    ensures Count(items, IsHigh()) <= 10 && Count(items, IsUrgent()) <= 20
  {
    var metrics, account := IndexBy(skuRows, SkuProduct()), Sum(skuRows, SkuRevenue());
    var list := FlatMap(stockRows, ItemsOf(metrics, account));
    IndexedRevenues(skuRows);
    forall k | 0 <= k < |items|
      ensures ItemRevenue(metrics)(items[k]) >= 0
      ensures IsUrgent()(items[k]) ==> 0 < account <= 20 * ItemRevenue(metrics)(items[k])
      ensures IsHigh()(items[k]) ==> 0 < account <= 10 * ItemRevenue(metrics)(items[k])
    {
      assert items[k] in multiset(list);
      ListedItem(stockRows, metrics, account, items[k]);
    }
    hide IsUrgent, IsHigh, RevenueOf, ItemOf, FlatMap, Count;
    if account > 0 {
      SumPermuted(items, list, ItemRevenue(metrics));
      ItemRevenues(stockRows, metrics, account);
      RevenueWithin(stockRows, skuRows);
      AtMostParts(items, ItemRevenue(metrics), IsHigh(), account, 10);
      AtMostParts(items, ItemRevenue(metrics), IsUrgent(), account, 20);
    } else {
      CountNone(items, IsHigh());
      CountNone(items, IsUrgent());
    }
  }

  /** So the first screen shows them all: high items are among the first ten, medium ones among the first twenty. */
  lemma UrgentItemsComeFirst(skuRows: seq<SkuRow>, stockRows: seq<StockLevel>, items: seq<Item>)
    requires multiset(items) == multiset(ItemList(skuRows, stockRows)) && Sorted(items, MoreUrgent())
    requires DistinctValues(stockRows, StockProduct())
    requires forall row | row in skuRows :: row.revenueCents >= 0
    ensures forall i | 0 <= i < |items| ::
              (items[i].priority == High ==> i < 10) && (items[i].priority != Low ==> i < 20)
  {
    UrgentItemsAreFew(skuRows, stockRows, items);
    forall i | 0 <= i < |items|
      ensures items[i].priority == High ==> i < 10
      ensures items[i].priority != Low ==> i < 20
    {
      forall k | 0 <= k < i
        ensures PriorityRank(items[k].priority) >= PriorityRank(items[i].priority)
      {
        assert !MoreUrgent()(items[i], items[k]);
      }
      if items[i].priority == High {
        CountPrefix(items, IsHigh(), i + 1);
      }
      if items[i].priority != Low {
        CountPrefix(items, IsUrgent(), i + 1);
      }
    }
  }

  /** The list does not depend on the order in which the database returned the rows. */
  lemma ItemsForgetRowOrder(skuRows: seq<SkuRow>, skuRows': seq<SkuRow>, stockRows: seq<StockLevel>,
                            stockRows': seq<StockLevel>,
                            items: seq<Item>, items': seq<Item>)
    requires multiset(skuRows) == multiset(skuRows') && multiset(stockRows) == multiset(stockRows')
    requires DistinctValues(skuRows, SkuProduct()) && DistinctValues(stockRows, StockProduct())
    requires multiset(items) == multiset(ItemList(skuRows, stockRows)) && Sorted(items, MoreUrgent())
    requires multiset(items') == multiset(ItemList(skuRows', stockRows')) && Sorted(items', MoreUrgent())
    ensures items == items'
  {
    hide ItemOf;
    DistinctValuesPermuted(skuRows, skuRows', SkuProduct());
    IndexByPermuted(skuRows, skuRows', SkuProduct());
    SumPermuted(skuRows, skuRows', SkuRevenue());
    var metrics, account := IndexBy(skuRows, SkuProduct()), Sum(skuRows, SkuRevenue());
    FlatMapPermuted(stockRows, stockRows', ItemsOf(metrics, account));
    DistinctItems(stockRows, metrics, account);
    DistinctValuesPermuted(ItemList(skuRows, stockRows), items, ItemProduct());
    DistinctDecides(items);
    SortedUnique(items, items', MoreUrgent());
  }

  lemma DistinctItems(stockRows: seq<StockLevel>, metrics: map<int, SkuRow>, account: int)
    requires DistinctValues(stockRows, StockProduct())
    ensures DistinctValues(FlatMap(stockRows, ItemsOf(metrics, account)), ItemProduct())
  {
    hide Uniq, CalcImportance, ClassifyDepletionRisk, ClassifyReplenishmentPriority;
    var f := ItemsOf(metrics, account);
    FlatMapSingles(stockRows, f);
    forall i, j | 0 <= i < j < |stockRows|
      ensures ItemProduct()(FlatMap(stockRows, f)[i]) != ItemProduct()(FlatMap(stockRows, f)[j])
    {
      assert f(stockRows[i]) == [FlatMap(stockRows, f)[i]] && f(stockRows[j]) == [FlatMap(stockRows, f)[j]];
      assert StockProduct()(stockRows[i]) != StockProduct()(stockRows[j]);
    }
  }

  lemma DistinctDecides(items: seq<Item>)
    requires DistinctValues(items, ItemProduct())
    ensures Decides(items, MoreUrgent())
  {
    forall i, j | 0 <= i < |items| && 0 <= j < |items|
          && !MoreUrgent()(items[i], items[j]) && !MoreUrgent()(items[j], items[i])
      ensures items[i] == items[j]
    {
      SameKeySamePlace(items, ItemProduct(), i, j);
    }
  }
}
