/** Rebuilding the daily SKU metrics of a date range: each row carries the days of cover its stock gives
    at the demand of the seven days that end with it. */
module SkuMetrics {
  import opened Wrappers
  import opened Units
  import opened Batches
  import opened Sums
  import opened Tables
  import opened AccountMetrics

  const RECENT_DEMAND_DAYS := 7

  datatype Sale = Sale(revenueCents: int, orders: int)

  /** A seller's sales by day and product, and its known products. */
  datatype Sources = Sources(sales: map<(int, int), Sale>, products: set<int>)

  datatype StockRow = StockRow(productId: int, available: int)

  datatype SourceRow = SourceRow(day: int, productId: int, sale: Sale)

  /** Days of cover are kept in hundredths. */
  datatype SkuMetric = SkuMetric(revenueCents: int, orders: int, stock: int, daysOfCover: Option<int>)

  /** Rows by seller, day and product. */
  type SkuTable = map<(int, int, int), SkuMetric>

  // ---------------------------------------------------------------- what the source query returns

  const NO_SALE := Sale(0, 0)

  /** Days and products with a source row: every sale in the range, and every known product on the last day. */
  function RowKeys(s: Sources, from: int, until: int): set<(int, int)> {
    (set key | key in s.sales && from <= key.0 <= until) + (set p | p in s.products :: (until, p))
  }

  function RowKeyOf(row: SourceRow): (int, int) {
    (row.day, row.productId)
  }

  lemma RowKeyIff(s: Sources, from: int, until: int, day: int, p: int)
    ensures (day, p) in RowKeys(s, from, until)
         <==> ((day, p) in s.sales && from <= day <= until) || (day == until && p in s.products)
  {
  }

  function SaleAt(s: Sources, key: (int, int)): Sale {
    if key in s.sales then s.sales[key] else NO_SALE
  }

  /** A listing of the source rows of a range, in any order. */
  ghost predicate IsListing(rows: seq<SourceRow>, s: Sources, from: int, until: int) {
    && Values(rows, RowKeyOf) == RowKeys(s, from, until)
    && DistinctValues(rows, RowKeyOf)
    && (forall k | 0 <= k < |rows| :: rows[k].sale == SaleAt(s, RowKeyOf(rows[k])))
  }

  // ---------------------------------------------------------------- days of cover

  function OrdersOn(byDay: map<int, int>, day: int): int {
    if day in byDay then byDay[day] else 0
  }

  /** The demand of the `n` days that end with `day`. */
  function Demand(byDay: map<int, int>, day: int, n: nat): int {
    if n == 0 then 0 else Demand(byDay, day, n - 1) + OrdersOn(byDay, day - (n - 1))
  }

  /** Stock over average daily demand, in hundredths of a day, rounded half up. */
  function Cover(stock: int, demand: int): Option<int> {
    if stock <= 0 || demand <= 0 then None else Some((1400 * stock + demand) / (2 * demand))
  }

  function ProductDays(orders: map<int, map<int, int>>, productId: int): map<int, int> {
    if productId in orders then orders[productId] else map[]
  }

  method CalcDaysOfCover(productId: int, day: int, stock: int, orders: map<int, map<int, int>>)
      returns (cover: Option<int>)
    ensures cover == Cover(stock, Demand(ProductDays(orders, productId), day, RECENT_DEMAND_DAYS))
  {
    if stock <= 0 {
      return None;
    }
    var byDay := ProductDays(orders, productId);
    if byDay == map[] {
      NoDaysNoDemand(day, RECENT_DEMAND_DAYS);
      return None;
    }
    var demandSum := 0;
    for i := 0 to RECENT_DEMAND_DAYS
      invariant demandSum == Demand(byDay, day, i)
    {
      demandSum := demandSum + OrdersOn(byDay, day - i);
    }
    if demandSum <= 0 {
      return None;
    }
    cover := Some((1400 * stock + demandSum) / (2 * demandSum));
  }

  lemma {:induction false} NoDaysNoDemand(day: int, n: nat)
    ensures Demand(map[], day, n) == 0
  {
    if n > 0 {
      NoDaysNoDemand(day, n - 1);
    }
  }

  /** The rounding is to the nearest hundredth, halves up: the exact cover 700*stock/demand lies within
      half a hundredth of the result. */
  lemma CoverIsNearest(stock: int, demand: int)
    requires stock > 0 && demand > 0
    ensures var c := Cover(stock, demand).value;
      2 * demand * c - demand <= 1400 * stock < 2 * demand * c + demand
  {
    var n, d := 1400 * stock + demand, 2 * demand;
    assert n == d * (n / d) + n % d;
  }

  lemma CancelLess(factor: int, x: int, y: int)
    requires factor > 0 && factor * x < factor * y
    ensures x < y
  {
    if x >= y {
      MulLe(factor, y, x);
    }
  }

  /** More demand never lengthens the cover. */
  lemma CoverAntitone(stock: int, low: int, high: int)
    requires stock > 0 && 0 < low <= high
    ensures Cover(stock, high).value <= Cover(stock, low).value
  {
    CoverIsNearest(stock, low);
    CoverIsNearest(stock, high);
    hide Cover;
    var a, b := Cover(stock, low).value, Cover(stock, high).value;
    assert high * (2 * b - 1) == 2 * high * b - high;
    assert low * (2 * b - 1) == 2 * low * b - low && low * (2 * a + 1) == 2 * low * a + low;
    if b >= 1 {
      MulLe(2 * b - 1, low, high);
      CancelLess(low, 2 * b - 1, 2 * a + 1);
    } else {
      CoverNonNegative(stock, low);
    }
  }

  lemma CoverNonNegative(stock: int, demand: int)
    requires stock > 0 && demand > 0
    ensures Cover(stock, demand).value >= 0
  {
  }

  // ---------------------------------------------------------------- what a rebuild writes

  /** A product's orders by day, as far as the range shows them. */
  function VisibleOrders(s: Sources, from: int, until: int, productId: int): map<int, int> {
    map key | key in RowKeys(s, from, until) && key.1 == productId :: key.0 := SaleAt(s, key).orders
  }

  function StockOf(stock: map<int, StockRow>, productId: int): int {
    if productId in stock then stock[productId].available else 0
  }

  function StockProduct(): StockRow -> int {
    (row: StockRow) => row.productId
  }

  /** The metric row of a day and product, as a rebuild of the range computes it. */
  function MetricAt(s: Sources, stock: map<int, StockRow>, from: int, until: int): ((int, int, int)) -> SkuMetric {
    (key: (int, int, int)) =>
      (var sale, available := SaleAt(s, (key.1, key.2)), StockOf(stock, key.2);
       SkuMetric(sale.revenueCents, sale.orders, available, CoverAt(s, stock, from, until, key.1, key.2)))
  }

  /** What a rebuild leaves at a key of its range. */
  function RowAt(s: Sources, stock: map<int, StockRow>, from: int, until: int,
                 key: (int, int, int)): Option<SkuMetric> {
    if (key.1, key.2) in RowKeys(s, from, until) then Some(MetricAt(s, stock, from, until)(key)) else None
  }

  predicate InSkuRange(key: (int, int, int), seller: int, from: int, until: int) {
    key.0 == seller && from <= key.1 <= until
  }

  function DeletedSkus(table: SkuTable, seller: int, from: int, until: int): SkuTable {
    map key | key in table && !InSkuRange(key, seller, from, until) :: table[key]
  }

  /** The rows a rebuild writes: one per source row. */
  function WrittenSkus(s: Sources, stock: map<int, StockRow>, seller: int, from: int, until: int): SkuTable {
    map key | key in RowKeys(s, from, until) ::
      (seller, key.0, key.1) := MetricAt(s, stock, from, until)((seller, key.0, key.1))
  }

  lemma WrittenLookup(s: Sources, stock: map<int, StockRow>, seller: int, from: int, until: int, key: (int, int, int))
    ensures Lookup(WrittenSkus(s, stock, seller, from, until), key)
         == if key.0 == seller then RowAt(s, stock, from, until, key) else None
  {
    hide RowKeys, MetricAt;
    var written := WrittenSkus(s, stock, seller, from, until);
    if key.0 == seller && (key.1, key.2) in RowKeys(s, from, until) {
      assert key == (seller, (key.1, key.2).0, (key.1, key.2).1);
      assert key in written;
    }
  }

  /** The table after a rebuild: in the range, one row per source row; elsewhere, what was there. */
  function RebuiltSkus(table: SkuTable, s: Sources, stock: map<int, StockRow>, seller: int, from: int,
                       until: int): SkuTable {
    DeletedSkus(table, seller, from, until) + WrittenSkus(s, stock, seller, from, until)
  }

  lemma RebuiltSkusLookup(table: SkuTable, s: Sources, stock: map<int, StockRow>, seller: int, from: int, until: int,
                          key: (int, int, int))
    requires from <= until
    ensures Lookup(RebuiltSkus(table, s, stock, seller, from, until), key)
         == if InSkuRange(key, seller, from, until) then RowAt(s, stock, from, until, key) else Lookup(table, key)
  {
    hide RowKeys, MetricAt, WrittenSkus;
    WrittenLookup(s, stock, seller, from, until, key);
    RowKeyIff(s, from, until, key.1, key.2);
  }

  /** What a rebuilt row says, in the sources and the stock rows: the day's sale or none, the product's stock or none,
      and the cover its stock gives at the orders of the days the range shows, absent without stock or orders. */
  lemma RebuiltRowReads(table: SkuTable, s: Sources, stockRows: seq<StockRow>, seller: int, from: int, until: int,
                        day: int, p: int)
    requires from <= day <= until && DistinctValues(stockRows, StockProduct())
    requires (day, p) in s.sales || (day == until && p in s.products)
    ensures var rebuilt := RebuiltSkus(table, s, IndexBy(stockRows, StockProduct()), seller, from, until);
      (seller, day, p) in rebuilt &&
      var row, orders := rebuilt[(seller, day, p)], OrdersBetween(s, p, WindowStart(from, day, 7), day);
      && ((day, p) in s.sales ==>
            row.revenueCents == s.sales[(day, p)].revenueCents && row.orders == s.sales[(day, p)].orders)
      && ((day, p) !in s.sales ==> row.revenueCents == 0 && row.orders == 0)
      && (forall k | 0 <= k < |stockRows| && stockRows[k].productId == p :: row.stock == stockRows[k].available)
      && ((forall k | 0 <= k < |stockRows| :: stockRows[k].productId != p) ==> row.stock == 0)
      && (row.daysOfCover.Some? <==> row.stock > 0 && orders > 0)
      && (row.daysOfCover.Some? ==> var c := row.daysOfCover.value;
            2 * orders * c - orders <= 1400 * row.stock < 2 * orders * c + orders)
  {
    var stock := IndexBy(stockRows, StockProduct());
    RebuiltSkusLookup(table, s, stock, seller, from, until, (seller, day, p));
    RowKeyIff(s, from, until, day, p);
    StockRead(stockRows, p);
    MetricParts(s, stock, from, until, (seller, day, p));
    WindowIsOrders(s, from, until, p, day, RECENT_DEMAND_DAYS);
    var orders := OrdersBetween(s, p, WindowStart(from, day, 7), day);
    if StockOf(stock, p) > 0 && orders > 0 {
      CoverIsNearest(StockOf(stock, p), orders);
    }
    hide RebuiltSkus, RowKeys, MetricAt, Demand, VisibleOrders, OrdersBetween, StockOf, IndexBy;
  }

  lemma StockRead(stockRows: seq<StockRow>, p: int)
    requires DistinctValues(stockRows, StockProduct())
    ensures var available := StockOf(IndexBy(stockRows, StockProduct()), p);
      && (forall k | 0 <= k < |stockRows| && stockRows[k].productId == p :: available == stockRows[k].available)
      && ((forall k | 0 <= k < |stockRows| :: stockRows[k].productId != p) ==> available == 0)
  {
    IndexByRows(stockRows, StockProduct());
    forall k | 0 <= k < |stockRows| && stockRows[k].productId == p
      ensures StockOf(IndexBy(stockRows, StockProduct()), p) == stockRows[k].available
    {
      IndexByDistinct(stockRows, StockProduct(), k);
    }
  }

  // ---------------------------------------------------------------- range rebuild against a wider one

  lemma VisibleOn(s: Sources, from: int, until: int, p: int, day: int)
    ensures OrdersOn(VisibleOrders(s, from, until, p), day)
         == if (from <= day <= until || (day == until && p in s.products)) && (day, p) in s.sales
            then s.sales[(day, p)].orders else 0
  {
    var orders := VisibleOrders(s, from, until, p);
    assert forall key | key in RowKeys(s, from, until) && key.1 == p && key.0 == day :: key == (day, p);
    assert day in orders <==> (day, p) in RowKeys(s, from, until);
  }

  /** The cover a rebuild of the range computes for a day and product. */
  function CoverAt(s: Sources, stock: map<int, StockRow>, from: int, until: int, day: int, p: int): Option<int> {
    Cover(StockOf(stock, p), Demand(VisibleOrders(s, from, until, p), day, RECENT_DEMAND_DAYS))
  }

  ghost predicate NoNegativeOrders(s: Sources) {
    forall k | k in s.sales :: s.sales[k].orders >= 0
  }

  function OrdersAt(s: Sources, p: int, day: int): int {
    if (day, p) in s.sales then s.sales[(day, p)].orders else 0
  }

  /** A product's orders on the days from `low` to `high`. */
  function OrdersBetween(s: Sources, p: int, low: int, high: int): int
    decreases high - low
  {
    if high < low then 0 else OrdersAt(s, p, low) + OrdersBetween(s, p, low + 1, high)
  }

  /** The first day of a cover's window that a range shows. */
  function WindowStart(from: int, day: int, n: nat): int {
    if from > day - n + 1 then from else day - n + 1
  }

  /** What a range shows of a window is the orders of its days since the start of the range. */
  lemma {:induction false} WindowIsOrders(s: Sources, from: int, until: int, p: int, day: int, n: nat)
    requires from <= day <= until
    ensures Demand(VisibleOrders(s, from, until, p), day, n) == OrdersBetween(s, p, WindowStart(from, day, n), day)
  {
    hide VisibleOrders;
    if n == 0 {
    } else {
      WindowIsOrders(s, from, until, p, day, n - 1);
      VisibleOn(s, from, until, p, day - (n - 1));
    }
  }

  lemma {:induction false} OrdersSplit(s: Sources, p: int, low: int, mid: int, high: int)
    requires low <= mid <= high + 1
    ensures OrdersBetween(s, p, low, high) == OrdersBetween(s, p, low, mid - 1) + OrdersBetween(s, p, mid, high)
    decreases mid - low
  {
    if low == mid {
    } else {
      OrdersSplit(s, p, low + 1, mid, high);
    }
  }

  ghost predicate NoOrders(s: Sources, p: int, low: int, high: int) {
    forall d | low <= d <= high && (d, p) in s.sales :: s.sales[(d, p)].orders == 0
  }

  lemma {:induction false} NoOrdersIff(s: Sources, p: int, low: int, high: int)
    requires NoNegativeOrders(s)
    ensures OrdersBetween(s, p, low, high) >= 0
    ensures OrdersBetween(s, p, low, high) == 0 <==> NoOrders(s, p, low, high)
    decreases high - low
  {
    if high < low {
    } else {
      NoOrdersIff(s, p, low + 1, high);
      assert NoOrders(s, p, low, high) <==> OrdersAt(s, p, low) == 0 && NoOrders(s, p, low + 1, high);
    }
  }

  /** What a range that starts at `a` shows of a cover's window, and what of it only one from `from` on shows. */
  function Seen(s: Sources, a: int, day: int, p: int): int {
    OrdersBetween(s, p, WindowStart(a, day, RECENT_DEMAND_DAYS), day)
  }

  function Hidden(s: Sources, from: int, a: int, day: int, p: int): int {
    OrdersBetween(s, p, WindowStart(from, day, RECENT_DEMAND_DAYS), a - 1)
  }

  lemma SeenAndHidden(s: Sources, a: int, b: int, from: int, until: int, day: int, p: int)
    requires from <= a <= day <= b <= until
    ensures Demand(VisibleOrders(s, a, b, p), day, RECENT_DEMAND_DAYS) == Seen(s, a, day, p)
    ensures Demand(VisibleOrders(s, from, until, p), day, RECENT_DEMAND_DAYS)
             == Seen(s, a, day, p) + Hidden(s, from, a, day, p)
    ensures day >= a + 6 ==> Hidden(s, from, a, day, p) == 0
  {
    hide Demand, VisibleOrders;
    WindowIsOrders(s, a, b, p, day, RECENT_DEMAND_DAYS);
    WindowIsOrders(s, from, until, p, day, RECENT_DEMAND_DAYS);
    if a > day - 6 {
      OrdersSplit(s, p, WindowStart(from, day, RECENT_DEMAND_DAYS), a, day);
    }
  }

  /** With no negative order counts, both ranges show the same demand exactly when no hidden day has an order. */
  lemma SameDemandIff(s: Sources, a: int, b: int, from: int, until: int, day: int, p: int)
    requires from <= a <= day <= b <= until && NoNegativeOrders(s)
    ensures Demand(VisibleOrders(s, a, b, p), day, RECENT_DEMAND_DAYS)
             == Demand(VisibleOrders(s, from, until, p), day, RECENT_DEMAND_DAYS)
       <==> forall d | from <= d < a && day - 7 < d && (d, p) in s.sales :: s.sales[(d, p)].orders == 0
  {
    SeenAndHidden(s, a, b, from, until, day, p);
    NoOrdersIff(s, p, WindowStart(from, day, RECENT_DEMAND_DAYS), a - 1);
    hide Demand, VisibleOrders, OrdersBetween, NoNegativeOrders;
  }

  /** Seen from a narrow range, a cover rounds the stock over the demand seen, and from a wide one over the
      hidden demand too. From the seventh day on nothing is hidden. Earlier, with no negative order counts, a
      cover is missing exactly when there is stock, no order is seen and some is hidden, and one that is there
      is never shorter than the true one, which is there too. */
  lemma NarrowCover(s: Sources, stock: map<int, StockRow>, a: int, b: int, from: int, until: int, day: int, p: int)
    requires from <= a <= day <= b <= until
    ensures var narrow, wide := CoverAt(s, stock, a, b, day, p), CoverAt(s, stock, from, until, day, p);
      var seen, hidden := Seen(s, a, day, p), Hidden(s, from, a, day, p);
      && narrow == Cover(StockOf(stock, p), seen) && wide == Cover(StockOf(stock, p), seen + hidden)
      && (day >= a + 6 ==> narrow == wide)
      && (NoNegativeOrders(s) ==>
            && (narrow.None? && wide.Some? <==> StockOf(stock, p) > 0 && seen == 0 && hidden > 0)
            && (narrow.Some? ==> wide.Some? && wide.value <= narrow.value))
  {
    SeenAndHidden(s, a, b, from, until, day, p);
    hide Demand, VisibleOrders, OrdersBetween, Seen, Hidden, StockOf, Cover, NoNegativeOrders;
    if NoNegativeOrders(s) {
      NeitherNegative(s, from, a, day, p);
      CoverOfMore(StockOf(stock, p), Seen(s, a, day, p), Hidden(s, from, a, day, p));
    }
  }

  /** With more demand than is seen, a cover is there if there is stock and any demand, and never longer. */
  lemma CoverOfMore(stock: int, seen: int, hidden: int)
    requires seen >= 0 && hidden >= 0
    ensures var narrow, wide := Cover(stock, seen), Cover(stock, seen + hidden);
      && (narrow.None? && wide.Some? <==> stock > 0 && seen == 0 && hidden > 0)
      && (narrow.Some? ==> wide.Some? && wide.value <= narrow.value)
  {
    if seen > 0 && stock > 0 {
      CoverAntitone(stock, seen, seen + hidden);
    }
  }

  /** The missing covers by their days: some stock, no order on a day seen, and one on a hidden day. */
  lemma MissingCoverIff(s: Sources, stock: map<int, StockRow>, a: int, b: int, from: int, until: int, day: int, p: int)
    requires from <= a <= day <= b <= until && NoNegativeOrders(s)
    ensures CoverAt(s, stock, a, b, day, p).None? && CoverAt(s, stock, from, until, day, p).Some? <==>
      && StockOf(stock, p) > 0
      && (forall d | a <= d <= day && day - 7 < d && (d, p) in s.sales :: s.sales[(d, p)].orders == 0)
      && (exists d | from <= d < a && day - 7 < d :: (d, p) in s.sales && s.sales[(d, p)].orders > 0)
  {
    NarrowCover(s, stock, a, b, from, until, day, p);
    NeitherNegative(s, from, a, day, p);
    hide CoverAt, Seen, Hidden, StockOf;
  }

  lemma NeitherNegative(s: Sources, from: int, a: int, day: int, p: int)
    requires NoNegativeOrders(s)
    ensures Seen(s, a, day, p) >= 0 && Hidden(s, from, a, day, p) >= 0
    ensures Seen(s, a, day, p) == 0 <==> NoOrders(s, p, WindowStart(a, day, RECENT_DEMAND_DAYS), day)
    ensures Hidden(s, from, a, day, p) == 0 <==> NoOrders(s, p, WindowStart(from, day, RECENT_DEMAND_DAYS), a - 1)
  {
    NoOrdersIff(s, p, WindowStart(a, day, RECENT_DEMAND_DAYS), day);
    NoOrdersIff(s, p, WindowStart(from, day, RECENT_DEMAND_DAYS), a - 1);
  }

  lemma MetricParts(s: Sources, stock: map<int, StockRow>, from: int, until: int, key: (int, int, int))
    ensures var metric := MetricAt(s, stock, from, until)(key);
      && metric.daysOfCover == CoverAt(s, stock, from, until, key.1, key.2)
      && metric.stock == StockOf(stock, key.2)
      && metric.revenueCents == SaleAt(s, (key.1, key.2)).revenueCents
      && metric.orders == SaleAt(s, (key.1, key.2)).orders
  {
    hide CoverAt;
  }

  /** A narrow rebuild has a row the wide one lacks: an empty one for a known product on its own last day. */
  predicate IsExtra(s: Sources, b: int, until: int, day: int, p: int) {
    day == b != until && p in s.products && (b, p) !in s.sales
  }

  /** A row of a rebuild of the range from `a` to `b` against that of a wider one from `from` to `until`, from
      the same sales and stock, as stated at NarrowCover. */
  ghost predicate Agrees(narrow: Option<SkuMetric>, wide: Option<SkuMetric>, s: Sources, available: int,
                         a: int, b: int, from: int, until: int, day: int, p: int)
  {
    var seen, hidden := Seen(s, a, day, p), Hidden(s, from, a, day, p);
    && (wide.Some? ==> narrow.Some?)
    && (narrow.Some? && wide.None? <==> IsExtra(s, b, until, day, p))
    && (narrow.Some? && wide.None? ==> narrow.value.orders == 0 && narrow.value.revenueCents == 0)
    && (wide.Some? ==>
          && narrow.value.(daysOfCover := None) == wide.value.(daysOfCover := None)
          && (narrow == wide <==> Cover(available, seen) == Cover(available, seen + hidden))
          && (day >= a + 6 ==> narrow == wide)
          && (NoNegativeOrders(s) ==>
                && (narrow.value.daysOfCover.None? && wide.value.daysOfCover.Some? <==>
                    available > 0 && seen == 0 && hidden > 0)
                && (narrow.value.daysOfCover.Some? ==>
                      wide.value.daysOfCover.Some? && wide.value.daysOfCover.value <= narrow.value.daysOfCover.value)))
  }

  lemma RowsAgree(s: Sources, stock: map<int, StockRow>, a: int, b: int, from: int, until: int, key: (int, int, int))
    requires from <= a <= key.1 <= b <= until
    ensures Agrees(RowAt(s, stock, a, b, key), RowAt(s, stock, from, until, key), s, StockOf(stock, key.2),
                   a, b, from, until, key.1, key.2)
  {
    RowKeyIff(s, a, b, key.1, key.2);
    RowKeyIff(s, from, until, key.1, key.2);
    MetricParts(s, stock, a, b, key);
    MetricParts(s, stock, from, until, key);
    NarrowCover(s, stock, a, b, from, until, key.1, key.2);
    hide CoverAt, MetricAt, RowKeys, NoNegativeOrders, Seen, Hidden, Cover, StockOf;
  }

  lemma RangeRebuildAgrees(narrowTable: SkuTable, wideTable: SkuTable, s: Sources, stock: map<int, StockRow>,
                           seller: int,
                           a: int, b: int, from: int, until: int, key: (int, int, int))
    requires from <= a <= b <= until && InSkuRange(key, seller, a, b)
    ensures Agrees(Lookup(RebuiltSkus(narrowTable, s, stock, seller, a, b), key),
                   Lookup(RebuiltSkus(wideTable, s, stock, seller, from, until), key), s, StockOf(stock, key.2),
                   a, b, from, until, key.1, key.2)
  {
    RebuiltSkusLookup(narrowTable, s, stock, seller, a, b, key);
    RebuiltSkusLookup(wideTable, s, stock, seller, from, until, key);
    RowsAgree(s, stock, a, b, from, until, key);
    hide Agrees, RebuiltSkus, Lookup, RowKeys, MetricAt;
  }

  function Day4Only(): Sources {
    Sources(map[(4, 1) := Sale(700, 7)], {1})
  }

  function Days4And5(): Sources {
    Sources(map[(4, 1) := Sale(700, 7), (5, 1) := Sale(800, 7)], {1})
  }

  function SevenPieces(): map<int, StockRow> {
    map[1 := StockRow(1, 7)]
  }

  /** Seven orders on day 4 and seven pieces in stock: a rebuild of day 5 alone gives no cover, one of days 4
      and 5 gives seven days. */
  lemma MissingCover(table: SkuTable, seller: int)
    ensures Lookup(RebuiltSkus(table, Day4Only(), SevenPieces(), seller, 5, 5), (seller, 5, 1))
             == Some(SkuMetric(0, 0, 7, None))
    ensures Lookup(RebuiltSkus(table, Day4Only(), SevenPieces(), seller, 4, 5), (seller, 5, 1))
             == Some(SkuMetric(0, 0, 7, Some(700)))
  {
    SalesOfFixtures();
    CoversOfSeven();
    hide RebuiltSkus, Lookup, Cover, CoverAt, SaleAt, OrdersAt, StockOf, Day4Only, Days4And5, SevenPieces;
    CoversOfDay5(Day4Only(), SevenPieces(), 1);
    LastDayRow(table, Day4Only(), SevenPieces(), seller, 5, 5, 1);
    LastDayRow(table, Day4Only(), SevenPieces(), seller, 4, 5, 1);
  }

  /** With seven more orders on day 5, day 5 alone gives seven days where days 4 and 5 give three and a half. */
  lemma TooLongCover(table: SkuTable, seller: int)
    ensures Lookup(RebuiltSkus(table, Days4And5(), SevenPieces(), seller, 5, 5), (seller, 5, 1))
             == Some(SkuMetric(800, 7, 7, Some(700)))
    ensures Lookup(RebuiltSkus(table, Days4And5(), SevenPieces(), seller, 4, 5), (seller, 5, 1))
             == Some(SkuMetric(800, 7, 7, Some(350)))
  {
    SalesOfFixtures();
    CoversOfSeven();
    hide RebuiltSkus, Lookup, Cover, CoverAt, SaleAt, OrdersAt, StockOf, Day4Only, Days4And5, SevenPieces;
    CoversOfDay5(Days4And5(), SevenPieces(), 1);
    LastDayRow(table, Days4And5(), SevenPieces(), seller, 5, 5, 1);
    LastDayRow(table, Days4And5(), SevenPieces(), seller, 4, 5, 1);
  }

  lemma SalesOfFixtures()
    ensures 1 in Day4Only().products && SaleAt(Day4Only(), (5, 1)) == NO_SALE
    ensures OrdersAt(Day4Only(), 1, 4) == 7 && OrdersAt(Day4Only(), 1, 5) == 0
    ensures 1 in Days4And5().products && SaleAt(Days4And5(), (5, 1)) == Sale(800, 7)
    ensures OrdersAt(Days4And5(), 1, 4) == 7 && OrdersAt(Days4And5(), 1, 5) == 7
    ensures StockOf(SevenPieces(), 1) == 7
  {
  }

  lemma CoversOfSeven()
    ensures Cover(7, 0) == None && Cover(7, 7) == Some(700) && Cover(7, 14) == Some(350)
  {
  }

  /** A known product's row of the last day of a rebuild. */
  lemma LastDayRow(table: SkuTable, s: Sources, stock: map<int, StockRow>, seller: int, from: int, day: int, p: int)
    requires from <= day && p in s.products
    ensures Lookup(RebuiltSkus(table, s, stock, seller, from, day), (seller, day, p))
         == Some(SkuMetric(SaleAt(s, (day, p)).revenueCents, SaleAt(s, (day, p)).orders, StockOf(stock, p),
                           CoverAt(s, stock, from, day, day, p)))
  {
    RebuiltSkusLookup(table, s, stock, seller, from, day, (seller, day, p));
    RowKeyIff(s, from, day, day, p);
    MetricParts(s, stock, from, day, (seller, day, p));
    hide RebuiltSkus, RowKeys, MetricAt, CoverAt, StockOf, SaleAt;
  }

  lemma CoversOfDay5(s: Sources, stock: map<int, StockRow>, p: int)
    ensures CoverAt(s, stock, 5, 5, 5, p) == Cover(StockOf(stock, p), OrdersAt(s, p, 5))
    ensures CoverAt(s, stock, 4, 5, 5, p) == Cover(StockOf(stock, p), OrdersAt(s, p, 5) + OrdersAt(s, p, 4))
  {
    NarrowCover(s, stock, 5, 5, 4, 5, 5, p);
    TwoDays(s, p);
    hide CoverAt, Cover, Seen, Hidden, OrdersAt, StockOf, NoNegativeOrders;
  }

  lemma TwoDays(s: Sources, p: int)
    ensures Seen(s, 5, 5, p) == OrdersAt(s, p, 5) && Hidden(s, 4, 5, 5, p) == OrdersAt(s, p, 4)
  {
    assert OrdersBetween(s, p, 5, 5) == OrdersAt(s, p, 5) + OrdersBetween(s, p, 6, 5);
    assert OrdersBetween(s, p, 4, 4) == OrdersAt(s, p, 4) + OrdersBetween(s, p, 5, 4);
  }

  // ---------------------------------------------------------------- the rebuild itself

  /** A product's orders by day among the rows read. */
  function DaysOf(rows: seq<SourceRow>, productId: int): map<int, int> {
    if rows == [] then map[]
    else
      var front, last := DaysOf(rows[..|rows| - 1], productId), rows[|rows| - 1];
      if last.productId == productId then front[last.day := last.sale.orders] else front
  }

  method OrdersByProductDay(rows: seq<SourceRow>) returns (orders: map<int, map<int, int>>)
    ensures forall p :: ProductDays(orders, p) == DaysOf(rows, p)
  {
    orders := map[];
    for i := 0 to |rows|
      invariant forall p :: ProductDays(orders, p) == DaysOf(rows[..i], p)
    {
      assert rows[..i + 1][..i] == rows[..i];
      var row := rows[i];
      var byDay := ProductDays(orders, row.productId);
      orders := orders[row.productId := byDay[row.day := row.sale.orders]];
    }
    assert rows[..|rows|] == rows;
  }

  lemma {:induction false} DaysOfLookup(rows: seq<SourceRow>, s: Sources, p: int, day: int)
    requires forall k | 0 <= k < |rows| :: rows[k].sale == SaleAt(s, RowKeyOf(rows[k]))
    ensures Lookup(DaysOf(rows, p), day)
         == if exists k :: 0 <= k < |rows| && rows[k].day == day && rows[k].productId == p
            then Some(SaleAt(s, (day, p)).orders) else None
  {
    if rows == [] {
    } else {
      var front, last := rows[..|rows| - 1], rows[|rows| - 1];
      DaysOfLookup(front, s, p, day);
      if k :| 0 <= k < |rows| && rows[k].day == day && rows[k].productId == p {
        assert k < |front| ==> front[k] == rows[k];
      }
      if k :| 0 <= k < |front| && front[k].day == day && front[k].productId == p {
        assert rows[k] == front[k];
      }
    }
  }

  /** The map filled from a listing holds exactly the orders the range shows. */
  lemma ListingShowsOrders(rows: seq<SourceRow>, s: Sources, from: int, until: int, p: int)
    requires IsListing(rows, s, from, until)
    ensures DaysOf(rows, p) == VisibleOrders(s, from, until, p)
  {
    var visible := VisibleOrders(s, from, until, p);
    forall day
      ensures Lookup(DaysOf(rows, p), day) == Lookup(visible, day)
    {
      DaysOfLookup(rows, s, p, day);
      assert day in visible <==> (day, p) in RowKeys(s, from, until) by {
        assert forall key: (int, int) | key.0 == day && key.1 == p :: key == (day, p);
      }
      assert (day, p) in Values(rows, RowKeyOf)
             <==> exists k :: 0 <= k < |rows| && rows[k].day == day && rows[k].productId == p;
    }
    SameLookups(DaysOf(rows, p), visible);
  }

  function TableKey(seller: int): SourceRow -> (int, int, int) {
    (row: SourceRow) => (seller, row.day, row.productId)
  }

  /** The metric written for a source row. */
  function SourceMetric(s: Sources, stock: map<int, StockRow>, seller: int, from: int,
                        until: int): SourceRow -> SkuMetric {
    (row: SourceRow) => MetricAt(s, stock, from, until)(TableKey(seller)(row))
  }

  /** Deleting the range and upserting a listing of its source rows gives the table aimed at. */
  lemma DeleteThenUpsertSkus(table: SkuTable, rows: seq<SourceRow>, s: Sources, stock: map<int, StockRow>, seller: int,
                             from: int, until: int)
    requires from <= until && IsListing(rows, s, from, until)
    ensures PutRows(DeletedSkus(table, seller, from, until), rows, TableKey(seller),
                    SourceMetric(s, stock, seller, from, until))
         == RebuiltSkus(table, s, stock, seller, from, until)
  {
    var deleted, value := DeletedSkus(table, seller, from, until), SourceMetric(s, stock, seller, from, until);
    var built := PutRows(deleted, rows, TableKey(seller), value);
    forall key
      ensures Lookup(built, key) == Lookup(RebuiltSkus(table, s, stock, seller, from, until), key)
    {
      PutRowsLookup(deleted, rows, TableKey(seller), value, MetricAt(s, stock, from, until), key);
      RebuiltSkusLookup(table, s, stock, seller, from, until, key);
      ListedKeys(rows, s, seller, from, until, key);
      hide RebuiltSkus, MetricAt, RowKeys, IsListing, PutRows, TableKey;
    }
    SameLookups(built, RebuiltSkus(table, s, stock, seller, from, until));
  }

  lemma ListedKeys(rows: seq<SourceRow>, s: Sources, seller: int, from: int, until: int, key: (int, int, int))
    requires from <= until && IsListing(rows, s, from, until)
    ensures (exists k :: 0 <= k < |rows| && TableKey(seller)(rows[k]) == key)
           <==> key.0 == seller && (key.1, key.2) in RowKeys(s, from, until)
    ensures (exists k :: 0 <= k < |rows| && TableKey(seller)(rows[k]) == key) ==> InSkuRange(key, seller, from, until)
  {
    if k :| 0 <= k < |rows| && TableKey(seller)(rows[k]) == key {
      assert key == (seller, rows[k].day, rows[k].productId);
      assert RowKeyOf(rows[k]) in Values(rows, RowKeyOf);
    }
    if key.0 == seller && (key.1, key.2) in RowKeys(s, from, until) {
      assert (key.1, key.2) in Values(rows, RowKeyOf);
      var k :| 0 <= k < |rows| && RowKeyOf(rows[k]) == (key.1, key.2);
      assert TableKey(seller)(rows[k]) == key;
    }
    RowKeyIff(s, from, until, key.1, key.2);
  }

  lemma RowMetric(row: SourceRow, seller: int, s: Sources, stock: map<int, StockRow>, from: int, until: int,
                  available: int, cover: Option<int>)
    requires row.sale == SaleAt(s, RowKeyOf(row)) && available == StockOf(stock, row.productId)
    requires cover
             == Cover(available, Demand(VisibleOrders(s, from, until, row.productId), row.day, RECENT_DEMAND_DAYS))
    ensures MetricAt(s, stock, from, until)((seller, row.day, row.productId))
         == SkuMetric(row.sale.revenueCents, row.sale.orders, available, cover)
  {
    hide SaleAt, Cover, Demand, VisibleOrders;
    MetricParts(s, stock, from, until, (seller, row.day, row.productId));
  }

  /** The database: fixed sources and stock, the metrics table, and an oracle for the outcome of every call. */
  class SkuDatabase {
    const sellers: set<int>
    const sources: int -> Sources
    const stockRows: int -> seq<StockRow>
    const succeeds: nat -> bool
    var calls: nat
    var table: SkuTable

    ghost predicate AllSucceed(a: nat, b: nat) {
      forall n | a <= n < b :: succeeds(n)
    }

    method Call() returns (ok: bool)
      modifies this`calls
      ensures calls == old(calls) + 1 && ok == succeeds(old(calls))
    {
      ok := succeeds(calls);
      calls := calls + 1;
    }

    method ListSources(seller: int, from: int, until: int) returns (ok: bool, rows: seq<SourceRow>)
      modifies this`calls
      ensures calls == old(calls) + 1 && ok == succeeds(old(calls))
      ensures ok ==> IsListing(rows, sources(seller), from, until)
    {
      ok := Call();
      rows := ListRows(sources(seller), from, until);
    }

    /** The upsert loop, on the transaction's working copy of the table. */
    method UpsertRows(seller: int, start: SkuTable, rows: seq<SourceRow>, stock: map<int, StockRow>,
                      orders: map<int, map<int, int>>,
                      ghost s: Sources, ghost from: int, ghost until: int)
      returns (ok: bool, work: SkuTable)
      requires forall k | 0 <= k < |rows| :: rows[k].sale == SaleAt(s, RowKeyOf(rows[k]))
      requires forall p :: ProductDays(orders, p) == VisibleOrders(s, from, until, p)
      modifies this`calls
      ensures old(calls) <= calls && (ok <==> AllSucceed(old(calls), calls))
      ensures ok ==> work == PutRows(start, rows, TableKey(seller), SourceMetric(s, stock, seller, from, until))
    {
      hide RowKeys, CoverAt, MetricAt, SaleAt, PutRows, VisibleOrders, ProductDays, Demand, Cover, StockOf, RowKeyOf;
      work := start;
      ghost var value := SourceMetric(s, stock, seller, from, until);
      assert rows[..0] == [];
      PutNoRows(start, TableKey(seller), value);
      for i := 0 to |rows|
        invariant work == PutRows(start, rows[..i], TableKey(seller), value)
        invariant old(calls) <= calls && AllSucceed(old(calls), calls)
      {
        PutRowsStep(start, rows, TableKey(seller), value, i);
        var row := rows[i];
        var available := StockOf(stock, row.productId);
        var cover := CalcDaysOfCover(row.productId, row.day, available, orders);
        RowMetric(rows[i], seller, s, stock, from, until, available, cover);
        ok := Call();
        if !ok {
          return;
        }
        work :=
          work[(seller, row.day, row.productId) := SkuMetric(row.sale.revenueCents, row.sale.orders, available, cover)];
      }
      assert rows[..|rows|] == rows;
      ok := true;
    }

    /** The writes of one rebuild, on a working copy: delete the range, then upsert a metric per source row. */
    method WriteRows(seller: int, from: int, until: int, rows: seq<SourceRow>) returns (ok: bool, work: SkuTable)
      requires from <= until && IsListing(rows, sources(seller), from, until)
      modifies this`calls
      ensures old(calls) <= calls && (ok <==> AllSucceed(old(calls), calls))
      ensures ok ==>
        work == RebuiltSkus(table, sources(seller), IndexBy(stockRows(seller), StockProduct()), seller, from, until)
    {
      hide RebuiltSkus, DeletedSkus, RowKeys, MetricAt, SourceMetric, PutRows, VisibleOrders, DaysOf, ProductDays;
      hide IndexBy, StockProduct;
      var stock := IndexRows(stockRows(seller), StockProduct());
      var orders := OrdersByProductDay(rows);
      ghost var s := sources(seller);
      forall p
        ensures ProductDays(orders, p) == VisibleOrders(s, from, until, p)
      {
        ListingShowsOrders(rows, s, from, until, p);
      }
      work := table;
      ok := Call();
      if !ok {
        return;
      }
      work := DeletedSkus(table, seller, from, until);
      DeleteThenUpsertSkus(table, rows, s, stock, seller, from, until);
      ok, work := UpsertRows(seller, work, rows, stock, orders, s, from, until);
    }

    /** The rebuild, all or nothing: when every call works, the table becomes the one aimed at; on any
        failure it stays as it was. */
    method RebuildForDateRange(seller: int, dateFrom: int, dateTo: int) returns (r: Result<nat, RebuildError>)
      modifies this
      ensures var from, until := DayOf(dateFrom), DayOf(dateTo);
        && (until < from ==> r == Err(InvalidRange) && calls == old(calls))
        && (r.Ok? <==> from <= until && seller in sellers && AllSucceed(old(calls), calls))
        && (r.Ok? ==> r.value == |RowKeys(sources(seller), from, until)|)
        && (r.Ok? ==>
              table == RebuiltSkus(old(table), sources(seller), IndexBy(stockRows(seller), StockProduct()), seller,
                                   from, until))
        && (r.Err? ==> table == old(table))
    {
      hide RebuiltSkus, RowKeys, DayOf, IsListing, IndexBy, StockProduct;
      var from, until := DayOf(dateFrom), DayOf(dateTo);
      if until < from {
        return Err(InvalidRange);
      }
      var ok := Call();
      if !ok { return Err(DatabaseError); }
      ok := Call();
      if !ok || seller !in sellers { return Err(DatabaseError); }
      var rows;
      ok, rows := ListSources(seller, from, until);
      if !ok { return Err(DatabaseError); }
      ok := Call();
      if !ok { return Err(DatabaseError); }
      var work;
      ok, work := WriteRows(seller, from, until, rows);
      if !ok { return Err(DatabaseError); }
      ok := Call();
      if !ok { return Err(DatabaseError); }
      ListingSize(rows, sources(seller), from, until);
      table := work;
      r := Ok(|rows|);
    }
  }

  /** The source rows of a range, in some order. */
  method ListRows(s: Sources, from: int, until: int) returns (rows: seq<SourceRow>)
    ensures IsListing(rows, s, from, until)
  {
    hide RowKeys, SaleAt, Values, DistinctValues;
    NoValues(RowKeyOf);
    var all := RowKeys(s, from, until);
    var left := all;
    rows := [];
    while left != {}
      invariant left <= all && Values(rows, RowKeyOf) == all - left && DistinctValues(rows, RowKeyOf)
      invariant forall k | 0 <= k < |rows| :: rows[k].sale == SaleAt(s, RowKeyOf(rows[k]))
      decreases |left|
    {
      var key :| key in left;
      var row := SourceRow(key.0, key.1, SaleAt(s, key));
      ValuesPush(rows, RowKeyOf, row);
      DistinctPush(rows, RowKeyOf, row);
      rows := rows + [row];
      left := left - {key};
    }
  }

  lemma ListingSize(rows: seq<SourceRow>, s: Sources, from: int, until: int)
    requires IsListing(rows, s, from, until)
    ensures |rows| == |RowKeys(s, from, until)|
  {
    DistinctByCount(rows, RowKeyOf);
  }
}
