/** The critical SKU list: importance by share of the account's revenue, risk and decline scores, and the
    list sorted by problem score. Money is in cents; importance, risk and scores are in hundredths. */
module CriticalSkus {
  import opened Wrappers
  import opened Units
  import opened Batches
  import opened Sorting
  import opened Sums
  import opened Uniques

  /** A daily metric row. */
  datatype SkuRow = SkuRow(day: int, productId: int, revenueCents: int, orders: int, stock: int,
                           daysOfCover: Option<int>)

  datatype StockLevel = StockLevel(productId: int, available: int)

  datatype Signal =
    | SalesDropStrong | SalesDropModerate | SalesDropMild
    | SalesOpsDropStrong | SalesOpsDropModerate
    | OutOfStock | LowStock | CoverCritical | CoverLow
    | HighShare | MediumShare

  datatype Badge = OutOfStockBadge | LowStockBadge | HighImportance | RevenueDown | SalesOpsDown

  datatype Scored = Scored(points: int, signals: seq<Signal>)

  datatype Card = Card(productId: int, revenueCents: int, salesOps: int, revenueDelta: int, ordersDelta: int,
                       stock: int, daysOfCover: Option<int>, importance: int, outOfStockRisk: int, problemScore: int,
                       signals: seq<Signal>, badges: seq<Badge>)

  // ---------------------------------------------------------------- scores

  function CalcImportance(revenue: int, accountRevenue: int, contributionDelta: int): (r: Scored)
    ensures HighShare in r.signals <==> 0 < accountRevenue <= 5 * revenue
    ensures contributionDelta <= 0 ==> (r.points >= 50 <==> 0 < accountRevenue <= 10 * revenue)
    ensures contributionDelta <= 0 ==> (r.points >= 30 <==> 0 < accountRevenue <= 20 * revenue)
    ensures 0 <= r.points <= 100
  {
    var share := (parts: int) => 0 < accountRevenue <= parts * revenue;
    var base :=
      if share(5) then Scored(100, [HighShare])
      else if share(10) then Scored(70, [MediumShare])
      else if share(20) then Scored(40, [])
      else Scored(0, []);
    var raised := base.points + if contributionDelta > 0 then 20 else 0;
    Scored(if raised > 100 then 100 else raised, base.signals)
  }

  function CalcOutOfStockRisk(stock: int, daysOfCover: Option<int>): Scored {
    if stock <= 0 then Scored(100, [OutOfStock])
    else if stock <= 3 then Scored(60, [LowStock])
    else if daysOfCover.None? then Scored(0, [])
    else if daysOfCover.value <= 100 then Scored(80, [CoverCritical])
    else if daysOfCover.value <= 300 then Scored(40, [CoverLow])
    else Scored(0, [])
  }

  function CalcSalesDecline(revenueDelta: int, currentRevenue: int): Scored {
    if revenueDelta >= 0 then Scored(0, [])
    else
      var drop := -revenueDelta;
      if (currentRevenue > 0 && 2 * drop >= currentRevenue) || drop >= 300000 then Scored(300, [SalesDropStrong])
      else if (currentRevenue > 0 && 4 * drop >= currentRevenue) || drop >= 120000 then Scored(200, [SalesDropModerate])
      else Scored(100, [SalesDropMild])
  }

  function CalcOrdersDecline(ordersDelta: int): Scored {
    if ordersDelta >= 0 then Scored(0, [])
    else if ordersDelta <= -3 then Scored(200, [SalesOpsDropStrong])
    else Scored(100, [SalesOpsDropModerate])
  }

  /** More stock at the same cover lowers the risk or keeps it, except from the last three pieces to a larger
      stock that lasts a day at most: the thresholds on pieces hide the one on days. */
  lemma RiskFallsWithStock(less: int, more: int, daysOfCover: Option<int>)
    requires less <= more
    ensures CalcOutOfStockRisk(less, daysOfCover).points >= CalcOutOfStockRisk(more, daysOfCover).points
       <==> !(1 <= less <= 3 < more && daysOfCover.Some? && daysOfCover.value <= 100)
  {
  }

  /** A fourth piece can raise the risk: one of a day's cover scores more than one piece does. */
  lemma FourthPieceRaisesRisk()
    ensures CalcOutOfStockRisk(1, Some(100)).points == 60 && CalcOutOfStockRisk(4, Some(100)).points == 80
  {
  }

  /** A deeper fall from the same revenue never scores less, and only a fall scores. */
  lemma DeclineGrows(deeper: int, delta: int, currentRevenue: int)
    requires deeper <= delta
    ensures CalcSalesDecline(deeper, currentRevenue).points >= CalcSalesDecline(delta, currentRevenue).points
    ensures CalcSalesDecline(delta, currentRevenue).points > 0 <==> delta < 0
    ensures CalcOrdersDecline(deeper).points >= CalcOrdersDecline(delta).points
    ensures CalcOrdersDecline(delta).points > 0 <==> delta < 0
  {
  }

  function BuildBadges(outRisk: int, importance: int, revenueDelta: int, ordersDelta: int): seq<Badge> {
    (if outRisk >= 100 then [OutOfStockBadge] else if outRisk >= 60 then [LowStockBadge] else [])
    + (if importance >= 70 then [HighImportance] else [])
    + (if revenueDelta < 0 then [RevenueDown] else [])
    + if ordersDelta < 0 then [SalesOpsDown] else []
  }

  /** The share of importance: a fifth, a tenth or a twentieth of a positive account revenue, and a fifth more when
      revenue rose, up to one. */
  lemma ImportanceIff(revenue: int, accountRevenue: int, contributionDelta: int)
    ensures var points, rise := CalcImportance(revenue, accountRevenue, contributionDelta).points,
                                if contributionDelta > 0 then 20 else 0;
      && (0 < accountRevenue <= 5 * revenue ==> points == 100)
      && (5 * revenue < accountRevenue <= 10 * revenue ==> points == 70 + rise)
      && (10 * revenue < accountRevenue <= 20 * revenue ==> points == 40 + rise)
      && (accountRevenue <= 0 || 20 * revenue < accountRevenue ==> points == rise)
  {
  }

  /** The out-of-stock risk: pieces first, then days. */
  lemma OutOfStockRiskIff(stock: int, daysOfCover: Option<int>)
    ensures var points := CalcOutOfStockRisk(stock, daysOfCover).points;
      && (points == 100 <==> stock <= 0)
      && (points == 60 <==> 1 <= stock <= 3)
      && (points == 80 <==> stock > 3 && daysOfCover.Some? && daysOfCover.value <= 100)
      && (points == 40 <==> stock > 3 && daysOfCover.Some? && 100 < daysOfCover.value <= 300)
      && (points == 0 <==> stock > 3 && (daysOfCover.None? || 300 < daysOfCover.value))
  {
  }

  /** What a fall scores: three from half of today's revenue or three thousand, two from a quarter or twelve hundred. */
  lemma DeclineIff(revenueDelta: int, revenue: int, ordersDelta: int)
    ensures var sales, orders, lost := CalcSalesDecline(revenueDelta, revenue).points,
                                       CalcOrdersDecline(ordersDelta).points, -revenueDelta;
      && (sales == 0 <==> lost <= 0)
      && (sales == 300 <==> lost >= 300000 || 0 < revenue <= 2 * lost)
      && (sales == 200 <==> lost < 300000 && (lost >= 120000 || 0 < revenue <= 4 * lost) && !(0 < revenue <= 2 * lost))
      && (sales == 100 <==> 0 < lost < 120000 && !(0 < revenue <= 4 * lost))
      && (orders == 0 <==> ordersDelta >= 0) && (orders == 200 <==> ordersDelta <= -3)
      && (orders == 100 <==> ordersDelta == -1 || ordersDelta == -2)
  {
  }

  // ---------------------------------------------------------------- repeated tags

  method UniqValues<T(==)>(values: seq<T>, empty: T -> bool) returns (out: seq<T>)
    ensures out == Uniq(values, Itself<T>(), empty)
  {
    var seen: set<T> := {};
    out := [];
    for i := 0 to |values|
      invariant out == Uniq(values[..i], Itself<T>(), empty)
      invariant forall v :: v in seen <==> v in out
    {
      assert values[..i + 1][..i] == values[..i];
      var v := values[i];
      if !empty(v) && v !in seen {
        seen := seen + {v};
        out := out + [v];
      }
    }
    assert values[..|values|] == values;
  }

  // ---------------------------------------------------------------- the cards

  function SkuProduct(): SkuRow -> int {
    (row: SkuRow) => row.productId
  }

  function SkuRevenue(): SkuRow -> int {
    (row: SkuRow) => row.revenueCents
  }

  function StockProduct(): StockLevel -> int {
    (level: StockLevel) => level.productId
  }

  function OnDay(day: int): SkuRow -> seq<SkuRow> {
    (row: SkuRow) => if row.day == day then [row] else []
  }

  function NoSignal(): Signal -> bool {
    (signal: Signal) => false
  }

  function NoBadge(): Badge -> bool {
    (badge: Badge) => false
  }

  /** A product's stock: the current level if it has one, otherwise the metric row's. Product id 0 has none. */
  function StockNow(today: SkuRow, stock: map<int, StockLevel>): int {
    if today.productId in stock && today.productId != 0 then stock[today.productId].available else today.stock
  }

  function RevenueBefore(productId: int, yesterday: map<int, SkuRow>): int {
    if productId in yesterday then yesterday[productId].revenueCents else 0
  }

  function OrdersBefore(productId: int, yesterday: map<int, SkuRow>): int {
    if productId in yesterday then yesterday[productId].orders else 0
  }

  function CardOf(today: SkuRow, yesterday: map<int, SkuRow>, stock: map<int, StockLevel>, accountRevenue: int): Card {
    var revenueDelta := today.revenueCents - RevenueBefore(today.productId, yesterday);
    var ordersDelta := Int32(today.orders - OrdersBefore(today.productId, yesterday));
    var available := StockNow(today, stock);
    var importance := CalcImportance(today.revenueCents, accountRevenue, revenueDelta);
    var risk := CalcOutOfStockRisk(available, today.daysOfCover);
    var sales := CalcSalesDecline(revenueDelta, today.revenueCents);
    var orders := CalcOrdersDecline(ordersDelta);
    Card(today.productId, today.revenueCents, today.orders, revenueDelta, ordersDelta, available, today.daysOfCover,
         importance.points, risk.points, sales.points + orders.points + 5 * risk.points + 3 * importance.points,
         Uniq(sales.signals + orders.signals + risk.signals + importance.signals, Itself<Signal>(), NoSignal()),
         Uniq(BuildBadges(risk.points, importance.points, revenueDelta, ordersDelta), Itself<Badge>(), NoBadge()))
  }

  function CardsOf(yesterday: map<int, SkuRow>, stock: map<int, StockLevel>, accountRevenue: int): SkuRow -> seq<Card> {
    (today: SkuRow) => [CardOf(today, yesterday, stock, accountRevenue)]
  }

  /** The cards in the order of today's rows. */
  function CardList(rows: seq<SkuRow>, stockRows: seq<StockLevel>, asOf: int): seq<Card> {
    var today := FlatMap(rows, OnDay(asOf));
    FlatMap(today, CardsOf(IndexBy(FlatMap(rows, OnDay(asOf - 1)), SkuProduct()), IndexBy(stockRows, StockProduct()),
                           Sum(today, SkuRevenue())))
  }

  /** Higher problem score first, then the smaller product id. */
  function MoreCritical(): (Card, Card) -> bool {
    (left: Card, right: Card) =>
      if left.problemScore == right.problemScore then left.productId < right.productId
      else left.problemScore > right.problemScore
  }

  function HasHighShare(): Card -> bool {
    (card: Card) => HighShare in card.signals
  }

  /** A card carries the high-share signal exactly when its revenue is a fifth of a positive account revenue or more. */
  lemma HighShareIff(today: SkuRow, yesterday: map<int, SkuRow>, stock: map<int, StockLevel>, accountRevenue: int)
    ensures HasHighShare()(CardOf(today, yesterday, stock, accountRevenue))
           <==> 0 < accountRevenue <= 5 * today.revenueCents
  {
    hide Uniq, CalcImportance;
    var revenueDelta := today.revenueCents - RevenueBefore(today.productId, yesterday);
    var ordersDelta := Int32(today.orders - OrdersBefore(today.productId, yesterday));
    var others := CalcSalesDecline(revenueDelta, today.revenueCents).signals + CalcOrdersDecline(ordersDelta).signals
               + CalcOutOfStockRisk(StockNow(today, stock), today.daysOfCover).signals;
    assert HighShare !in others;
    var importance := CalcImportance(today.revenueCents, accountRevenue, revenueDelta).signals;
    UniqMembers(others + importance, Itself<Signal>(), NoSignal());
    ShowsItself(others + importance);
  }

  /** What a card says in the rows it was made of: the risk weighs five and the importance three in the score. */
  lemma CardReads(today: SkuRow, yesterday: map<int, SkuRow>, stock: map<int, StockLevel>, accountRevenue: int)
    ensures var card, p := CardOf(today, yesterday, stock, accountRevenue), today.productId;
      && card.productId == p && card.revenueCents == today.revenueCents && card.salesOps == today.orders
      && card.daysOfCover == today.daysOfCover
      && (p in yesterday ==> card.revenueDelta + yesterday[p].revenueCents == today.revenueCents
                             && card.ordersDelta == Int32(today.orders - yesterday[p].orders))
      && (p !in yesterday ==> card.revenueDelta == today.revenueCents && card.ordersDelta == Int32(today.orders))
      && card.stock == (if p != 0 && p in stock then stock[p].available else today.stock)
      && card.importance == CalcImportance(today.revenueCents, accountRevenue, card.revenueDelta).points
      && card.outOfStockRisk == CalcOutOfStockRisk(card.stock, card.daysOfCover).points
      && card.problemScore - 5 * card.outOfStockRisk - 3 * card.importance
         == CalcSalesDecline(card.revenueDelta, card.revenueCents).points + CalcOrdersDecline(card.ordersDelta).points
  {
    hide Uniq, Int32, CalcSalesDecline, CalcOrdersDecline, CalcOutOfStockRisk, CalcImportance, BuildBadges;
  }

  lemma DeclineSignals(revenueDelta: int, revenue: int, ordersDelta: int)
    ensures var sales, orders := CalcSalesDecline(revenueDelta, revenue), CalcOrdersDecline(ordersDelta);
      && (forall s :: s in sales.signals <==>
            || (s == SalesDropStrong && sales.points == 300) || (s == SalesDropModerate && sales.points == 200)
            || (s == SalesDropMild && sales.points == 100))
      && (forall s :: s in orders.signals <==>
            || (s == SalesOpsDropStrong && orders.points == 200) || (s == SalesOpsDropModerate && orders.points == 100))
  {
  }

  lemma LevelSignals(stock: int, daysOfCover: Option<int>, revenue: int, account: int, revenueDelta: int)
    ensures var risk := CalcOutOfStockRisk(stock, daysOfCover);
      var importance := CalcImportance(revenue, account, revenueDelta);
      && (forall s :: s in risk.signals <==>
            || (s == OutOfStock && risk.points == 100) || (s == LowStock && risk.points == 60)
            || (s == CoverCritical && risk.points == 80) || (s == CoverLow && risk.points == 40))
      && (forall s :: s in importance.signals <==>
            || (s == HighShare && 0 < account <= 5 * revenue)
            || (s == MediumShare && 5 * revenue < account <= 10 * revenue))
  {
  }

  /** Which signals the figures raise. */
  lemma SignalsRaised(revenueDelta: int, revenue: int, ordersDelta: int, stock: int, daysOfCover: Option<int>,
                      account: int)
    ensures var signals := SignalsOf(revenueDelta, revenue, ordersDelta, stock, daysOfCover, account);
      var sales, orders := CalcSalesDecline(revenueDelta, revenue).points, CalcOrdersDecline(ordersDelta).points;
      var risk := CalcOutOfStockRisk(stock, daysOfCover).points;
      && (SalesDropStrong in signals <==> sales == 300) && (SalesDropModerate in signals <==> sales == 200)
      && (SalesDropMild in signals <==> sales == 100)
      && (SalesOpsDropStrong in signals <==> orders == 200) && (SalesOpsDropModerate in signals <==> orders == 100)
      && (OutOfStock in signals <==> risk == 100) && (LowStock in signals <==> risk == 60)
      && (CoverCritical in signals <==> risk == 80) && (CoverLow in signals <==> risk == 40)
      && (MediumShare in signals <==> 5 * revenue < account <= 10 * revenue)
  {
    hide CalcSalesDecline, CalcOrdersDecline, CalcOutOfStockRisk, CalcImportance;
    DeclineSignals(revenueDelta, revenue, ordersDelta);
    LevelSignals(stock, daysOfCover, revenue, account, revenueDelta);
  }

  function SignalsOf(revenueDelta: int, revenue: int, ordersDelta: int, stock: int, daysOfCover: Option<int>,
                     account: int): seq<Signal>
  {
    CalcSalesDecline(revenueDelta, revenue).signals + CalcOrdersDecline(ordersDelta).signals
    + CalcOutOfStockRisk(stock, daysOfCover).signals + CalcImportance(revenue, account, revenueDelta).signals
  }

  /** A card carries just those its own figures raise. */
  lemma CardSignals(today: SkuRow, yesterday: map<int, SkuRow>, stock: map<int, StockLevel>, accountRevenue: int)
    ensures var card := CardOf(today, yesterday, stock, accountRevenue);
      forall signal :: signal in card.signals <==>
        signal in SignalsOf(card.revenueDelta, card.revenueCents, card.ordersDelta, card.stock, card.daysOfCover,
                            accountRevenue)
  {
    hide Uniq, Int32, CalcSalesDecline, CalcOrdersDecline, CalcOutOfStockRisk, CalcImportance, BuildBadges;
    var card := CardOf(today, yesterday, stock, accountRevenue);
    var signals := SignalsOf(card.revenueDelta, card.revenueCents, card.ordersDelta, card.stock, card.daysOfCover,
                             accountRevenue);
    UniqMembers(signals, Itself<Signal>(), NoSignal());
    ShowsItself(signals);
    hide RevenueBefore, OrdersBefore, StockNow;
  }

  /** The cards come by falling score, and by product id among equals. */
  lemma CardsInOrder(cards: seq<Card>, i: nat, j: nat)
    requires Sorted(cards, MoreCritical()) && i < j < |cards|
    ensures cards[i].problemScore >= cards[j].problemScore
    ensures cards[i].problemScore == cards[j].problemScore ==> cards[i].productId <= cards[j].productId
  {
    assert !MoreCritical()(cards[j], cards[i]);
  }

  lemma UnscoredShowsNothing(stock: int, daysOfCover: Option<int>, revenue: int, account: int, revenueDelta: int,
                             ordersDelta: int)
    ensures var sales, orders := CalcSalesDecline(revenueDelta, revenue), CalcOrdersDecline(ordersDelta);
      var risk, importance := CalcOutOfStockRisk(stock, daysOfCover), CalcImportance(revenue, account, revenueDelta);
      && 0 <= sales.points <= 300 && 0 <= orders.points <= 200 && 0 <= risk.points <= 100
      && (sales.points > 0 <==> revenueDelta < 0) && (orders.points > 0 <==> ordersDelta < 0)
      && (sales.points == orders.points == risk.points == importance.points == 0 ==>
          && sales.signals + orders.signals + risk.signals + importance.signals == []
          && BuildBadges(risk.points, importance.points, revenueDelta, ordersDelta) == [])
  {
  }

  /** A score is at most 13, above 8 only when revenue or orders fell, and zero only for a card with nothing to show. */
  lemma ScoreBounds(today: SkuRow, yesterday: map<int, SkuRow>, stock: map<int, StockLevel>, accountRevenue: int)
    ensures var card := CardOf(today, yesterday, stock, accountRevenue);
      && 0 <= card.problemScore <= 1300
      && (card.problemScore > 800 ==> card.revenueDelta < 0 || card.ordersDelta < 0)
      && (card.problemScore == 0 ==> card.signals == [] && card.badges == [])
  {
    hide Int32, Uniq, StockNow, RevenueBefore, OrdersBefore;
    hide CalcSalesDecline, CalcOrdersDecline, CalcOutOfStockRisk, CalcImportance, BuildBadges;
    UniqOfNothing(Itself<Signal>(), NoSignal());
    UniqOfNothing(Itself<Badge>(), NoBadge());
    var revenueDelta := today.revenueCents - RevenueBefore(today.productId, yesterday);
    var ordersDelta := Int32(today.orders - OrdersBefore(today.productId, yesterday));
    UnscoredShowsNothing(StockNow(today, stock), today.daysOfCover, today.revenueCents, accountRevenue, revenueDelta,
                         ordersDelta);
  }

  /** What a card's badges say of the card; a larger stock that lasts a day at most counts as low. */
  ghost predicate WellTagged(card: Card) {
    && NoRepeats(card.signals) && NoRepeats(card.badges)
    && (OutOfStockBadge in card.badges <==> card.stock <= 0)
    && (LowStockBadge in card.badges <==>
          0 < card.stock && (card.stock <= 3 || (card.daysOfCover.Some? && card.daysOfCover.value <= 100)))
    && (HighImportance in card.badges <==> card.importance >= 70)
    && (RevenueDown in card.badges <==> card.revenueDelta < 0)
    && (SalesOpsDown in card.badges <==> card.ordersDelta < 0)
  }

  lemma BadgesIff(outRisk: int, importance: int, revenueDelta: int, ordersDelta: int)
    ensures var badges := BuildBadges(outRisk, importance, revenueDelta, ordersDelta);
      && (OutOfStockBadge in badges <==> outRisk >= 100)
      && (LowStockBadge in badges <==> 60 <= outRisk < 100)
      && (HighImportance in badges <==> importance >= 70)
      && (RevenueDown in badges <==> revenueDelta < 0)
      && (SalesOpsDown in badges <==> ordersDelta < 0)
  {
  }

  lemma CardsAreWellTagged(today: SkuRow, yesterday: map<int, SkuRow>, stock: map<int, StockLevel>, accountRevenue: int)
    ensures WellTagged(CardOf(today, yesterday, stock, accountRevenue))
  {
    hide Uniq, CalcImportance, CalcSalesDecline, CalcOrdersDecline, BuildBadges, NoRepeats, Int32;
    var revenueDelta := today.revenueCents - RevenueBefore(today.productId, yesterday);
    var ordersDelta := Int32(today.orders - OrdersBefore(today.productId, yesterday));
    var importance := CalcImportance(today.revenueCents, accountRevenue, revenueDelta);
    var risk := CalcOutOfStockRisk(StockNow(today, stock), today.daysOfCover);
    var sales, orders := CalcSalesDecline(revenueDelta, today.revenueCents), CalcOrdersDecline(ordersDelta);
    var badges := BuildBadges(risk.points, importance.points, revenueDelta, ordersDelta);
    UniqMembers(sales.signals + orders.signals + risk.signals + importance.signals, Itself<Signal>(), NoSignal());
    UniqMembers(badges, Itself<Badge>(), NoBadge());
    ShowsItself(badges);
    BadgesIff(risk.points, importance.points, revenueDelta, ordersDelta);
  }

  method BuildCard(today: SkuRow, yesterday: map<int, SkuRow>, stock: map<int, StockLevel>, accountRevenue: int)
      returns (card: Card)
    ensures card == CardOf(today, yesterday, stock, accountRevenue)
    ensures HighShare in card.signals <==> 0 < accountRevenue <= 5 * card.revenueCents
    ensures WellTagged(card) && 0 <= card.problemScore <= 1300
  {
    hide Uniq, WellTagged;
    HighShareIff(today, yesterday, stock, accountRevenue);
    ScoreBounds(today, yesterday, stock, accountRevenue);
    CardsAreWellTagged(today, yesterday, stock, accountRevenue);
    var revenueDelta := today.revenueCents - RevenueBefore(today.productId, yesterday);
    var ordersDelta := Int32(today.orders - OrdersBefore(today.productId, yesterday));
    var available := StockNow(today, stock);
    var importance := CalcImportance(today.revenueCents, accountRevenue, revenueDelta);
    var risk := CalcOutOfStockRisk(available, today.daysOfCover);
    var sales := CalcSalesDecline(revenueDelta, today.revenueCents);
    var orders := CalcOrdersDecline(ordersDelta);
    var problemScore := sales.points + orders.points + 5 * risk.points + 3 * importance.points;
    var signals := UniqValues(sales.signals + orders.signals + risk.signals + importance.signals, NoSignal());
    var badges := UniqValues(BuildBadges(risk.points, importance.points, revenueDelta, ordersDelta), NoBadge());
    card :=
      Card(today.productId, today.revenueCents, today.orders, revenueDelta, ordersDelta, available, today.daysOfCover,
                 importance.points, risk.points, problemScore, signals, badges);
  }

  /** Today's rows and yesterday's by product, in one pass over the range. */
  method SplitDays(rows: seq<SkuRow>, asOf: int) returns (today: seq<SkuRow>, yesterday: map<int, SkuRow>)
    ensures today == FlatMap(rows, OnDay(asOf))
    ensures yesterday == IndexBy(FlatMap(rows, OnDay(asOf - 1)), SkuProduct())
  {
    today, yesterday := [], map[];
    for i := 0 to |rows|
      invariant today == FlatMap(rows[..i], OnDay(asOf))
      invariant yesterday == IndexBy(FlatMap(rows[..i], OnDay(asOf - 1)), SkuProduct())
    {
      var row := rows[i];
      FlatMapStep(rows, OnDay(asOf), i);
      FlatMapStep(rows, OnDay(asOf - 1), i);
      if row.day == asOf {
        today := today + [row];
      }
      IndexByPush(FlatMap(rows[..i], OnDay(asOf - 1)), SkuProduct(), row);
      if row.day == asOf - 1 {
        yesterday := yesterday[row.productId := row];
      }
    }
    assert rows[..|rows|] == rows;
  }

  method ListCriticalSkus(rows: seq<SkuRow>, stockRows: seq<StockLevel>, asOf: int) returns (cards: seq<Card>)
    ensures multiset(cards) == multiset(CardList(rows, stockRows, asOf)) && Sorted(cards, MoreCritical())
  {
    hide CardOf, IndexBy, WellTagged, Sorted;
    var today, yesterday := SplitDays(rows, asOf);
    var accountRevenue := Total(today, SkuRevenue());
    var stock := IndexRows(stockRows, StockProduct());
    cards := [];
    for i := 0 to |today|
      invariant cards == FlatMap(today[..i], CardsOf(yesterday, stock, accountRevenue))
    {
      FlatMapStep(today, CardsOf(yesterday, stock, accountRevenue), i);
      var card := BuildCard(today[i], yesterday, stock, accountRevenue);
      cards := cards + [card];
    }
    assert today[..|today|] == today;
    cards := SortSlice(cards, MoreCritical());
  }

  // ---------------------------------------------------------------- what a list promises

  function CardRevenue(): Card -> int {
    (card: Card) => card.revenueCents
  }

  function CardProduct(): Card -> int {
    (card: Card) => card.productId
  }

  lemma ListedCard(rows: seq<SkuRow>, yesterday: map<int, SkuRow>, stock: map<int, StockLevel>, account: int, asOf: int,
                   card: Card)
    requires card in FlatMap(FlatMap(rows, OnDay(asOf)), CardsOf(yesterday, stock, account))
    requires forall row | row in rows && row.day == asOf :: row.revenueCents >= 0
    ensures CardRevenue()(card) >= 0
    ensures HasHighShare()(card) <==> 0 < account <= 5 * CardRevenue()(card)
  {
    var today := FlatMap(rows, OnDay(asOf));
    var i := FlatMapFrom(today, CardsOf(yesterday, stock, account), card);
    var j := FlatMapFrom(rows, OnDay(asOf), today[i]);
    HighShareIff(today[i], yesterday, stock, account);
  }

  lemma CardRevenues(today: seq<SkuRow>, yesterday: map<int, SkuRow>, stock: map<int, StockLevel>, account: int)
    ensures Sum(FlatMap(today, CardsOf(yesterday, stock, account)), CardRevenue()) == Sum(today, SkuRevenue())
  {
    forall row: SkuRow
      ensures Sum(CardsOf(yesterday, stock, account)(row), CardRevenue()) == SkuRevenue()(row)
    {
      hide Uniq, CalcImportance, BuildBadges;
      var card := CardOf(row, yesterday, stock, account);
      assert [card][..0] == [];
    }
    SumFlatMap(today, CardsOf(yesterday, stock, account), CardRevenue(), SkuRevenue());
  }

  /** With no negative revenue today, at most five cards of a list of any size carry the high-share signal. */
  lemma HighShareAtMostFive(rows: seq<SkuRow>, stockRows: seq<StockLevel>, asOf: int, cards: seq<Card>)
    requires multiset(cards) == multiset(CardList(rows, stockRows, asOf))
    requires forall row | row in rows && row.day == asOf :: row.revenueCents >= 0
    ensures Count(cards, HasHighShare()) <= 5
  {
    var today := FlatMap(rows, OnDay(asOf));
    var yesterday := IndexBy(FlatMap(rows, OnDay(asOf - 1)), SkuProduct());
    var stock := IndexBy(stockRows, StockProduct());
    var account := Sum(today, SkuRevenue());
    var list := FlatMap(today, CardsOf(yesterday, stock, account));
    forall k | 0 <= k < |cards|
      ensures CardRevenue()(cards[k]) >= 0
      ensures HasHighShare()(cards[k]) <==> 0 < account <= 5 * CardRevenue()(cards[k])
    {
      assert cards[k] in multiset(list);
      ListedCard(rows, yesterday, stock, account, asOf, cards[k]);
    }
    hide HasHighShare, CardRevenue, SkuRevenue, CardOf;
    if account > 0 {
      SumPermuted(cards, list, CardRevenue());
      CardRevenues(today, yesterday, stock, account);
      AtMostParts(cards, CardRevenue(), HasHighShare(), account, 5);
    } else {
      CountNone(cards, HasHighShare());
    }
  }

  /** The list does not depend on the order in which the database returned the rows. */
  lemma CardsForgetRowOrder(rows: seq<SkuRow>, rows': seq<SkuRow>, stockRows: seq<StockLevel>,
                            stockRows': seq<StockLevel>, asOf: int,
                            cards: seq<Card>, cards': seq<Card>)
    requires multiset(rows) == multiset(rows') && multiset(stockRows) == multiset(stockRows')
    requires DistinctValues(FlatMap(rows, OnDay(asOf)), SkuProduct())
    requires DistinctValues(FlatMap(rows, OnDay(asOf - 1)), SkuProduct())
    requires DistinctValues(stockRows, StockProduct())
    requires multiset(cards) == multiset(CardList(rows, stockRows, asOf)) && Sorted(cards, MoreCritical())
    requires multiset(cards') == multiset(CardList(rows', stockRows', asOf)) && Sorted(cards', MoreCritical())
    ensures cards == cards'
  {
    hide CardOf;
    var today, today' := FlatMap(rows, OnDay(asOf)), FlatMap(rows', OnDay(asOf));
    var yesterday, yesterday' := FlatMap(rows, OnDay(asOf - 1)), FlatMap(rows', OnDay(asOf - 1));
    FlatMapPermuted(rows, rows', OnDay(asOf));
    FlatMapPermuted(rows, rows', OnDay(asOf - 1));
    DistinctValuesPermuted(yesterday, yesterday', SkuProduct());
    IndexByPermuted(yesterday, yesterday', SkuProduct());
    DistinctValuesPermuted(stockRows, stockRows', StockProduct());
    IndexByPermuted(stockRows, stockRows', StockProduct());
    SumPermuted(today, today', SkuRevenue());
    var f := CardsOf(IndexBy(yesterday, SkuProduct()), IndexBy(stockRows, StockProduct()), Sum(today, SkuRevenue()));
    FlatMapPermuted(today, today', f);
    DistinctCards(today, IndexBy(yesterday, SkuProduct()), IndexBy(stockRows, StockProduct()),
                  Sum(today, SkuRevenue()));
    DistinctValuesPermuted(FlatMap(today, f), cards, CardProduct());
    DistinctDecides(cards);
    SortedUnique(cards, cards', MoreCritical());
  }

  lemma DistinctCards(today: seq<SkuRow>, yesterday: map<int, SkuRow>, stock: map<int, StockLevel>, account: int)
    requires DistinctValues(today, SkuProduct())
    ensures DistinctValues(FlatMap(today, CardsOf(yesterday, stock, account)), CardProduct())
  {
    var f := CardsOf(yesterday, stock, account);
    FlatMapSingles(today, f);
    forall i, j | 0 <= i < j < |today|
      ensures CardProduct()(FlatMap(today, f)[i]) != CardProduct()(FlatMap(today, f)[j])
    {
      assert f(today[i]) == [FlatMap(today, f)[i]] && f(today[j]) == [FlatMap(today, f)[j]];
      assert SkuProduct()(today[i]) != SkuProduct()(today[j]);
    }
  }

  lemma DistinctDecides(cards: seq<Card>)
    requires DistinctValues(cards, CardProduct())
    ensures Decides(cards, MoreCritical())
  {
    forall i, j | 0 <= i < |cards| && 0 <= j < |cards|
        && !MoreCritical()(cards[i], cards[j]) && !MoreCritical()(cards[j], cards[i])
      ensures cards[i] == cards[j]
    {
      SameKeySamePlace(cards, CardProduct(), i, j);
    }
  }
}
