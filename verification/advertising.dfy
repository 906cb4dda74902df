/** Advertising analytics: campaign rows and their efficiency, spend spread over the linked products,
    sorting and paging. Money is in cents, ratios shown to the user in hundredths. */
module Advertising {
  import opened Wrappers
  import opened Text
  import opened Batches
  import opened Paging
  import opened Sorting
  import opened Sums
  import opened CriticalSkus
  import opened AdvertisingTrends

  datatype Efficiency = EfficiencyOk | GrowthWithoutResult | WeakEfficiency

  // The constructors of the three signals are in the order of their texts.
  datatype Trend = Declining | Stable | Weak

  datatype StockSignal = StockCritical | StockLow | StockOk

  datatype Waste = WasteOk | WasteMedium | WasteHigh

  datatype Reason = ReasonGrowthWithoutResult | ReasonLowStockAdvertised | ReasonWeakSalesTrend

  /** A campaign's totals over the range, as the summary query returns them. */
  datatype Summary = Summary(id: int, status: string, spendCents: int, revenueCents: int, impressions: int, clicks: int,
                             orders: int)

  datatype Link = Link(campaignId: int, productId: int)

  datatype Campaign = Campaign(id: int, spendCents: int, revenueCents: int, impressions: int, clicks: int, orders: int,
                               ctr: int, cpc: int, signal: Efficiency)

  datatype RiskRow = RiskRow(productId: int, campaignId: int, spendCents: int, trend: Trend, stock: StockSignal,
                             waste: Waste, reasons: seq<Reason>)

  // ---------------------------------------------------------------- ratios and rounding

  function SafeRatio(numerator: real, denominator: real): real {
    if denominator == 0.0 then 0.0 else numerator / denominator
  }

  /** The nearest integer, halves away from zero. */
  function Nearest(x: real): (n: int)
    ensures x >= 0.0 ==> n >= 0 && n as real - 0.5 <= x < n as real + 0.5
    ensures x < 0.0 ==> n as real - 0.5 < x <= n as real + 0.5
  {
    if x >= 0.0 then (x + 0.5).Floor else -(0.5 - x).Floor
  }

  // ---------------------------------------------------------------- signals

  function EfficiencyOf(row: Summary, grewWithoutResult: bool): Efficiency {
    if row.spendCents <= 0 then EfficiencyOk
    else if grewWithoutResult then GrowthWithoutResult
    else if row.orders == 0 || row.revenueCents < row.spendCents
            || SafeRatio(row.clicks as real, row.impressions as real) < 0.005
            || SafeRatio(row.spendCents as real, row.clicks as real) > 6000.0 then WeakEfficiency
    else EfficiencyOk
  }

  function ResolveSalesTrend(latest: SkuRow, previous: SkuRow): Trend {
    if latest.productId == 0 || previous.productId == 0 then (if latest.revenueCents <= 0 then Weak else Stable)
    else if latest.revenueCents <= 0 && previous.revenueCents > 0 then Declining
    else if previous.revenueCents > 0 && 5 * latest.revenueCents < 4 * previous.revenueCents then Declining
    else if latest.orders < previous.orders then Weak
    else Stable
  }

  function ResolveStock(latest: SkuRow): StockSignal {
    if latest.stock <= 0 then StockCritical
    else if latest.stock <= 3 then StockLow
    else if latest.daysOfCover.Some? && latest.daysOfCover.value <= 300 then StockLow
    else StockOk
  }

  function ResolveAdWaste(spendPerSku: real, trend: Trend, efficiency: Efficiency): Waste {
    if spendPerSku <= 0.0 then WasteOk
    else if trend == Declining || efficiency == GrowthWithoutResult then WasteHigh
    else if trend == Weak || efficiency == WeakEfficiency then WasteMedium
    else WasteOk
  }

  /** Sales decline exactly when both rows are there and revenue fell by more than a fifth of a positive one. */
  lemma DecliningIff(latest: SkuRow, previous: SkuRow)
    ensures ResolveSalesTrend(latest, previous) == Declining <==>
      latest.productId != 0 && previous.productId != 0
      && previous.revenueCents > 0 && 5 * latest.revenueCents < 4 * previous.revenueCents
  {
  }

  // ---------------------------------------------------------------- campaigns

  predicate IsActiveStatus(status: string) {
    var v := ToLower(TrimSpace(status));
    v != "" && (Contains(v, "active") || v == "running" || v == "enabled")
  }

  /** An inactive campaign counts as active: its status contains the text looked for. */
  lemma InactiveCountsAsActive(status: string)
    requires Contains(ToLower(TrimSpace(status)), "inactive")
    ensures IsActiveStatus(status)
  {
    var v, prefix, text := ToLower(TrimSpace(status)), "in", "active";
    assert "inactive" == prefix + text;
    var i: nat :| i <= |v| && ContainsAt(v, prefix + text, i);
    assert v[i + |prefix|..i + |prefix| + |text|] == v[i..i + |prefix + text|][|prefix|..];
    assert ContainsAt(v, text, i + |prefix|);
  }

  lemma InactiveIsActive()
    ensures IsActiveStatus("inactive")
  {
    assert TrimSpace("inactive") == "inactive" && ToLower("inactive") == "inactive";
    ContainsItself("inactive");
    InactiveCountsAsActive("inactive");
  }

  function SummaryId(): Summary -> int {
    (row: Summary) => row.id
  }

  function SummarySpend(): Summary -> int {
    (row: Summary) => row.spendCents
  }

  function IsActive(): Summary -> bool {
    (row: Summary) => IsActiveStatus(row.status)
  }

  function IsWeak(): Campaign -> bool {
    (campaign: Campaign) => campaign.signal != EfficiencyOk
  }

  function CampaignKey(): Campaign -> int {
    (campaign: Campaign) => campaign.id
  }

  function AdCampaign(): AdRow -> int {
    (row: AdRow) => row.campaignId
  }

  /** The database key of a daily advertising row of one seller. */
  function CampaignDay(): AdRow -> (int, int) {
    (row: AdRow) => (row.campaignId, row.day)
  }

  /** A campaign's verdict on its daily rows, put in date order. */
  function GrewOverDays(dailyRows: seq<AdRow>, id: int): bool {
    GrewWithoutResult(Sort(FlatMap(dailyRows, WithKey(AdCampaign(), id)), Earlier()))
  }

  function CampaignOf(row: Summary, signal: Efficiency): Campaign {
    Campaign(row.id, row.spendCents, row.revenueCents, row.impressions, row.clicks, row.orders,
             Nearest(100.0 * SafeRatio(row.clicks as real, row.impressions as real)),
             Nearest(SafeRatio(row.spendCents as real, row.clicks as real)), signal)
  }

  function CampaignsOf(dailyRows: seq<AdRow>): Summary -> seq<Campaign> {
    (row: Summary) => [CampaignOf(row, EfficiencyOf(row, GrewOverDays(dailyRows, row.id)))]
  }

  method CampaignEfficiencySignal(row: Summary, daily: seq<AdRow>) returns (signal: Efficiency)
    requires DistinctValues(daily, AdDay())
    ensures signal == EfficiencyOf(row, GrewWithoutResult(Sort(daily, Earlier())))
  {
    hide SafeRatio, GrewWithoutResult;
    if row.spendCents <= 0 {
      return EfficiencyOk;
    }
    var rows := new AdRow[|daily|](i requires 0 <= i < |daily| => daily[i]);
    assert rows[..] == daily;
    var grew := HasSpendGrowthWithoutResult(rows);
    SameVerdict(daily, rows[..]);
    signal := EfficiencyOf(row, grew);
  }

  lemma SameVerdict(daily: seq<AdRow>, rows: seq<AdRow>)
    requires DistinctValues(daily, AdDay()) && multiset(rows) == multiset(daily)
    requires |rows| < 4 || Sorted(rows, Earlier())
    ensures GrewWithoutResult(rows) == GrewWithoutResult(Sort(daily, Earlier()))
  {
    SortPermutes(daily, Earlier());
    SortSorts(daily, Earlier());
    assert |multiset(rows)| == |rows|;
    if |rows| >= 4 {
      DistinctValuesPermuted(daily, rows, AdDay());
      GrowthForgetsOrder(rows, Sort(daily, Earlier()));
    } else {
      assert |multiset(Sort(daily, Earlier()))| == |rows|;
    }
  }

  lemma OneGroupRowPerDay(dailyRows: seq<AdRow>, groups: map<int, seq<AdRow>>, id: int)
    requires DistinctValues(dailyRows, CampaignDay()) && IsGrouping(groups, dailyRows, AdCampaign())
    ensures DistinctValues(GroupOf(groups, id), AdDay())
  {
    OneRowPerDay(dailyRows, id);
    assert GroupOf(groups, id) == FlatMap(dailyRows, WithKey(AdCampaign(), id));
  }

  lemma OneRowPerDay(dailyRows: seq<AdRow>, id: int)
    requires DistinctValues(dailyRows, CampaignDay())
    ensures DistinctValues(FlatMap(dailyRows, WithKey(AdCampaign(), id)), AdDay())
  {
    var f := WithKey(AdCampaign(), id);
    var daily := FlatMap(dailyRows, f);
    forall i, j | 0 <= i < j < |daily|
      ensures AdDay()(daily[i]) != AdDay()(daily[j])
    {
      var k, l := FlatMapOrigins(dailyRows, f, i, j);
      assert f(dailyRows[k]) == [daily[i]] && f(dailyRows[l]) == [daily[j]];
      assert CampaignDay()(dailyRows[k]) != CampaignDay()(dailyRows[l]);
    }
  }

  method BuildCampaigns(summaries: seq<Summary>, dailyRows: seq<AdRow>)
    returns (campaigns: seq<Campaign>, campaignById: map<int, Campaign>,
             totalSpend: int, activeCount: nat, weakCount: nat)
    requires DistinctValues(dailyRows, CampaignDay())
    ensures campaigns == FlatMap(summaries, CampaignsOf(dailyRows))
    ensures campaignById == IndexBy(campaigns, CampaignKey())
    ensures totalSpend == Sum(summaries, SummarySpend())
    ensures activeCount == Count(summaries, IsActive())
    ensures weakCount == Count(campaigns, IsWeak())
  {
    hide EfficiencyOf, GrewOverDays, CampaignOf, IsActiveStatus, FlatMap, Sum, Count, IndexBy, IsGrouping;
    hide DistinctValues, GrewWithoutResult, Sort;
    NothingYet(summaries, dailyRows);
    var metricsByCampaign := GroupRows(dailyRows, AdCampaign());
    campaigns, campaignById, totalSpend, activeCount, weakCount := [], map[], 0, 0, 0;
    for i := 0 to |summaries|
      invariant campaigns == FlatMap(summaries[..i], CampaignsOf(dailyRows))
      invariant campaignById == IndexBy(campaigns, CampaignKey())
      invariant totalSpend == Sum(summaries[..i], SummarySpend())
      invariant activeCount == Count(summaries[..i], IsActive())
      invariant weakCount == Count(campaigns, IsWeak())
    {
      var row := summaries[i];
      FlatMapStep(summaries, CampaignsOf(dailyRows), i);
      SumStep(summaries, SummarySpend(), i);
      CountStep(summaries, IsActive(), i);
      OneGroupRowPerDay(dailyRows, metricsByCampaign, row.id);
      var signal := CampaignEfficiencySignal(row, GroupOf(metricsByCampaign, row.id));
      SignalIs(row, dailyRows, metricsByCampaign, signal);
      if IsActiveStatus(row.status) {
        activeCount := activeCount + 1;
      }
      if signal != EfficiencyOk {
        weakCount := weakCount + 1;
      }
      var campaign := CampaignOf(row, signal);
      CampaignFields(row, signal);
      IndexByPush(campaigns, CampaignKey(), campaign);
      CountPush(campaigns, IsWeak(), campaign);
      campaignById := campaignById[campaign.id := campaign];
      campaigns := campaigns + [campaign];
      totalSpend := totalSpend + row.spendCents;
    }
    assert summaries[..|summaries|] == summaries;
  }

  lemma NothingYet(summaries: seq<Summary>, dailyRows: seq<AdRow>)
    ensures FlatMap(summaries[..0], CampaignsOf(dailyRows)) == [] && IndexBy([], CampaignKey()) == map[]
    ensures Sum(summaries[..0], SummarySpend()) == 0 && Count(summaries[..0], IsActive()) == 0
    ensures Count([], IsWeak()) == 0
  {
  }

  lemma CampaignFields(row: Summary, signal: Efficiency)
    ensures CampaignOf(row, signal).id == row.id && CampaignOf(row, signal).signal == signal
  {
    hide Nearest, SafeRatio;
  }

  lemma SignalIs(row: Summary, dailyRows: seq<AdRow>, groups: map<int, seq<AdRow>>, signal: Efficiency)
    requires IsGrouping(groups, dailyRows, AdCampaign())
    requires signal == EfficiencyOf(row, GrewWithoutResult(Sort(GroupOf(groups, row.id), Earlier())))
    ensures CampaignsOf(dailyRows)(row) == [CampaignOf(row, signal)]
  {
    assert GroupOf(groups, row.id) == FlatMap(dailyRows, WithKey(AdCampaign(), row.id));
    hide EfficiencyOf, GrewWithoutResult, CampaignOf;
  }

  // ---------------------------------------------------------------- spend spread over the linked products

  function LinkCampaign(): Link -> int {
    (link: Link) => link.campaignId
  }

  function NewestOf(rows: seq<SkuRow>, upper: int, productId: int): SkuRow {
    var pick := Pick(rows, upper, productId);
    if pick.Some? then pick.value.newest else NO_ROW
  }

  function PreviousOf(rows: seq<SkuRow>, upper: int, productId: int): SkuRow {
    var pick := Pick(rows, upper, productId);
    if pick.Some? then pick.value.previous else NO_ROW
  }

  /** Equal shares: what one of a campaign's n links gets of its spend. */
  function SpendPerSku(spendCents: int, n: nat): real {
    if n == 0 then 0.0 else spendCents as real / n as real
  }

  function ReasonsOf(spendPerSku: real, trend: Trend, stock: StockSignal, waste: Waste): seq<Reason> {
    (if waste != WasteOk then [ReasonGrowthWithoutResult] else [])
    + (if stock != StockOk then [ReasonLowStockAdvertised] else [])
    + if trend != Stable && spendPerSku > 0.0 then [ReasonWeakSalesTrend] else []
  }

  function RiskOf(campaign: Campaign, spendPerSku: real, productId: int, latest: SkuRow, previous: SkuRow): RiskRow {
    var trend, stock := ResolveSalesTrend(latest, previous), ResolveStock(latest);
    var waste := ResolveAdWaste(spendPerSku, trend, campaign.signal);
    RiskRow(productId, campaign.id, Nearest(spendPerSku), trend, stock, waste,
            ReasonsOf(spendPerSku, trend, stock, waste))
  }

  /** A row gives no reason exactly when its stock is fine and nothing is spent, or nothing is wrong with what
      the spend does; a weak trend is never given as a reason alone. */
  lemma ReasonsIff(campaign: Campaign, spendPerSku: real, productId: int, latest: SkuRow, previous: SkuRow)
    ensures var risk := RiskOf(campaign, spendPerSku, productId, latest, previous);
      var harmless := spendPerSku <= 0.0 || (risk.trend == Stable && campaign.signal == EfficiencyOk);
      && (risk.reasons == [] <==> risk.stock == StockOk && harmless)
      && (ReasonWeakSalesTrend in risk.reasons ==> ReasonGrowthWithoutResult in risk.reasons && risk.waste != WasteOk)
      && (ReasonLowStockAdvertised in risk.reasons <==> risk.stock != StockOk)
  {
    hide Nearest, ResolveSalesTrend, ResolveStock;
  }

  /** The risk row of a link of a known campaign; other links yield none. */
  function RisksOf(campaigns: map<int, Campaign>, links: seq<Link>, rows: seq<SkuRow>,
                   upper: int): Link -> seq<RiskRow> {
    (link: Link) =>
      if link.campaignId in campaigns then
        [RiskOf(campaigns[link.campaignId],
                SpendPerSku(campaigns[link.campaignId].spendCents,
                            |FlatMap(links, WithKey(LinkCampaign(), link.campaignId))|),
                link.productId, NewestOf(rows, upper, link.productId), PreviousOf(rows, upper, link.productId))]
      else []
  }

  /** The product of a link of a known campaign, if its stock signal is not ok. */
  function LowStockOf(campaigns: map<int, Campaign>, rows: seq<SkuRow>, upper: int): Link -> seq<int> {
    (link: Link) =>
      if link.campaignId in campaigns && ResolveStock(NewestOf(rows, upper, link.productId)) != StockOk
      then [link.productId] else []
  }

  ghost predicate HoldsLow(low: set<int>, links: seq<Link>, f: Link -> seq<int>) {
    forall p :: p in low <==> p in FlatMap(links, f)
  }

  /** The links of one campaign. */
  method SpreadSpend(campaign: Campaign, mapped: seq<Link>, latest: map<int, SkuRow>, previous: map<int, SkuRow>,
                     ghost campaigns: map<int, Campaign>, ghost links: seq<Link>,
                     ghost rows: seq<SkuRow>, ghost upper: int)
    returns (risks: seq<RiskRow>, low: set<int>)
    requires Holds(latest, previous, rows, upper)
    requires forall k | 0 <= k < |mapped| ::
               mapped[k].campaignId in campaigns && campaigns[mapped[k].campaignId] == campaign
                                           && mapped == FlatMap(links, WithKey(LinkCampaign(), mapped[k].campaignId))
    ensures risks == FlatMap(mapped, RisksOf(campaigns, links, rows, upper))
    ensures HoldsLow(low, mapped, LowStockOf(campaigns, rows, upper))
  {
    hide RiskOf, Pick, FlatMap, ResolveStock, SpendPerSku;
    var spendPerSku := SpendPerSku(campaign.spendCents, |mapped|);
    ghost var f, g := RisksOf(campaigns, links, rows, upper), LowStockOf(campaigns, rows, upper);
    FlatMapNone(mapped, f);
    FlatMapNone(mapped, g);
    risks, low := [], {};
    for i := 0 to |mapped|
      invariant risks == FlatMap(mapped[..i], f)
      invariant HoldsLow(low, mapped[..i], g)
    {
      FlatMapStep(mapped, f, i);
      FlatMapStep(mapped, g, i);
      var p := mapped[i].productId;
      var newest := if p in latest then latest[p] else NO_ROW;
      var before := if p in previous then previous[p] else NO_ROW;
      assert newest == NewestOf(rows, upper, p) && before == PreviousOf(rows, upper, p);
      risks := risks + [RiskOf(campaign, spendPerSku, p, newest, before)];
      if ResolveStock(newest) != StockOk {
        low := low + {p};
      }
    }
    assert mapped[..|mapped|] == mapped;
  }

  /** The rows built so far, after the links of the campaigns done. */
  ghost predicate Spread(risks: seq<RiskRow>, lowStock: set<int>, links: seq<Link>, done: set<int>,
                         f: Link -> seq<RiskRow>, g: Link -> seq<int>) {
    && multiset(risks) == multiset(FlatMap(links, Within(LinkCampaign(), done, f)))
    && HoldsLow(lowStock, links, Within(LinkCampaign(), done, g))
  }

  /** All campaigns that have links, in whatever order the map yields them. */
  method BuildRisks(campaigns: map<int, Campaign>, links: seq<Link>, rows: seq<SkuRow>, upper: int)
    returns (risks: seq<RiskRow>, lowStock: set<int>)
    ensures multiset(risks) == multiset(FlatMap(links, RisksOf(campaigns, links, rows, upper)))
    ensures HoldsLow(lowStock, links, LowStockOf(campaigns, rows, upper))
  {
    hide FlatMap, RisksOf, LowStockOf, HoldsLow, Holds, Spread, IsGrouping;
    var latest, previous := SplitLatestAndPreviousByProduct(rows, upper);
    var linksByCampaign := GroupRows(links, LinkCampaign());
    ghost var f, g := RisksOf(campaigns, links, rows, upper), LowStockOf(campaigns, rows, upper);
    risks, lowStock := [], {};
    NothingSpread(links, f, g);
    ghost var done: set<int> := {};
    var left := linksByCampaign.Keys;
    while left != {}
      invariant done !! left && done + left == linksByCampaign.Keys
      invariant Spread(risks, lowStock, links, done, f, g)
      decreases |left|
    {
      EmptyOrHas(left);
      var id :| id in left;
      var mapped := linksByCampaign[id];
      GroupFacts(linksByCampaign, links, id);
      var more, low := [], {};
      if id in campaigns {
        more, low := SpreadSpend(campaigns[id], mapped, latest, previous, campaigns, links, rows, upper);
      } else {
        UnknownCampaign(campaigns, mapped, links, rows, upper, id);
      }
      SpreadMore(risks, lowStock, more, low, links, done, id, f, g);
      risks, lowStock := risks + more, lowStock + low;
      left, done := left - {id}, done + {id};
    }
    AllGrouped(linksByCampaign, links);
    AllSpread(risks, lowStock, links, done, f, g);
  }

  lemma EmptyOrHas(ids: set<int>)
    ensures ids == {} || exists id :: id in ids
  {
    if forall id :: id !in ids {
      assert ids == {};
    }
  }

  lemma NothingSpread(links: seq<Link>, f: Link -> seq<RiskRow>, g: Link -> seq<int>)
    ensures Spread([], {}, links, {}, f, g)
  {
    WithinNone(links, LinkCampaign(), f);
    WithinNone(links, LinkCampaign(), g);
  }

  lemma SpreadMore(risks: seq<RiskRow>, lowStock: set<int>, more: seq<RiskRow>, low: set<int>, links: seq<Link>,
                   done: set<int>, id: int,
                   f: Link -> seq<RiskRow>, g: Link -> seq<int>)
    requires id !in done && Spread(risks, lowStock, links, done, f, g)
    requires more == FlatMap(FlatMap(links, WithKey(LinkCampaign(), id)), f)
    requires HoldsLow(low, FlatMap(links, WithKey(LinkCampaign(), id)), g)
    ensures Spread(risks + more, lowStock + low, links, done + {id}, f, g)
  {
    hide FlatMap, HoldsLow, Within;
    WithinGrows(links, LinkCampaign(), done, id, f);
    LowAdded(lowStock, low, links, done, id, g);
  }

  lemma AllSpread(risks: seq<RiskRow>, lowStock: set<int>, links: seq<Link>, done: set<int>,
                  f: Link -> seq<RiskRow>, g: Link -> seq<int>)
    requires Spread(risks, lowStock, links, done, f, g)
    requires forall k | 0 <= k < |links| :: LinkCampaign()(links[k]) in done
    ensures multiset(risks) == multiset(FlatMap(links, f)) && HoldsLow(lowStock, links, g)
  {
    WithinAll(links, LinkCampaign(), done, f);
    WithinAll(links, LinkCampaign(), done, g);
  }

  lemma GroupFacts(groups: map<int, seq<Link>>, links: seq<Link>, id: int)
    requires IsGrouping(groups, links, LinkCampaign()) && id in groups
    ensures groups[id] == FlatMap(links, WithKey(LinkCampaign(), id))
    ensures forall k | 0 <= k < |groups[id]| :: groups[id][k].campaignId == id
  {
    assert GroupOf(groups, id) == FlatMap(links, WithKey(LinkCampaign(), id));
    forall k | 0 <= k < |groups[id]|
      ensures groups[id][k].campaignId == id
    {
      var l := FlatMapFrom(links, WithKey(LinkCampaign(), id), groups[id][k]);
    }
  }

  lemma AllGrouped(groups: map<int, seq<Link>>, links: seq<Link>)
    requires IsGrouping(groups, links, LinkCampaign())
    ensures forall k | 0 <= k < |links| :: LinkCampaign()(links[k]) in groups.Keys
  {
    forall k | 0 <= k < |links|
      ensures LinkCampaign()(links[k]) in groups.Keys
    {
      FlatMapHas(links, WithKey(LinkCampaign(), links[k].campaignId), k, links[k]);
      assert FlatMap(links, WithKey(LinkCampaign(), links[k].campaignId)) != [];
    }
  }

  lemma LowAdded(lowStock: set<int>, low: set<int>, links: seq<Link>, done: set<int>, id: int, g: Link -> seq<int>)
    requires id !in done
    requires HoldsLow(lowStock, links, Within(LinkCampaign(), done, g))
    requires HoldsLow(low, FlatMap(links, WithKey(LinkCampaign(), id)), g)
    ensures HoldsLow(lowStock + low, links, Within(LinkCampaign(), done + {id}, g))
  {
    WithinGrows(links, LinkCampaign(), done, id, g);
    var wide, narrow :=
      FlatMap(links, Within(LinkCampaign(), done + {id}, g)), FlatMap(links, Within(LinkCampaign(), done, g));
    var group := FlatMap(FlatMap(links, WithKey(LinkCampaign(), id)), g);
    hide FlatMap, Within;
    forall p
      ensures p in lowStock + low <==> p in wide
    {
      assert p in wide <==> p in multiset(wide);
      assert p in narrow <==> p in multiset(narrow);
      assert p in group <==> p in multiset(group);
    }
  }

  lemma UnknownCampaign(campaigns: map<int, Campaign>, mapped: seq<Link>, links: seq<Link>, rows: seq<SkuRow>,
                        upper: int, id: int)
    requires id !in campaigns && forall k | 0 <= k < |mapped| :: mapped[k].campaignId == id
    ensures FlatMap(mapped, RisksOf(campaigns, links, rows, upper)) == []
    ensures HoldsLow({}, mapped, LowStockOf(campaigns, rows, upper))
  {
    FlatMapEmpty(mapped, RisksOf(campaigns, links, rows, upper));
    FlatMapEmpty(mapped, LowStockOf(campaigns, rows, upper));
  }

  // ---------------------------------------------------------------- sorting and paging

  datatype CampaignSort = BySpend | ByRevenue | ByCtr | ByCpc | ByClicks

  datatype RiskSort = RiskBySpend | RiskByStock | RiskByTrend

  /** A sort key the caller misspells, or leaves out, is the spend. */
  function ParseCampaignSort(sortBy: string): CampaignSort {
    var key := ToLower(TrimSpace(sortBy));
    if key == "revenue_total" then ByRevenue
    else if key == "ctr" then ByCtr
    else if key == "cpc" then ByCpc
    else if key == "clicks_total" then ByClicks
    else BySpend
  }

  function ParseRiskSort(sortBy: string): RiskSort {
    var key := ToLower(TrimSpace(sortBy));
    if key == "stock_signal" then RiskByStock
    else if key == "sales_trend_signal" then RiskByTrend
    else RiskBySpend
  }

  function IsDescending(sortOrder: string): bool {
    ToLower(TrimSpace(sortOrder)) != "asc"
  }

  function CampaignValue(campaign: Campaign, sort: CampaignSort): int {
    match sort
    case BySpend => campaign.spendCents
    case ByRevenue => campaign.revenueCents
    case ByCtr => campaign.ctr
    case ByCpc => campaign.cpc
    case ByClicks => campaign.clicks
  }

  function RiskValue(risk: RiskRow, sort: RiskSort): int {
    match sort
    case RiskBySpend => risk.spendCents
    case RiskByStock => (match risk.stock case StockCritical => 0 case StockLow => 1 case StockOk => 2)
    case RiskByTrend => (match risk.trend case Declining => 0 case Stable => 1 case Weak => 2)
  }

  predicate ComesFirst(left: int, right: int, leftTie: int, rightTie: int, desc: bool) {
    if left == right then leftTie < rightTie else if desc then left > right else left < right
  }

  function CampaignOrder(sort: CampaignSort, desc: bool): (Campaign, Campaign) -> bool {
    (left: Campaign, right: Campaign) =>
      ComesFirst(CampaignValue(left, sort), CampaignValue(right, sort), left.id, right.id, desc)
  }

  function RiskOrder(sort: RiskSort, desc: bool): (RiskRow, RiskRow) -> bool {
    (left: RiskRow, right: RiskRow) =>
      ComesFirst(RiskValue(left, sort), RiskValue(right, sort), left.productId, right.productId, desc)
  }

  // ---------------------------------------------------------------- the whole answer

  function KnownCampaigns(summaries: seq<Summary>, dailyRows: seq<AdRow>): map<int, Campaign> {
    IndexBy(FlatMap(summaries, CampaignsOf(dailyRows)), CampaignKey())
  }

  /** A full list ranked for some request. */
  ghost predicate RankedCampaigns(ranked: seq<Campaign>, summaries: seq<Summary>, dailyRows: seq<AdRow>,
                                  sort: CampaignSort, desc: bool) {
    && multiset(ranked) == multiset(FlatMap(summaries, CampaignsOf(dailyRows)))
    && Sorted(ranked, CampaignOrder(sort, desc))
  }

  ghost predicate RankedRisks(ranked: seq<RiskRow>, campaigns: map<int, Campaign>, links: seq<Link>, rows: seq<SkuRow>,
                              upper: int,
                              sort: RiskSort, desc: bool) {
    && multiset(ranked) == multiset(FlatMap(links, RisksOf(campaigns, links, rows, upper)))
    && Sorted(ranked, RiskOrder(sort, desc))
  }

  datatype Totals = Totals(spendCents: int, activeCampaigns: nat, weakCampaigns: nat, lowStockProducts: nat)

  method BuildAdvertisingAnalytics(summaries: seq<Summary>, dailyRows: seq<AdRow>, links: seq<Link>,
                                   skuRows: seq<SkuRow>, dateTo: int,
                                   sortBy: string, sortOrder: string, offset: nat, limit: nat)
    returns (totals: Totals, campaigns: seq<Campaign>, risks: seq<RiskRow>,
             ghost allCampaigns: seq<Campaign>, ghost allRisks: seq<RiskRow>)
    requires DistinctValues(dailyRows, CampaignDay())
    ensures totals.spendCents == Sum(summaries, SummarySpend())
    ensures totals.activeCampaigns == Count(summaries, IsActive())
    ensures totals.weakCampaigns == Count(allCampaigns, IsWeak())
    ensures totals.lowStockProducts
             == |set p | p in FlatMap(links, LowStockOf(KnownCampaigns(summaries, dailyRows), skuRows, dateTo))|
    ensures RankedCampaigns(allCampaigns, summaries, dailyRows, ParseCampaignSort(sortBy), IsDescending(sortOrder))
    ensures RankedRisks(allRisks, KnownCampaigns(summaries, dailyRows), links, skuRows, dateTo, ParseRiskSort(sortBy),
                        IsDescending(sortOrder))
    ensures campaigns == ApplyPagination(allCampaigns, offset, limit)
    ensures risks == ApplyPagination(allRisks, offset, limit)
  {
    hide ParseCampaignSort, ParseRiskSort, IsDescending, FlatMap, IndexBy, LowStockOf, RisksOf, CampaignsOf, Sum;
    hide DistinctValues, ApplyPagination, Count;
    var built, known, totalSpend, active, weak := BuildCampaigns(summaries, dailyRows);
    var riskRows, lowStock := BuildRisks(known, links, skuRows, dateTo);
    ghost var low := FlatMap(links, LowStockOf(known, skuRows, dateTo));
    SameMembers(lowStock, low);
    totals := Totals(totalSpend, active, weak, |lowStock|);
    var ranked := SortSlice(built, CampaignOrder(ParseCampaignSort(sortBy), IsDescending(sortOrder)));
    var rankedRisks := SortSlice(riskRows, RiskOrder(ParseRiskSort(sortBy), IsDescending(sortOrder)));
    CountPermuted(built, ranked, IsWeak());
    allCampaigns, allRisks := ranked, rankedRisks;
    campaigns, risks := ApplyPagination(ranked, offset, limit), ApplyPagination(rankedRisks, offset, limit);
  }

  lemma SameMembers(ids: set<int>, list: seq<int>)
    requires forall p :: p in ids <==> p in list
    ensures ids == set p | p in list
  {
    var members := set p | p in list;
    forall p | p in ids
      ensures p in members
    {
      assert p in list;
    }
    forall p | p in members
      ensures p in ids
    {
      assert p in list;
    }
  }

  // ---------------------------------------------------------------- what an answer promises

  /** With distinct campaign ids, the ranked campaigns depend only on the set of rows: the pages of separate
      requests over the same rows are pages of one list. */
  lemma CampaignsForgetRowOrder(summaries: seq<Summary>, summaries': seq<Summary>, dailyRows: seq<AdRow>,
                                dailyRows': seq<AdRow>,
                                sort: CampaignSort, desc: bool, ranked: seq<Campaign>, ranked': seq<Campaign>)
    requires multiset(summaries) == multiset(summaries') && multiset(dailyRows) == multiset(dailyRows')
    requires DistinctValues(summaries, SummaryId()) && DistinctValues(dailyRows, CampaignDay())
    requires RankedCampaigns(ranked, summaries, dailyRows, sort, desc)
    requires RankedCampaigns(ranked', summaries', dailyRows', sort, desc)
    ensures ranked == ranked'
  {
    hide CampaignOf, EfficiencyOf, GrewOverDays, DistinctValues, CampaignValue;
    forall k | 0 <= k < |summaries'|
      ensures CampaignsOf(dailyRows)(summaries'[k]) == CampaignsOf(dailyRows')(summaries'[k])
    {
      GrowthOfRows(dailyRows, dailyRows', summaries'[k].id);
    }
    FlatMapSame(summaries', CampaignsOf(dailyRows), CampaignsOf(dailyRows'));
    FlatMapPermuted(summaries, summaries', CampaignsOf(dailyRows));
    DistinctCampaigns(summaries, dailyRows);
    DistinctValuesPermuted(FlatMap(summaries, CampaignsOf(dailyRows)), ranked, CampaignKey());
    CampaignsDecided(ranked, sort, desc);
    SortedUnique(ranked, ranked', CampaignOrder(sort, desc));
  }

  lemma CampaignsDecided(ranked: seq<Campaign>, sort: CampaignSort, desc: bool)
    requires DistinctValues(ranked, CampaignKey())
    ensures Decides(ranked, CampaignOrder(sort, desc))
  {
    forall i, j | 0 <= i < |ranked| && 0 <= j < |ranked|
          && !CampaignOrder(sort, desc)(ranked[i], ranked[j]) && !CampaignOrder(sort, desc)(ranked[j], ranked[i])
      ensures ranked[i] == ranked[j]
    {
      SameKeySamePlace(ranked, CampaignKey(), i, j);
    }
  }

  lemma GrowthOfRows(dailyRows: seq<AdRow>, dailyRows': seq<AdRow>, id: int)
    requires multiset(dailyRows) == multiset(dailyRows') && DistinctValues(dailyRows, CampaignDay())
    ensures GrewOverDays(dailyRows, id) == GrewOverDays(dailyRows', id)
  {
    var f := WithKey(AdCampaign(), id);
    var daily, daily' := FlatMap(dailyRows, f), FlatMap(dailyRows', f);
    FlatMapPermuted(dailyRows, dailyRows', f);
    OneRowPerDay(dailyRows, id);
    SortPermutes(daily, Earlier());
    SortPermutes(daily', Earlier());
    SortSorts(daily, Earlier());
    SortSorts(daily', Earlier());
    DistinctValuesPermuted(daily, Sort(daily, Earlier()), AdDay());
    hide GrewWithoutResult;
    GrowthForgetsOrder(Sort(daily, Earlier()), Sort(daily', Earlier()));
  }

  lemma DistinctCampaigns(summaries: seq<Summary>, dailyRows: seq<AdRow>)
    requires DistinctValues(summaries, SummaryId())
    ensures DistinctValues(FlatMap(summaries, CampaignsOf(dailyRows)), CampaignKey())
  {
    hide Nearest, SafeRatio, EfficiencyOf, GrewOverDays;
    var f := CampaignsOf(dailyRows);
    FlatMapSingles(summaries, f);
    forall i, j | 0 <= i < j < |summaries|
      ensures CampaignKey()(FlatMap(summaries, f)[i]) != CampaignKey()(FlatMap(summaries, f)[j])
    {
      assert f(summaries[i]) == [FlatMap(summaries, f)[i]] && f(summaries[j]) == [FlatMap(summaries, f)[j]];
      assert SummaryId()(summaries[i]) != SummaryId()(summaries[j]);
    }
  }

  lemma KnownByTheirIds(summaries: seq<Summary>, dailyRows: seq<AdRow>)
    ensures KeyedById(KnownCampaigns(summaries, dailyRows))
  {
    var campaigns := FlatMap(summaries, CampaignsOf(dailyRows));
    IndexByRows(campaigns, CampaignKey());
    hide FlatMap, IndexBy;
    assert forall id | id in IndexBy(campaigns, CampaignKey()) ::
             CampaignKey()(IndexBy(campaigns, CampaignKey())[id]) == id;
  }

  /** The part of a risk row's spend that belongs to one campaign. */
  function SpendIn(id: int): RiskRow -> int {
    (risk: RiskRow) => if risk.campaignId == id then risk.spendCents else 0
  }

  function ShareIn(id: int, share: int): Link -> int {
    (link: Link) => if link.campaignId == id then share else 0
  }

  ghost predicate KeyedById(campaigns: map<int, Campaign>) {
    forall id | id in campaigns :: campaigns[id].id == id
  }

  /** A campaign's spend is given out to its n links: what its risk rows show sums to it within n half-cents. */
  lemma SpendIsSpread(campaigns: map<int, Campaign>, links: seq<Link>, rows: seq<SkuRow>, upper: int, sort: RiskSort,
                      desc: bool,
                      ranked: seq<RiskRow>, id: int)
    requires KeyedById(campaigns) && RankedRisks(ranked, campaigns, links, rows, upper, sort, desc)
    requires id in campaigns && FlatMap(links, WithKey(LinkCampaign(), id)) != []
    ensures var n := |FlatMap(links, WithKey(LinkCampaign(), id))|;
      -n <= 2 * (Sum(ranked, SpendIn(id)) - campaigns[id].spendCents) <= n
  {
    var f := RisksOf(campaigns, links, rows, upper);
    var n := |FlatMap(links, WithKey(LinkCampaign(), id))|;
    var share := Nearest(SpendPerSku(campaigns[id].spendCents, n));
    SumPermuted(ranked, FlatMap(links, f), SpendIn(id));
    forall link: Link
      ensures Sum(f(link), SpendIn(id)) == ShareIn(id, share)(link)
    {
      OneRisk(campaigns, links, rows, upper, id, link);
    }
    SumFlatMap(links, f, SpendIn(id), ShareIn(id, share));
    SharesAdd(links, id, share);
    SharesOfSpend(campaigns[id].spendCents, n);
  }

  lemma OneRisk(campaigns: map<int, Campaign>, links: seq<Link>, rows: seq<SkuRow>, upper: int, id: int, link: Link)
    requires KeyedById(campaigns) && id in campaigns
    ensures Sum(RisksOf(campaigns, links, rows, upper)(link), SpendIn(id))
         == ShareIn(id, Nearest(SpendPerSku(campaigns[id].spendCents,
                                            |FlatMap(links, WithKey(LinkCampaign(), id))|)))(link)
  {
    hide Nearest, SpendPerSku, FlatMap, Pick;
    var risks := RisksOf(campaigns, links, rows, upper)(link);
    if link.campaignId in campaigns {
      assert risks == [risks[0]] && risks[..0] == [];
      assert risks[0].campaignId == link.campaignId;
    }
  }

  lemma {:induction false} SharesAdd(links: seq<Link>, id: int, share: int)
    ensures Sum(links, ShareIn(id, share)) == |FlatMap(links, WithKey(LinkCampaign(), id))| * share
  {
    if links == [] {
    } else {
      var front := links[..|links| - 1];
      SharesAdd(front, id, share);
      var n := |FlatMap(front, WithKey(LinkCampaign(), id))|;
      assert (n + 1) * share == n * share + share;
    }
  }

  lemma SharesOfSpend(spendCents: int, n: int)
    requires n > 0
    ensures -n <= 2 * (n * Nearest(SpendPerSku(spendCents, n)) - spendCents) <= n
  {
    hide Nearest, SpendPerSku;
    var exact := SpendPerSku(spendCents, n);
    var share := Nearest(exact);
    ExactShare(spendCents, n);
    ProductAsReal(n, share);
    ShareBound(n as real, share as real, exact, (n * share) as real, spendCents as real);
    WithinHalf(n * share, spendCents, n);
  }

  lemma ShareBound(n: real, share: real, exact: real, total: real, spend: real)
    requires n >= 0.0 && -0.5 <= share - exact <= 0.5 && total == n * share && spend == n * exact
    ensures -n <= 2.0 * (total - spend) <= n
  {
    var up, down := 0.5 - (share - exact), 0.5 + (share - exact);
    RealNonNegative(n, up);
    RealNonNegative(n, down);
    assert share + up == exact + 0.5 && exact + down == share + 0.5;
    RealDistributes(n, share, up);
    RealDistributes(n, exact, 0.5);
    RealDistributes(n, exact, down);
    RealDistributes(n, share, 0.5);
  }

  lemma RealNonNegative(x: real, y: real)
    requires x >= 0.0 && y >= 0.0
    ensures x * y >= 0.0
  {
  }

  lemma WithinHalf(x: int, y: int, n: int)
    requires -(n as real) <= 2.0 * (x as real - y as real) <= n as real
    ensures -n <= 2 * (x - y) <= n
  {
  }

  lemma RealDistributes(x: real, y: real, z: real)
    ensures x * (y + z) == x * y + x * z
  {
  }

  lemma ProductAsReal(x: int, y: int)
    ensures (x * y) as real == x as real * y as real
  {
  }

  lemma ExactShare(spendCents: int, n: nat)
    requires n > 0
    ensures n as real * SpendPerSku(spendCents, n) == spendCents as real
  {
  }

  // ---------------------------------------------------------------- when the risk rows have one order

  /** Rows of one product and sort value are the same row. */
  ghost predicate TieFree(risks: seq<RiskRow>, sort: RiskSort) {
    forall i, j | 0 <= i < |risks| && 0 <= j < |risks|
          && risks[i].productId == risks[j].productId && RiskValue(risks[i], sort) == RiskValue(risks[j], sort) ::
      risks[i] == risks[j]
  }

  lemma TieFreeDecides(risks: seq<RiskRow>, sort: RiskSort, desc: bool)
    ensures Decides(risks, RiskOrder(sort, desc)) <==> TieFree(risks, sort)
  {
    hide RiskValue;
    var less := RiskOrder(sort, desc);
    forall i, j | 0 <= i < |risks| && 0 <= j < |risks|
      ensures (!less(risks[i], risks[j]) && !less(risks[j], risks[i]))
         <==> (risks[i].productId == risks[j].productId && RiskValue(risks[i], sort) == RiskValue(risks[j], sort))
    {
    }
  }

  lemma ByValueWeakOrder(sort: RiskSort, desc: bool)
    ensures WeakOrder(RiskOrder(sort, desc))
  {
    hide RiskValue;
  }

  lemma OneRankingIff(campaigns: map<int, Campaign>, links: seq<Link>, rows: seq<SkuRow>, upper: int,
                      sort: RiskSort, desc: bool)
    ensures (forall ys, zs | RankedRisks(ys, campaigns, links, rows, upper, sort, desc)
                          && RankedRisks(zs, campaigns, links, rows, upper, sort, desc) :: ys == zs)
       <==> TieFree(FlatMap(links, RisksOf(campaigns, links, rows, upper)), sort)
  {
    var risks, less := FlatMap(links, RisksOf(campaigns, links, rows, upper)), RiskOrder(sort, desc);
    ByValueWeakOrder(sort, desc);
    hide FlatMap, RisksOf, Sorted, RiskOrder, TieFree, Decides, WeakOrder;
    TieFreeDecides(risks, sort, desc);
    SortDetermined(risks, less);
    if TieFree(risks, sort) {
      forall ys, zs | RankedRisks(ys, campaigns, links, rows, upper, sort, desc)
                   && RankedRisks(zs, campaigns, links, rows, upper, sort, desc)
        ensures ys == zs
      {
      }
    } else {
      var ys, zs :| multiset(ys) == multiset(risks) == multiset(zs) && Sorted(ys, less) && Sorted(zs, less) && ys != zs;
      assert RankedRisks(ys, campaigns, links, rows, upper, sort, desc);
      assert RankedRisks(zs, campaigns, links, rows, upper, sort, desc);
    }
  }

  /** What a risk row shows of a campaign's spend: the share of one of its links, rounded to cents. */
  function ShareCents(campaigns: map<int, Campaign>, links: seq<Link>, id: int): int
    requires id in campaigns
  {
    Nearest(SpendPerSku(campaigns[id].spendCents, |FlatMap(links, WithKey(LinkCampaign(), id))|))
  }

  /** Two links of different known campaigns advertise one product and, for the order by spend, get equal shares. */
  predicate TiedLinks(campaigns: map<int, Campaign>, links: seq<Link>, sort: RiskSort, k: nat, l: nat)
    requires k < |links| && l < |links|
  {
    && links[k].campaignId in campaigns && links[l].campaignId in campaigns
    && links[k].campaignId != links[l].campaignId && links[k].productId == links[l].productId
    && (sort == RiskBySpend ==>
          ShareCents(campaigns, links, links[k].campaignId) == ShareCents(campaigns, links, links[l].campaignId))
  }

  lemma LinkRow(campaigns: map<int, Campaign>, links: seq<Link>, rows: seq<SkuRow>, upper: int, link: Link)
      returns (risk: RiskRow)
    requires KeyedById(campaigns) && link.campaignId in campaigns
    ensures RisksOf(campaigns, links, rows, upper)(link) == [risk]
    ensures risk.productId == link.productId && risk.campaignId == link.campaignId
    ensures risk.spendCents == ShareCents(campaigns, links, link.campaignId)
    ensures risk.stock == ResolveStock(NewestOf(rows, upper, link.productId))
    ensures risk.trend
         == ResolveSalesTrend(NewestOf(rows, upper, link.productId), PreviousOf(rows, upper, link.productId))
  {
    hide FlatMap, Pick, SpendPerSku, Nearest, ResolveStock, ResolveSalesTrend, ResolveAdWaste, ReasonsOf;
    risk := RisksOf(campaigns, links, rows, upper)(link)[0];
  }

  lemma SameLinkSameRow(campaigns: map<int, Campaign>, links: seq<Link>, rows: seq<SkuRow>, upper: int,
                        a: Link, b: Link)
    ensures a.campaignId == b.campaignId && a.productId == b.productId ==>
      RisksOf(campaigns, links, rows, upper)(a) == RisksOf(campaigns, links, rows, upper)(b)
  {
    hide FlatMap, Pick, RiskOf, SpendPerSku;
  }

  /** Tied links yield different rows of one product and sort value. */
  lemma LinksTie(campaigns: map<int, Campaign>, links: seq<Link>, rows: seq<SkuRow>, upper: int, sort: RiskSort,
                 k: nat, l: nat)
    requires KeyedById(campaigns) && k < |links| && l < |links| && TiedLinks(campaigns, links, sort, k, l)
    ensures !TieFree(FlatMap(links, RisksOf(campaigns, links, rows, upper)), sort)
  {
    hide FlatMap, RisksOf, ShareCents, ResolveStock, ResolveSalesTrend, NewestOf, PreviousOf, TieFree;
    var f := RisksOf(campaigns, links, rows, upper);
    var a := LinkRow(campaigns, links, rows, upper, links[k]);
    var b := LinkRow(campaigns, links, rows, upper, links[l]);
    FlatMapHas(links, f, k, a);
    FlatMapHas(links, f, l, b);
    assert RiskValue(a, sort) == RiskValue(b, sort);
    TwoTie(FlatMap(links, f), sort, a, b);
  }

  lemma TwoTie(risks: seq<RiskRow>, sort: RiskSort, a: RiskRow, b: RiskRow)
    requires a in risks && b in risks && a != b
    requires a.productId == b.productId && RiskValue(a, sort) == RiskValue(b, sort)
    ensures !TieFree(risks, sort)
  {
    hide RiskValue;
    var i :| 0 <= i < |risks| && risks[i] == a;
    var j :| 0 <= j < |risks| && risks[j] == b;
  }

  /** And different rows that tie come from tied links. */
  lemma TieHasLinks(campaigns: map<int, Campaign>, links: seq<Link>, rows: seq<SkuRow>, upper: int, sort: RiskSort)
      returns (k: nat, l: nat)
    requires KeyedById(campaigns) && !TieFree(FlatMap(links, RisksOf(campaigns, links, rows, upper)), sort)
    ensures k < |links| && l < |links| && TiedLinks(campaigns, links, sort, k, l)
  {
    var f := RisksOf(campaigns, links, rows, upper);
    var risks := FlatMap(links, f);
    var i, j :| 0 <= i < |risks| && 0 <= j < |risks| && risks[i].productId == risks[j].productId
             && RiskValue(risks[i], sort) == RiskValue(risks[j], sort) && risks[i] != risks[j];
    k := FlatMapFrom(links, f, risks[i]);
    l := FlatMapFrom(links, f, risks[j]);
    assert links[k].campaignId in campaigns && links[l].campaignId in campaigns;
    var a := LinkRow(campaigns, links, rows, upper, links[k]);
    var b := LinkRow(campaigns, links, rows, upper, links[l]);
    hide FlatMap, RisksOf, ShareCents;
    assert a == risks[i] && b == risks[j];
    SameLinkSameRow(campaigns, links, rows, upper, links[k], links[l]);
  }

  /** Any two rankings of the risk rows are equal exactly when no two links tie. Stock and trend are the product's
      own, so for those orders every product linked to two known campaigns ties. */
  lemma RiskOrderDetermined(campaigns: map<int, Campaign>, links: seq<Link>, rows: seq<SkuRow>, upper: int,
                            sort: RiskSort, desc: bool)
    requires KeyedById(campaigns)
    ensures (forall ys, zs | RankedRisks(ys, campaigns, links, rows, upper, sort, desc)
                          && RankedRisks(zs, campaigns, links, rows, upper, sort, desc) :: ys == zs)
       <==> (forall k: nat, l: nat | k < |links| && l < |links| :: !TiedLinks(campaigns, links, sort, k, l))
  {
    OneRankingIff(campaigns, links, rows, upper, sort, desc);
    hide FlatMap, RisksOf, RankedRisks, TieFree, TiedLinks;
    if k: nat, l: nat :| k < |links| && l < |links| && TiedLinks(campaigns, links, sort, k, l) {
      LinksTie(campaigns, links, rows, upper, sort, k, l);
    } else if !TieFree(FlatMap(links, RisksOf(campaigns, links, rows, upper)), sort) {
      var k, l := TieHasLinks(campaigns, links, rows, upper, sort);
    }
  }

  /** A product advertised by two campaigns of the same spend: its two risk rows tie, so their order, and which
      of them a page of one row holds, is up to the sort and the map iteration that fed it. */
  lemma SameProductTwoCampaigns(first: Campaign, second: Campaign, rows: seq<SkuRow>, upper: int, p: int, desc: bool)
    requires first.id != second.id && first.spendCents == second.spendCents
    ensures var campaigns, links :=
      map[first.id := first, second.id := second], [Link(first.id, p), Link(second.id, p)];
      exists ys, zs :: RankedRisks(ys, campaigns, links, rows, upper, RiskBySpend, desc)
                    && RankedRisks(zs, campaigns, links, rows, upper, RiskBySpend, desc)
                    && ApplyPagination(ys, 0, 1) != ApplyPagination(zs, 0, 1)
  {
    var campaigns, links := map[first.id := first, second.id := second], [Link(first.id, p), Link(second.id, p)];
    var newest, previous := NewestOf(rows, upper, p), PreviousOf(rows, upper, p);
    var share := SpendPerSku(first.spendCents, 1);
    hide RiskOf, RisksOf, FlatMap, RankedRisks, Pick, SpendPerSku;
    var x, y := RiskOf(first, share, p, newest, previous), RiskOf(second, share, p, newest, previous);
    RiskFields(first, share, p, newest, previous);
    RiskFields(second, share, p, newest, previous);
    TwoLinks(first, second, rows, upper, p);
    TiedPair(x, y, campaigns, links, rows, upper, desc);
    FirstOfTwo(x, y);
    FirstOfTwo(y, x);
  }

  lemma RiskFields(campaign: Campaign, share: real, p: int, newest: SkuRow, previous: SkuRow)
    ensures var risk := RiskOf(campaign, share, p, newest, previous);
      risk.productId == p && risk.campaignId == campaign.id && risk.spendCents == Nearest(share)
  {
  }

  lemma FirstOfTwo(x: RiskRow, y: RiskRow)
    ensures ApplyPagination([x, y], 0, 1) == [x]
  {
  }

  lemma TiedPair(x: RiskRow, y: RiskRow, campaigns: map<int, Campaign>, links: seq<Link>, rows: seq<SkuRow>, upper: int,
                 desc: bool)
    requires x.productId == y.productId && x.spendCents == y.spendCents
    requires FlatMap(links, RisksOf(campaigns, links, rows, upper)) == [x, y]
    ensures RankedRisks([x, y], campaigns, links, rows, upper, RiskBySpend, desc)
    ensures RankedRisks([y, x], campaigns, links, rows, upper, RiskBySpend, desc)
  {
    hide FlatMap, RisksOf;
    var less := RiskOrder(RiskBySpend, desc);
    assert !less(x, y) && !less(y, x);
    assert Sorted([x, y], less) && Sorted([y, x], less);
    assert multiset([x, y]) == multiset([y, x]);
  }

  lemma TwoLinks(first: Campaign, second: Campaign, rows: seq<SkuRow>, upper: int, p: int)
    requires first.id != second.id && first.spendCents == second.spendCents
    ensures var campaigns, links :=
      map[first.id := first, second.id := second], [Link(first.id, p), Link(second.id, p)];
      FlatMap(links, RisksOf(campaigns, links, rows, upper))
      == [RiskOf(first, SpendPerSku(first.spendCents, 1), p, NewestOf(rows, upper, p), PreviousOf(rows, upper, p)),
          RiskOf(second, SpendPerSku(first.spendCents, 1), p, NewestOf(rows, upper, p), PreviousOf(rows, upper, p))]
  {
    hide RiskOf, Pick, SpendPerSku;
    var campaigns, links := map[first.id := first, second.id := second], [Link(first.id, p), Link(second.id, p)];
    var f := RisksOf(campaigns, links, rows, upper);
    assert links[..1] == [Link(first.id, p)] && links[..1][..0] == [];
    OfTwo(links[0], links[1], WithKey(LinkCampaign(), first.id));
    OfTwo(links[0], links[1], WithKey(LinkCampaign(), second.id));
    OfTwo(links[0], links[1], f);
  }

  lemma OfTwo<X, R>(x: X, y: X, f: X -> seq<R>)
    ensures FlatMap([x, y], f) == f(x) + f(y)
  {
    assert [x, y][..1] == [x] && [x][..0] == [];
    assert FlatMap([x], f) == f(x);
  }
}
