/** The four rule evaluators. Each walks its inputs, collects the alerts its rules raise, and counts the
    rule applications that raised none. */
module AlertRules {
  import opened Wrappers
  import opened Text
  import opened Batches
  import opened AlertTypes

  /** One rule application: its alert is collected, or the application is counted as skipped. */
  method Tally(results: seq<RuleResult>, skipped: nat, outcome: Option<RuleResult>)
      returns (results': seq<RuleResult>, skipped': nat)
    ensures results' == results + Emit(outcome)
    ensures |results'| + skipped' == |results| + skipped + 1
  {
    if outcome.Some? {
      results', skipped' := results + [outcome.value], skipped;
    } else {
      results', skipped' := results, skipped + 1;
    }
  }

  lemma ConcatAssociative(a: seq<RuleResult>, b: seq<RuleResult>, c: seq<RuleResult>)
    ensures a + b + c == a + (b + c)
  {
  }

  // ---------------------------------------------------------------- sales

  const SALES_DROP_THRESHOLD_PERCENT: real := -30.0
  const SKU_REVENUE_DROP_THRESHOLD_PERCENT: real := -40.0
  const SKU_REVENUE_DROP_MINIMUM_PREVIOUS: real := 1000.0
  const SKU_NEGATIVE_CONTRIBUTION_THRESHOLD: real := 0.20

  /** The change in percent; undefined when there is nothing to compare with. */
  function DeltaPercent(current: real, previous: real): Option<real> {
    if previous == 0.0 then None else Some((current - previous) / previous * 100.0)
  }

  function Abs(x: real): real {
    if x < 0.0 then -x else x
  }

  function UrgencyFor(s: Severity): Urgency {
    if s.SeverityMedium? then UrgencyMedium else UrgencyHigh
  }

  function SeverityBelow(value: real, critical: real, high: real): Severity {
    if value <= critical then SeverityCritical else if value <= high then SeverityHigh else SeverityMedium
  }

  function AccountDrop(t: AlertType, current: real, previous: real, evidence: Evidence): Option<RuleResult> {
    var delta := DeltaPercent(current, previous);
    if delta.None? || previous <= 0.0 || delta.value > SALES_DROP_THRESHOLD_PERCENT then None
    else
      var severity := SeverityBelow(delta.value, -60.0, -40.0);
      Some(RuleResult(t, Sales, Account, None, None, None, severity, UrgencyFor(severity), evidence, ""))
  }

  function AccountEvidence(current: AccountDailyMetric, previous: AccountDailyMetric): Evidence {
    SalesEvidence(current.revenue, previous.revenue, current.orders, previous.orders)
  }

  function SalesRevenueDropRule(current: Option<AccountDailyMetric>,
                                previous: Option<AccountDailyMetric>): Option<RuleResult> {
    if current.None? || previous.None? then None
    else AccountDrop(SalesRevenueDrop, current.value.revenue, previous.value.revenue,
                     AccountEvidence(current.value, previous.value))
  }

  function SalesOrdersDropRule(current: Option<AccountDailyMetric>,
                               previous: Option<AccountDailyMetric>): Option<RuleResult> {
    if current.None? || previous.None? then None
    else AccountDrop(SalesOrdersDrop, current.value.orders as real, previous.value.orders as real,
                     AccountEvidence(current.value, previous.value))
  }

  function SkuResult(t: AlertType, group: AlertGroup, m: SkuDailyMetric, severity: Severity, urgency: Urgency,
                     evidence: Evidence): RuleResult {
    RuleResult(t, group, Sku, Some(Decimal(m.productId)), m.sku, m.offerId, severity, urgency, evidence, "")
  }

  function SkuSalesEvidence(current: SkuDailyMetric, previous: SkuDailyMetric): Evidence {
    SalesEvidence(current.revenue, previous.revenue, current.orders, previous.orders)
  }

  function SkuRevenueDropRule(current: SkuDailyMetric, previous: SkuDailyMetric): Option<RuleResult> {
    var delta := DeltaPercent(current.revenue, previous.revenue);
    if previous.revenue < SKU_REVENUE_DROP_MINIMUM_PREVIOUS || previous.revenue <= 0.0 then None
    else if delta.None? || delta.value > SKU_REVENUE_DROP_THRESHOLD_PERCENT then None
    else
      var severity := SeverityBelow(delta.value, -70.0, -50.0);
      Some(SkuResult(SkuRevenueDrop, Sales, current, severity, UrgencyFor(severity),
                     SkuSalesEvidence(current, previous)))
  }

  function SkuNegativeContributionRule(current: SkuDailyMetric, previous: SkuDailyMetric,
                                       accountDelta: real): Option<RuleResult> {
    var skuDelta := current.revenue - previous.revenue;
    if accountDelta >= 0.0 || skuDelta >= 0.0 then None
    else
      var share := Abs(skuDelta) / Abs(accountDelta);
      if share < SKU_NEGATIVE_CONTRIBUTION_THRESHOLD then None
      else
        var severity :=
          if share >= 0.50 then SeverityCritical else if share >= 0.30 then SeverityHigh else SeverityMedium;
        Some(SkuResult(SkuNegativeContribution, Sales, current, severity, UrgencyFor(severity),
                       SkuSalesEvidence(current, previous)))
  }

  datatype SalesInput = SalesInput(
    currentAccount: Option<AccountDailyMetric>, previousAccount: Option<AccountDailyMetric>,
    currentSkus: seq<SkuDailyMetric>, previousById: map<int, SkuDailyMetric>)

  function AccountDelta(input: SalesInput): real {
    if input.currentAccount.Some? && input.previousAccount.Some?
    then input.currentAccount.value.revenue - input.previousAccount.value.revenue else 0.0
  }

  /** The sales alerts of one SKU: none when it did not exist the day before. */
  function SkuSalesResults(input: SalesInput): SkuDailyMetric -> seq<RuleResult> {
    (m: SkuDailyMetric) =>
      (if m.productId !in input.previousById then []
       else Emit(SkuRevenueDropRule(m, input.previousById[m.productId]))
            + Emit(SkuNegativeContributionRule(m, input.previousById[m.productId], AccountDelta(input))))
  }

  function AccountSalesResults(input: SalesInput): seq<RuleResult> {
    Emit(SalesRevenueDropRule(input.currentAccount, input.previousAccount))
    + Emit(SalesOrdersDropRule(input.currentAccount, input.previousAccount))
  }

  function SalesResults(input: SalesInput): seq<RuleResult> {
    AccountSalesResults(input) + FlatMap(input.currentSkus, SkuSalesResults(input))
  }

  /** Rule applications: two account rules, two rules per comparable SKU, and one skip for a SKU that
      cannot be compared. */
  function SalesApplications(input: SalesInput): nat {
    2 + SkuApplications(input.currentSkus, input.previousById)
  }

  function SkuApplications(skus: seq<SkuDailyMetric>, previousById: map<int, SkuDailyMetric>): nat {
    if skus == [] then 0
    else SkuApplications(skus[..|skus| - 1], previousById) + if skus[|skus| - 1].productId in previousById then 2 else 1
  }

  method ApplySkuSalesRules(input: SalesInput, current: SkuDailyMetric, accountDelta: real)
      returns (out: seq<RuleResult>, skipped: nat)
    requires accountDelta == AccountDelta(input)
    ensures out == SkuSalesResults(input)(current)
    ensures |out| + skipped == if current.productId in input.previousById then 2 else 1
  {
    hide SkuRevenueDropRule, SkuNegativeContributionRule;
    out, skipped := [], 0;
    if current.productId !in input.previousById {
      return [], 1;
    }
    var previous := input.previousById[current.productId];
    out, skipped := Tally(out, skipped, SkuRevenueDropRule(current, previous));
    out, skipped := Tally(out, skipped, SkuNegativeContributionRule(current, previous, accountDelta));
  }

  method EvaluateSalesRules(input: SalesInput) returns (out: seq<RuleResult>, skipped: nat)
    ensures out == SalesResults(input)
    ensures |out| + skipped == SalesApplications(input)
  {
    hide SalesRevenueDropRule, SalesOrdersDropRule, SkuSalesResults;
    out, skipped := [], 0;
    out, skipped := Tally(out, skipped, SalesRevenueDropRule(input.currentAccount, input.previousAccount));
    out, skipped := Tally(out, skipped, SalesOrdersDropRule(input.currentAccount, input.previousAccount));
    assert out == AccountSalesResults(input);
    ghost var first := out;
    var accountDelta := AccountDelta(input);
    var skus := input.currentSkus;
    for i := 0 to |skus|
      invariant out == first + FlatMap(skus[..i], SkuSalesResults(input))
      invariant |out| + skipped == 2 + SkuApplications(skus[..i], input.previousById)
    {
      assert skus[..i + 1][..i] == skus[..i];
      var found, missed := ApplySkuSalesRules(input, skus[i], accountDelta);
      ConcatAssociative(first, FlatMap(skus[..i], SkuSalesResults(input)), found);
      out, skipped := out + found, skipped + missed;
    }
    assert skus[..|skus|] == skus;
  }

  // ---------------------------------------------------------------- stock

  const STOCK_LOW_COVERAGE_DAYS: real := 7.0
  const STOCK_OOS_RISK_DAYS: real := 3.0
  const KEY_SKU_REVENUE: real := 10000.0
  const KEY_SKU_ORDERS := 5

  function CoverAtMost(m: SkuDailyMetric, days: real): bool {
    m.daysOfCover.Some? && m.daysOfCover.value <= days
  }

  function CoverOrZero(m: SkuDailyMetric): real {
    if m.daysOfCover.Some? then m.daysOfCover.value else 0.0
  }

  function StockResult(t: AlertType, m: SkuDailyMetric, severity: Severity, urgency: Urgency): RuleResult {
    SkuResult(t, Stock, m, severity, urgency, StockEvidence(CoverOrZero(m), m.currentStock))
  }

  function StockLowCoverageRule(m: SkuDailyMetric): Option<RuleResult> {
    if m.currentStock <= 0 || m.daysOfCover.None? then None
    else
      var days := m.daysOfCover.value;
      if days > STOCK_LOW_COVERAGE_DAYS || days <= STOCK_OOS_RISK_DAYS then None
      else
        var severity := if days < 2.0 then SeverityCritical else if days <= 3.0 then SeverityHigh else SeverityMedium;
        Some(StockResult(StockLowCoverage, m, severity, if days <= 3.0 then UrgencyHigh else UrgencyMedium))
  }

  function StockOosRiskRule(m: SkuDailyMetric): Option<RuleResult> {
    if m.currentStock > 0 && !CoverAtMost(m, STOCK_OOS_RISK_DAYS) then None
    else
      var severity :=
        if m.currentStock <= 0 || (m.daysOfCover.Some? && m.daysOfCover.value < 1.0) then SeverityCritical
        else SeverityHigh;
      var urgency :=
        if m.currentStock <= 0 then UrgencyImmediate
        else if CoverAtMost(m, STOCK_OOS_RISK_DAYS) then UrgencyHigh
        else UrgencyMedium;
      Some(StockResult(StockOosRisk, m, severity, urgency))
  }

  function StockCriticalSkuRule(m: SkuDailyMetric): Option<RuleResult> {
    if m.revenue < KEY_SKU_REVENUE && m.orders < KEY_SKU_ORDERS then None
    else if m.currentStock > 0 && !CoverAtMost(m, STOCK_LOW_COVERAGE_DAYS) then None
    else
      var severity :=
        if m.currentStock <= 0 || CoverAtMost(m, STOCK_OOS_RISK_DAYS) then SeverityCritical else SeverityHigh;
      Some(StockResult(StockCriticalSkuLowStock, m, severity,
                       if m.currentStock <= 0 then UrgencyImmediate else UrgencyHigh))
  }

  function SkuStockResults(): SkuDailyMetric -> seq<RuleResult> {
    (m: SkuDailyMetric) => Emit(StockOosRiskRule(m)) + Emit(StockLowCoverageRule(m)) + Emit(StockCriticalSkuRule(m))
  }

  function StockResults(skus: seq<SkuDailyMetric>): seq<RuleResult> {
    FlatMap(skus, SkuStockResults())
  }

  /** Three rules per SKU; with no SKU at all, one application is counted as skipped. */
  function StockApplications(skus: seq<SkuDailyMetric>): nat {
    if skus == [] then 1 else 3 * |skus|
  }

  method ApplyStockRules(m: SkuDailyMetric) returns (results: seq<RuleResult>, skipped: nat)
    ensures results == SkuStockResults()(m)
    ensures |results| + skipped == 3
  {
    hide StockOosRiskRule, StockLowCoverageRule, StockCriticalSkuRule;
    results, skipped := [], 0;
    results, skipped := Tally(results, skipped, StockOosRiskRule(m));
    results, skipped := Tally(results, skipped, StockLowCoverageRule(m));
    results, skipped := Tally(results, skipped, StockCriticalSkuRule(m));
  }

  method EvaluateStockRules(skus: seq<SkuDailyMetric>) returns (results: seq<RuleResult>, skipped: nat)
    ensures results == StockResults(skus)
    ensures |results| + skipped == StockApplications(skus)
  {
    hide SkuStockResults;
    if skus == [] {
      return [], 1;
    }
    results, skipped := [], 0;
    for i := 0 to |skus|
      invariant results == FlatMap(skus[..i], SkuStockResults())
      invariant |results| + skipped == 3 * i
    {
      assert skus[..i + 1][..i] == skus[..i];
      var found, missed := ApplyStockRules(skus[i]);
      results, skipped := results + found, skipped + missed;
    }
    assert skus[..|skus|] == skus;
  }

  /** A SKU never raises both the out-of-stock and the low-coverage alert, and a key SKU never raises its
      alert without exactly one of them. */
  lemma StockRulesDoNotDuplicate(m: SkuDailyMetric)
    ensures StockOosRiskRule(m).None? || StockLowCoverageRule(m).None?
    ensures StockCriticalSkuRule(m).Some? ==> StockOosRiskRule(m).Some? || StockLowCoverageRule(m).Some?
  {
  }

  // ---------------------------------------------------------------- advertising

  const AD_SPEND_WITHOUT_RESULT: real := 1000.0
  const AD_WEAK_ROAS: real := 1.0
  const AD_LOW_STOCK_DAYS: real := 7.0

  function CampaignResult(t: AlertType, c: CampaignSummary, severity: Severity): RuleResult {
    RuleResult(t, Advertising, Campaign, Some(Decimal(c.campaignId)), None, None, severity, UrgencyFor(severity),
               AdEvidence(c.campaignId, c.spend, c.orders, c.revenue), "")
  }

  function AdSpendWithoutResultRule(c: CampaignSummary): Option<RuleResult> {
    if c.spend < AD_SPEND_WITHOUT_RESULT || (c.orders > 0 && c.revenue > 0.0) then None
    else
      var severity :=
        if c.spend >= 10000.0 then SeverityCritical else if c.spend >= 3000.0 then SeverityHigh else SeverityMedium;
      Some(CampaignResult(AdSpendWithoutResult, c, severity))
  }

  function AdWeakEfficiencyRule(c: CampaignSummary): Option<RuleResult> {
    if c.spend <= 0.0 || c.revenue <= 0.0 then None
    else
      var roas := c.revenue / c.spend;
      if roas >= AD_WEAK_ROAS then None
      else
        var severity := if roas < 0.3 then SeverityCritical else if roas < 0.75 then SeverityHigh else SeverityMedium;
        Some(CampaignResult(AdWeakCampaignEfficiency, c, severity))
  }

  function AdBudgetOnLowStockRule(c: CampaignSummary, m: SkuDailyMetric): Option<RuleResult> {
    if m.currentStock > 0 && !CoverAtMost(m, AD_LOW_STOCK_DAYS) then None
    else
      var severity :=
        if m.currentStock <= 0 then SeverityCritical else if CoverAtMost(m, 3.0) then SeverityHigh else SeverityMedium;
      var urgency :=
        if m.currentStock <= 0 then UrgencyImmediate else if CoverAtMost(m, 3.0) then UrgencyHigh else UrgencyMedium;
      Some(SkuResult(AdBudgetOnLowStockSku, Advertising, m, severity, urgency,
                     AdEvidence(c.campaignId, c.spend, c.orders, c.revenue)))
  }

  datatype AdInput = AdInput(campaigns: seq<CampaignSummary>, links: seq<CampaignSkuLink>, skus: seq<SkuDailyMetric>)

  function CampaignId(): CampaignSummary -> int {
    (c: CampaignSummary) => c.campaignId
  }

  function ProductId(): SkuDailyMetric -> int {
    (m: SkuDailyMetric) => m.productId
  }

  function CampaignResults(): CampaignSummary -> seq<RuleResult> {
    (c: CampaignSummary) => Emit(AdSpendWithoutResultRule(c)) + Emit(AdWeakEfficiencyRule(c))
  }

  /** An active link of a known, spending campaign to a known SKU that is low on stock. */
  function LinkRule(link: CampaignSkuLink, campaigns: map<int, CampaignSummary>,
                    skus: map<int, SkuDailyMetric>): Option<RuleResult> {
    if link.campaignId !in campaigns || campaigns[link.campaignId].spend <= 0.0 || !link.isActive then None
    else if link.productId !in skus then None
    else AdBudgetOnLowStockRule(campaigns[link.campaignId], skus[link.productId])
  }

  function LinkResults(input: AdInput): CampaignSkuLink -> seq<RuleResult> {
    var campaigns, skus := IndexBy(input.campaigns, CampaignId()), IndexBy(input.skus, ProductId());
    (link: CampaignSkuLink) => Emit(LinkRule(link, campaigns, skus))
  }

  function AdvertisingResults(input: AdInput): seq<RuleResult> {
    FlatMap(input.campaigns, CampaignResults()) + FlatMap(input.links, LinkResults(input))
  }

  /** Two rules per campaign and one per link. */
  function AdvertisingApplications(input: AdInput): nat {
    2 * |input.campaigns| + |input.links|
  }

  method ApplyCampaignRules(c: CampaignSummary) returns (results: seq<RuleResult>, skipped: nat)
    ensures results == CampaignResults()(c)
    ensures |results| + skipped == 2
  {
    hide AdSpendWithoutResultRule, AdWeakEfficiencyRule;
    results, skipped := [], 0;
    results, skipped := Tally(results, skipped, AdSpendWithoutResultRule(c));
    results, skipped := Tally(results, skipped, AdWeakEfficiencyRule(c));
  }

  method ApplyLinkRule(link: CampaignSkuLink, campaigns: map<int, CampaignSummary>, skus: map<int, SkuDailyMetric>)
      returns (results: seq<RuleResult>, skipped: nat)
    ensures results == Emit(LinkRule(link, campaigns, skus))
    ensures |results| + skipped == 1
  {
    hide AdBudgetOnLowStockRule;
    if link.campaignId !in campaigns || campaigns[link.campaignId].spend <= 0.0 || !link.isActive {
      return [], 1;
    }
    if link.productId !in skus {
      return [], 1;
    }
    results, skipped := Tally([], 0, AdBudgetOnLowStockRule(campaigns[link.campaignId], skus[link.productId]));
  }

  method EvaluateAdvertisingRules(input: AdInput) returns (results: seq<RuleResult>, skipped: nat)
    ensures results == AdvertisingResults(input)
    ensures |results| + skipped == AdvertisingApplications(input)
  {
    hide CampaignResults, LinkRule;
    results, skipped := [], 0;
    var campaigns, links := input.campaigns, input.links;
    for i := 0 to |campaigns|
      invariant results == FlatMap(campaigns[..i], CampaignResults())
      invariant |results| + skipped == 2 * i
    {
      assert campaigns[..i + 1][..i] == campaigns[..i];
      var found, missed := ApplyCampaignRules(campaigns[i]);
      results, skipped := results + found, skipped + missed;
    }
    assert campaigns[..|campaigns|] == campaigns;
    var campaignById := IndexRows(campaigns, CampaignId());
    var skuByProductId := IndexRows(input.skus, ProductId());
    ghost var first := results;
    for i := 0 to |links|
      invariant results == first + FlatMap(links[..i], LinkResults(input))
      invariant |results| + skipped == 2 * |campaigns| + i
    {
      assert links[..i + 1][..i] == links[..i];
      var found, missed := ApplyLinkRule(links[i], campaignById, skuByProductId);
      ConcatAssociative(first, FlatMap(links[..i], LinkResults(input)), found);
      results, skipped := results + found, skipped + missed;
    }
    assert links[..|links|] == links;
  }

  // ---------------------------------------------------------------- price and economics

  const MARGIN_RISK: real := 0.10
  const KEY_SKU_REVENUE_FLOOR: real := 10000.0
  const KEY_SKU_ORDERS_FLOOR := 5

  function PriceResult(t: AlertType, p: PricingContext, severity: Severity, urgency: Urgency,
                       evidence: Evidence): RuleResult {
    RuleResult(t, PriceEconomics, Product, Some(Decimal(p.productId)), p.sku, p.offerId, severity, urgency, evidence,
               "")
  }

  function FullPriceEvidence(p: PricingContext): Evidence {
    PriceEvidence(if p.referencePrice.Some? then p.referencePrice.value else 0.0, p.minPrice, p.maxPrice, p.impliedCost)
  }

  predicate HasPrice(p: PricingContext) {
    p.referencePrice.Some? && p.referencePrice.value > 0.0
  }

  function PriceBelowMinRule(p: PricingContext): Option<RuleResult> {
    if !HasPrice(p) || p.minPrice.None? || p.referencePrice.value >= p.minPrice.value then None
    else
      var deltaPercent := (p.referencePrice.value - p.minPrice.value) / p.minPrice.value * 100.0;
      Some(if deltaPercent <= -10.0 then PriceResult(PriceBelowMinConstraint, p, SeverityCritical, UrgencyImmediate,
                                                     FullPriceEvidence(p))
           else PriceResult(PriceBelowMinConstraint, p, SeverityHigh, UrgencyHigh, FullPriceEvidence(p)))
  }

  /** More than ten percent above the maximum. A zero maximum makes the floating-point quotient infinite. */
  predicate FarAboveMax(price: real, max: real) {
    max == 0.0 || (price - max) / max * 100.0 > 10.0
  }

  function PriceAboveMaxRule(p: PricingContext): Option<RuleResult> {
    if !HasPrice(p) || p.maxPrice.None? || p.referencePrice.value <= p.maxPrice.value then None
    else
      Some(if FarAboveMax(p.referencePrice.value, p.maxPrice.value)
           then PriceResult(PriceAboveMaxConstraint, p, SeverityHigh, UrgencyHigh, FullPriceEvidence(p))
           else PriceResult(PriceAboveMaxConstraint, p, SeverityMedium, UrgencyMedium, FullPriceEvidence(p)))
  }

  /** Rounded to six decimals, halves away from zero. */
  function Round6(x: real): real {
    if x >= 0.0 then (x * 1000000.0 + 0.5).Floor as real / 1000000.0
    else -((-x * 1000000.0 + 0.5).Floor as real / 1000000.0)
  }

  function ExpectedMargin(price: real, cost: real): Option<real> {
    if price <= 0.0 || cost < 0.0 then None else Some(Round6((price - cost) / price))
  }

  function MarginRiskRule(p: PricingContext): Option<RuleResult> {
    if !HasPrice(p) || p.impliedCost.None? then None
    else
      var margin := ExpectedMargin(p.referencePrice.value, p.impliedCost.value);
      if margin.None? || margin.value >= MARGIN_RISK then None
      else if margin.value < 0.0 then Some(PriceResult(MarginRiskAtCurrentPrice, p, SeverityCritical, UrgencyImmediate,
                                                       FullPriceEvidence(p)))
      else if margin.value < 0.05 then Some(PriceResult(MarginRiskAtCurrentPrice, p, SeverityHigh, UrgencyHigh,
                                                        FullPriceEvidence(p)))
      else Some(PriceResult(MarginRiskAtCurrentPrice, p, SeverityMedium, UrgencyMedium, FullPriceEvidence(p)))
  }

  function MissingConstraintsRule(p: PricingContext): Option<RuleResult> {
    if p.hasConstraint || (p.revenue < KEY_SKU_REVENUE_FLOOR && p.orders < KEY_SKU_ORDERS_FLOOR) then None
    else
      var evidence := PriceEvidence(if p.referencePrice.Some? then p.referencePrice.value else 0.0, None, None, None);
      Some(if p.revenue >= 30000.0 || p.orders >= 15
           then PriceResult(MissingPricingConstraintsForKeySku, p, SeverityHigh, UrgencyHigh, evidence)
           else PriceResult(MissingPricingConstraintsForKeySku, p, SeverityMedium, UrgencyMedium, evidence))
  }

  function ProductPriceResults(): PricingContext -> seq<RuleResult> {
    (p: PricingContext) =>
      Emit(PriceBelowMinRule(p)) + Emit(PriceAboveMaxRule(p))
      + Emit(MarginRiskRule(p)) + Emit(MissingConstraintsRule(p))
  }

  function PriceResults(products: seq<PricingContext>): seq<RuleResult> {
    FlatMap(products, ProductPriceResults())
  }

  method ApplyPriceRules(p: PricingContext) returns (results: seq<RuleResult>, skipped: nat)
    ensures results == ProductPriceResults()(p)
    ensures |results| + skipped == 4
  {
    hide PriceBelowMinRule, PriceAboveMaxRule, MarginRiskRule, MissingConstraintsRule;
    results, skipped := [], 0;
    results, skipped := Tally(results, skipped, PriceBelowMinRule(p));
    results, skipped := Tally(results, skipped, PriceAboveMaxRule(p));
    results, skipped := Tally(results, skipped, MarginRiskRule(p));
    results, skipped := Tally(results, skipped, MissingConstraintsRule(p));
  }

  method EvaluatePriceEconomicsRules(products: seq<PricingContext>) returns (results: seq<RuleResult>, skipped: nat)
    ensures results == PriceResults(products)
    ensures |results| + skipped == 4 * |products|
  {
    hide ProductPriceResults;
    results, skipped := [], 0;
    for i := 0 to |products|
      invariant results == FlatMap(products[..i], ProductPriceResults())
      invariant |results| + skipped == 4 * i
    {
      assert products[..i + 1][..i] == products[..i];
      var found, missed := ApplyPriceRules(products[i]);
      results, skipped := results + found, skipped + missed;
    }
    assert products[..|products|] == products;
  }

  /** The pricing context of a product: its own row, completed from its constraint and its day's sales. */
  function PricingContextOf(p: ProductRow, constraints: map<int, EffectiveConstraint>,
                            metrics: map<int, SkuDailyMetric>): PricingContext {
    var bare := PricingContext(p.productId, p.sku, p.offerId, p.referencePrice, None, None, None, 0.0, 0, false);
    var priced :=
      if p.productId !in constraints then bare
      else
        var c := constraints[p.productId];
        bare.(hasConstraint := true, minPrice := c.minPrice, maxPrice := c.maxPrice, impliedCost := c.impliedCost,
              sku := if bare.sku.None? then c.sku else bare.sku,
              offerId := if bare.offerId.None? then c.offerId else bare.offerId);
    if p.productId !in metrics then priced
    else priced.(revenue := metrics[p.productId].revenue, orders := metrics[p.productId].orders)
  }

  /** On contexts built from the tables, a product reported for missing constraints is never also
      reported against a constraint or a margin. */
  lemma MissingConstraintsStandsAlone(p: ProductRow, constraints: map<int, EffectiveConstraint>,
                                      metrics: map<int, SkuDailyMetric>)
    ensures var c := PricingContextOf(p, constraints, metrics);
      MissingConstraintsRule(c).Some? ==> ProductPriceResults()(c) == [MissingConstraintsRule(c).value]
  {
  }
}
