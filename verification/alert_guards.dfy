/** When each alert rule fires and how severe its alert is, in the figures it looks at. Thresholds on quotients are
    written as inequalities between multiples. */
module AlertGuards {
  import opened Wrappers
  import opened Text
  import opened Batches
  import opened AlertTypes
  import opened AlertRules

  /** Critical or high under the two conditions, the stronger first, and medium otherwise; urgent unless medium. */
  ghost predicate Graded(r: RuleResult, critical: bool, high: bool) {
    && (r.severity == SeverityCritical <==> critical)
    && (r.severity == SeverityHigh <==> high && !critical)
    && (r.urgency == UrgencyHigh <==> critical || high)
    && (r.urgency == UrgencyMedium <==> !critical && !high)
  }

  /** As severe and as urgent, where the most severe needs action at once. */
  ghost predicate GradedAtOnce(r: RuleResult, atOnce: bool, critical: bool, high: bool) {
    && (r.severity == SeverityCritical <==> critical)
    && (r.severity == SeverityHigh <==> high && !critical)
    && (r.urgency == UrgencyImmediate <==> atOnce)
    && (r.urgency == UrgencyHigh <==> (critical || high) && !atOnce)
  }

  ghost predicate OfAccount(r: RuleResult, t: AlertType) {
    && r.alertType == t && r.group == Sales && r.entityType == Account
    && r.entityId == None && r.entitySku == None && r.entityOfferId == None
  }

  ghost predicate OfSku(r: RuleResult, t: AlertType, group: AlertGroup, m: SkuDailyMetric) {
    && r.alertType == t && r.group == group && r.entityType == Sku
    && r.entityId == Some(Decimal(m.productId)) && r.entitySku == m.sku && r.entityOfferId == m.offerId
  }

  ghost predicate OfCampaign(r: RuleResult, t: AlertType, c: CampaignSummary) {
    && r.alertType == t && r.group == Advertising && r.entityType == Campaign
    && r.entityId == Some(Decimal(c.campaignId)) && r.entitySku == None && r.entityOfferId == None
    && r.evidence == AdEvidence(c.campaignId, c.spend, c.orders, c.revenue)
  }

  ghost predicate OfProduct(r: RuleResult, t: AlertType, p: PricingContext) {
    && r.alertType == t && r.group == PriceEconomics && r.entityType == Product
    && r.entityId == Some(Decimal(p.productId)) && r.entitySku == p.sku && r.entityOfferId == p.offerId
  }

  // ---------------------------------------------------------------- quotients

  lemma ProductOrder(x: real, y: real, p: real)
    requires p > 0.0
    ensures x * p <= y * p <==> x <= y
    ensures x * p < y * p <==> x < y
  {
  }

  /** A change in percent against a threshold, without the quotient. */
  lemma DeltaAtMost(current: real, previous: real, percent: real)
    requires previous > 0.0
    ensures DeltaPercent(current, previous).Some?
    ensures DeltaPercent(current, previous).value <= percent <==> 100.0 * current <= (100.0 + percent) * previous
  {
    var q := (current - previous) / previous;
    assert q * previous == current - previous;
    ProductOrder(100.0 * q, percent, previous);
    assert 100.0 * q * previous == 100.0 * (current - previous);
    assert (100.0 + percent) * previous == 100.0 * previous + percent * previous;
  }

  lemma QuotientAtLeast(x: real, y: real, least: real)
    requires y > 0.0
    ensures x / y >= least <==> x >= least * y
  {
    assert x / y * y == x;
    ProductOrder(least, x / y, y);
  }

  // ---------------------------------------------------------------- sales

  /** A fall of the account's revenue by three tenths or more of a positive one, critical from six tenths, high
      from four. */
  lemma SalesRevenueDropIff(current: AccountDailyMetric, previous: AccountDailyMetric)
    ensures var outcome := SalesRevenueDropRule(Some(current), Some(previous));
      && (outcome.Some? <==> previous.revenue > 0.0 && 10.0 * current.revenue <= 7.0 * previous.revenue)
      && (outcome.Some? ==>
            && OfAccount(outcome.value, SalesRevenueDrop)
            && Graded(outcome.value, 10.0 * current.revenue <= 4.0 * previous.revenue,
                      10.0 * current.revenue <= 6.0 * previous.revenue)
            && outcome.value.evidence
               == SalesEvidence(current.revenue, previous.revenue, current.orders, previous.orders))
  {
    if previous.revenue > 0.0 {
      DeltaAtMost(current.revenue, previous.revenue, -30.0);
      DeltaAtMost(current.revenue, previous.revenue, -40.0);
      DeltaAtMost(current.revenue, previous.revenue, -60.0);
    }
    hide DeltaPercent;
  }

  /** The same of the number of orders. */
  lemma SalesOrdersDropIff(current: AccountDailyMetric, previous: AccountDailyMetric)
    ensures var outcome := SalesOrdersDropRule(Some(current), Some(previous));
      && (outcome.Some? <==> previous.orders > 0 && 10 * current.orders <= 7 * previous.orders)
      && (outcome.Some? ==>
            && OfAccount(outcome.value, SalesOrdersDrop)
            && Graded(outcome.value, 10 * current.orders <= 4 * previous.orders,
                      10 * current.orders <= 6 * previous.orders)
            && outcome.value.evidence
               == SalesEvidence(current.revenue, previous.revenue, current.orders, previous.orders))
  {
    if previous.orders > 0 {
      DeltaAtMost(current.orders as real, previous.orders as real, -30.0);
      DeltaAtMost(current.orders as real, previous.orders as real, -40.0);
      DeltaAtMost(current.orders as real, previous.orders as real, -60.0);
    }
    hide DeltaPercent;
  }

  /** Without both days there is nothing to compare. */
  lemma NoComparisonNoAlert(current: Option<AccountDailyMetric>, previous: Option<AccountDailyMetric>)
    requires current.None? || previous.None?
    ensures SalesRevenueDropRule(current, previous).None? && SalesOrdersDropRule(current, previous).None?
  {
  }

  /** A SKU that earned a thousand or more lost two fifths of it or more; critical from seven tenths, high from half. */
  lemma SkuRevenueDropIff(current: SkuDailyMetric, previous: SkuDailyMetric)
    ensures var outcome := SkuRevenueDropRule(current, previous);
      && (outcome.Some? <==> previous.revenue >= 1000.0 && 10.0 * current.revenue <= 6.0 * previous.revenue)
      && (outcome.Some? ==>
            && OfSku(outcome.value, SkuRevenueDrop, Sales, current)
            && Graded(outcome.value, 10.0 * current.revenue <= 3.0 * previous.revenue,
                      2.0 * current.revenue <= previous.revenue)
            && outcome.value.evidence
               == SalesEvidence(current.revenue, previous.revenue, current.orders, previous.orders))
  {
    if previous.revenue > 0.0 {
      DeltaAtMost(current.revenue, previous.revenue, -40.0);
      DeltaAtMost(current.revenue, previous.revenue, -50.0);
      DeltaAtMost(current.revenue, previous.revenue, -70.0);
    }
    hide DeltaPercent;
  }

  /** A SKU that lost a fifth or more of what the account lost; critical from half, high from three tenths. */
  lemma SkuNegativeContributionIff(current: SkuDailyMetric, previous: SkuDailyMetric, accountDelta: real)
    ensures var outcome, lost := SkuNegativeContributionRule(current, previous, accountDelta),
                                 previous.revenue - current.revenue;
      && (outcome.Some? <==> accountDelta < 0.0 < lost && 5.0 * lost >= -accountDelta)
      && (outcome.Some? ==>
            && OfSku(outcome.value, SkuNegativeContribution, Sales, current)
            && Graded(outcome.value, 2.0 * lost >= -accountDelta, 10.0 * lost >= 3.0 * -accountDelta)
            && outcome.value.evidence
               == SalesEvidence(current.revenue, previous.revenue, current.orders, previous.orders))
  {
    if accountDelta < 0.0 {
      QuotientAtLeast(previous.revenue - current.revenue, -accountDelta, 0.2);
      QuotientAtLeast(previous.revenue - current.revenue, -accountDelta, 0.3);
      QuotientAtLeast(previous.revenue - current.revenue, -accountDelta, 0.5);
    }
  }

  /** What the account lost is the difference of the two days' revenue, and nothing without both. */
  lemma AccountDeltaIs(input: SalesInput)
    ensures match (input.currentAccount, input.previousAccount)
            case (Some(current), Some(previous)) => AccountDelta(input) + previous.revenue == current.revenue
            case _ => AccountDelta(input) == 0.0
  {
  }

  // ---------------------------------------------------------------- stock

  /** Stock that lasts more than three days and at most seven; medium. */
  lemma StockLowCoverageIff(m: SkuDailyMetric)
    ensures var outcome := StockLowCoverageRule(m);
      && (outcome.Some? <==> m.currentStock > 0 && m.daysOfCover.Some? && 3.0 < m.daysOfCover.value <= 7.0)
      && (outcome.Some? ==>
            && OfSku(outcome.value, StockLowCoverage, Stock, m) && Graded(outcome.value, false, false)
            && outcome.value.evidence == StockEvidence(m.daysOfCover.value, m.currentStock))
  {
  }

  /** No stock, or stock for three days at most; critical without stock or for less than a day. */
  lemma StockOosRiskIff(m: SkuDailyMetric)
    ensures var outcome, empty := StockOosRiskRule(m), m.currentStock <= 0;
      && (outcome.Some? <==> empty || (m.daysOfCover.Some? && m.daysOfCover.value <= 3.0))
      && (outcome.Some? ==>
            && OfSku(outcome.value, StockOosRisk, Stock, m)
            && GradedAtOnce(outcome.value, empty, empty || (m.daysOfCover.Some? && m.daysOfCover.value < 1.0), true)
            && outcome.value.evidence
               == StockEvidence(match m.daysOfCover case Some(days) => days case None => 0.0, m.currentStock))
  {
  }

  /** A SKU that earned ten thousand or sold five pieces, without stock or with stock for a week at most; critical
      without stock or for three days at most. */
  lemma StockCriticalSkuIff(m: SkuDailyMetric)
    ensures var outcome, empty := StockCriticalSkuRule(m), m.currentStock <= 0;
      && (outcome.Some? <==> (m.revenue >= 10000.0 || m.orders >= 5)
                             && (empty || (m.daysOfCover.Some? && m.daysOfCover.value <= 7.0)))
      && (outcome.Some? ==>
            && OfSku(outcome.value, StockCriticalSkuLowStock, Stock, m)
            && GradedAtOnce(outcome.value, empty, empty || (m.daysOfCover.Some? && m.daysOfCover.value <= 3.0), true)
            && outcome.value.evidence
               == StockEvidence(match m.daysOfCover case Some(days) => days case None => 0.0, m.currentStock))
  {
  }

  // ---------------------------------------------------------------- advertising

  /** A thousand or more spent without both orders and revenue; critical from ten thousand, high from three. */
  lemma AdSpendWithoutResultIff(c: CampaignSummary)
    ensures var outcome := AdSpendWithoutResultRule(c);
      && (outcome.Some? <==> c.spend >= 1000.0 && (c.orders <= 0 || c.revenue <= 0.0))
      && (outcome.Some? ==>
            && OfCampaign(outcome.value, AdSpendWithoutResult, c)
            && Graded(outcome.value, c.spend >= 10000.0, c.spend >= 3000.0))
  {
  }

  /** Revenue below the spend; critical below three tenths of it, high below three quarters. */
  lemma AdWeakEfficiencyIff(c: CampaignSummary)
    ensures var outcome := AdWeakEfficiencyRule(c);
      && (outcome.Some? <==> 0.0 < c.revenue < c.spend)
      && (outcome.Some? ==>
            && OfCampaign(outcome.value, AdWeakCampaignEfficiency, c)
            && Graded(outcome.value, 10.0 * c.revenue < 3.0 * c.spend, 4.0 * c.revenue < 3.0 * c.spend))
  {
    if c.spend > 0.0 {
      QuotientAtLeast(c.revenue, c.spend, 1.0);
      QuotientAtLeast(c.revenue, c.spend, 0.75);
      QuotientAtLeast(c.revenue, c.spend, 0.3);
    }
  }

  /** Budget on a SKU without stock or with stock for a week at most; critical without stock, high for three days. */
  lemma AdBudgetOnLowStockIff(c: CampaignSummary, m: SkuDailyMetric)
    ensures var outcome, empty := AdBudgetOnLowStockRule(c, m), m.currentStock <= 0;
      && (outcome.Some? <==> empty || (m.daysOfCover.Some? && m.daysOfCover.value <= 7.0))
      && (outcome.Some? ==>
            && OfSku(outcome.value, AdBudgetOnLowStockSku, Advertising, m)
            && GradedAtOnce(outcome.value, empty, empty, m.daysOfCover.Some? && m.daysOfCover.value <= 3.0)
            && outcome.value.evidence == AdEvidence(c.campaignId, c.spend, c.orders, c.revenue))
  {
  }

  // ---------------------------------------------------------------- price and economics

  ghost predicate ShowsPrices(r: RuleResult, p: PricingContext) {
    p.referencePrice.Some? && r.evidence == PriceEvidence(p.referencePrice.value, p.minPrice, p.maxPrice, p.impliedCost)
  }

  /** A positive price below the minimum; critical, and at once, from a tenth below. */
  lemma PriceBelowMinIff(p: PricingContext)
    ensures var outcome := PriceBelowMinRule(p);
      && (outcome.Some? <==>
            p.referencePrice.Some? && p.minPrice.Some? && 0.0 < p.referencePrice.value < p.minPrice.value)
      && (outcome.Some? ==>
            && OfProduct(outcome.value, PriceBelowMinConstraint, p) && ShowsPrices(outcome.value, p)
            && var far := 10.0 * p.referencePrice.value <= 9.0 * p.minPrice.value;
               GradedAtOnce(outcome.value, far, far, true))
  {
    if p.referencePrice.Some? && p.minPrice.Some? && 0.0 < p.referencePrice.value < p.minPrice.value {
      DeltaAtMost(p.referencePrice.value, p.minPrice.value, -10.0);
    }
  }

  /** A positive price above the maximum; high from more than a tenth above a maximum that is not negative. */
  lemma PriceAboveMaxIff(p: PricingContext)
    ensures var outcome := PriceAboveMaxRule(p);
      && (outcome.Some? <==> p.referencePrice.Some? && p.maxPrice.Some? && p.referencePrice.value > 0.0
                             && p.maxPrice.value < p.referencePrice.value)
      && (outcome.Some? ==>
            && OfProduct(outcome.value, PriceAboveMaxConstraint, p) && ShowsPrices(outcome.value, p)
            && Graded(outcome.value, false, p.maxPrice.value >= 0.0
                                            && 10.0 * p.referencePrice.value > 11.0 * p.maxPrice.value))
  {
    if p.referencePrice.Some? && p.maxPrice.Some? && p.referencePrice.value > 0.0
       && p.maxPrice.value < p.referencePrice.value {
      FarAboveMaxIff(p.referencePrice.value, p.maxPrice.value);
    }
    hide FarAboveMax;
  }

  lemma FarAboveMaxIff(price: real, max: real)
    requires price > 0.0 && max < price
    ensures FarAboveMax(price, max) <==> max >= 0.0 && 10.0 * price > 11.0 * max
  {
    if max > 0.0 {
      DeltaAtMost(price, max, 10.0);
    } else if max < 0.0 {
      QuotientAtLeast(price - max, -max, 0.0);
      assert (price - max) / max == -((price - max) / -max);
    }
  }

  /** Rounding to six decimals against a whole number of millionths. */
  lemma Round6Below(x: real, bound: int)
    requires bound >= 0
    ensures Round6(x) < bound as real / 1000000.0
       <==> if bound == 0 then 2000000.0 * x <= -1.0 else 2000000.0 * x < (2 * bound - 1) as real
  {
    if x >= 0.0 {
      FloorBelow(x * 1000000.0 + 0.5, bound);
    } else {
      var n := (-x * 1000000.0 + 0.5).Floor;
      assert n >= 0;
      assert n >= 1 <==> -x * 1000000.0 + 0.5 >= 1.0;
    }
  }

  lemma FloorBelow(x: real, n: int)
    ensures x.Floor < n <==> x < n as real
  {
  }

  lemma ScaledMargin(margin: real, price: real, gain: real, m: real)
    requires price > 0.0 && margin * price == gain
    ensures 2000000.0 * margin < m <==> 2000000.0 * gain < m * price
    ensures 2000000.0 * margin <= m <==> 2000000.0 * gain <= m * price
  {
    ProductOrder(2000000.0 * margin, m, price);
    assert 2000000.0 * margin * price == 2000000.0 * gain;
  }

  lemma MarginBelow(price: real, cost: real, bound: int)
    requires price > 0.0 && cost >= 0.0 && bound >= 0
    ensures ExpectedMargin(price, cost).Some?
    ensures ExpectedMargin(price, cost).value < bound as real / 1000000.0
       <==> if bound == 0 then 2000000.0 * (cost - price) >= price
            else 2000000.0 * (price - cost) < (2 * bound - 1) as real * price
  {
    var margin := (price - cost) / price;
    assert margin * price == price - cost;
    Round6Below(margin, bound);
    hide Round6;
    ScaledMargin(margin, price, price - cost, (2 * bound - 1) as real);
    ScaledMargin(margin, price, price - cost, -1.0);
  }

  /** A margin that rounds, in millionths, to less than a tenth of a positive price; high when to less than a
      twentieth, critical and at once when to a loss. */
  lemma MarginRiskIff(p: PricingContext)
    ensures var outcome := MarginRiskRule(p);
      && (outcome.Some? <==>
            && p.referencePrice.Some? && p.impliedCost.Some?
            && p.referencePrice.value > 0.0 && p.impliedCost.value >= 0.0
            && 2000000.0 * (p.referencePrice.value - p.impliedCost.value) < 199999.0 * p.referencePrice.value)
      && (outcome.Some? ==>
            && OfProduct(outcome.value, MarginRiskAtCurrentPrice, p) && ShowsPrices(outcome.value, p)
            && var gain := 2000000.0 * (p.referencePrice.value - p.impliedCost.value);
               var loss := gain <= -p.referencePrice.value;
               GradedAtOnce(outcome.value, loss, loss, gain < 99999.0 * p.referencePrice.value))
  {
    if p.referencePrice.Some? && p.impliedCost.Some? && p.referencePrice.value > 0.0 && p.impliedCost.value >= 0.0 {
      MarginBelow(p.referencePrice.value, p.impliedCost.value, 100000);
      MarginBelow(p.referencePrice.value, p.impliedCost.value, 50000);
      MarginBelow(p.referencePrice.value, p.impliedCost.value, 0);
      hide ExpectedMargin;
    }
  }

  /** A product that earned ten thousand or sold five pieces without a constraint; high from thirty thousand or
      fifteen. */
  lemma MissingConstraintsIff(p: PricingContext)
    ensures var outcome := MissingConstraintsRule(p);
      && (outcome.Some? <==> !p.hasConstraint && (p.revenue >= 10000.0 || p.orders >= 5))
      && (outcome.Some? ==>
            && OfProduct(outcome.value, MissingPricingConstraintsForKeySku, p)
            && Graded(outcome.value, false, p.revenue >= 30000.0 || p.orders >= 15)
            && outcome.value.evidence
               == PriceEvidence(match p.referencePrice case Some(price) => price case None => 0.0, None, None, None))
  {
  }

  /** A pricing context says of a product what its row, its constraint and its day's metrics say; the constraint's SKU
      and offer stand in for the row's own where it has none. */
  lemma PricingContextReads(p: ProductRow, constraints: map<int, EffectiveConstraint>,
                            metrics: map<int, SkuDailyMetric>)
    ensures var c, id := PricingContextOf(p, constraints, metrics), p.productId;
      && c.productId == id && c.referencePrice == p.referencePrice && (c.hasConstraint <==> id in constraints)
      && (p.sku.Some? ==> c.sku == p.sku) && (p.offerId.Some? ==> c.offerId == p.offerId)
      && (id in constraints ==>
            && c.minPrice == constraints[id].minPrice && c.maxPrice == constraints[id].maxPrice
            && c.impliedCost == constraints[id].impliedCost
            && (p.sku.None? ==> c.sku == constraints[id].sku)
            && (p.offerId.None? ==> c.offerId == constraints[id].offerId))
      && (id !in constraints ==> c.minPrice.None? && c.maxPrice.None? && c.impliedCost.None?
                                 && c.sku == p.sku && c.offerId == p.offerId)
      && (id in metrics ==> c.revenue == metrics[id].revenue && c.orders == metrics[id].orders)
      && (id !in metrics ==> c.revenue == 0.0 && c.orders == 0)
  {
  }
}
