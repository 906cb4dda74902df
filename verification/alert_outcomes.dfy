/** Which alerts the evaluators raise, by type and subject, in the rows they look at. */
module AlertOutcomes {
  import opened Wrappers
  import opened Text
  import opened Batches
  import opened AlertTypes
  import opened AlertRules
  import opened AlertGuards

  /** Some result is of the type and about the subject. */
  ghost predicate Raised(rs: seq<RuleResult>, t: AlertType, id: Option<string>) {
    exists r :: r in rs && r.alertType == t && r.entityId == id
  }

  ghost predicate IsOf(outcome: Option<RuleResult>, t: AlertType, id: Option<string>) {
    outcome.Some? && outcome.value.alertType == t && outcome.value.entityId == id
  }

  lemma RaisedByEither(a: seq<RuleResult>, b: seq<RuleResult>, t: AlertType, id: Option<string>)
    ensures Raised(a + b, t, id) <==> Raised(a, t, id) || Raised(b, t, id)
  {
  }

  lemma RaisedByOne(outcome: Option<RuleResult>, t: AlertType, id: Option<string>)
    ensures Raised(Emit(outcome), t, id) <==> IsOf(outcome, t, id)
  {
    if outcome.Some? {
      assert outcome.value in Emit(outcome);
    }
  }

  lemma RaisedBySome<X>(xs: seq<X>, f: X -> seq<RuleResult>, t: AlertType, id: Option<string>)
    ensures Raised(FlatMap(xs, f), t, id) <==> exists k | 0 <= k < |xs| :: Raised(f(xs[k]), t, id)
  {
    if r :| r in FlatMap(xs, f) && r.alertType == t && r.entityId == id {
      var k := FlatMapFrom(xs, f, r);
      assert Raised(f(xs[k]), t, id);
    }
    if k :| 0 <= k < |xs| && Raised(f(xs[k]), t, id) {
      var r :| r in f(xs[k]) && r.alertType == t && r.entityId == id;
      FlatMapHas(xs, f, k, r);
    }
  }

  function Named(productId: int): Option<string> {
    Some(Decimal(productId))
  }

  lemma NamedApart(p: int, q: int)
    ensures Named(p) == Named(q) <==> p == q
  {
    if Named(p) == Named(q) {
      DecimalInjective(p, q);
    }
  }

  // ---------------------------------------------------------------- sales

  /** An account alert on revenue is raised exactly when both days are known and revenue fell by three tenths of a
      positive one; on orders likewise. */
  lemma AccountAlertsIff(input: SalesInput)
    ensures Raised(SalesResults(input), SalesRevenueDrop, None) <==>
      && input.currentAccount.Some? && input.previousAccount.Some? && input.previousAccount.value.revenue > 0.0
      && 10.0 * input.currentAccount.value.revenue <= 7.0 * input.previousAccount.value.revenue
    ensures Raised(SalesResults(input), SalesOrdersDrop, None) <==>
      && input.currentAccount.Some? && input.previousAccount.Some? && input.previousAccount.value.orders > 0
      && 10 * input.currentAccount.value.orders <= 7 * input.previousAccount.value.orders
  {
    var c, p := input.currentAccount, input.previousAccount;
    if c.Some? && p.Some? {
      SalesRevenueDropIff(c.value, p.value);
      SalesOrdersDropIff(c.value, p.value);
    } else {
      NoComparisonNoAlert(c, p);
    }
    SalesParts(input, SalesRevenueDrop, None);
    SalesParts(input, SalesOrdersDrop, None);
    forall k | 0 <= k < |input.currentSkus|
      ensures !SkuRaises(input, k, SalesRevenueDrop, None) && !SkuRaises(input, k, SalesOrdersDrop, None)
    {
      SkuNeverNameless(input, k);
    }
    hide SalesRevenueDropRule, SalesOrdersDropRule, SkuRaises, Raised, SalesResults;
  }

  ghost predicate SkuRaises(input: SalesInput, k: nat, t: AlertType, id: Option<string>)
    requires k < |input.currentSkus|
  {
    var m := input.currentSkus[k];
    && m.productId in input.previousById
    && (|| IsOf(SkuRevenueDropRule(m, input.previousById[m.productId]), t, id)
        || IsOf(SkuNegativeContributionRule(m, input.previousById[m.productId], AccountDelta(input)), t, id))
  }

  lemma SkuNeverNameless(input: SalesInput, k: nat)
    requires k < |input.currentSkus|
    ensures !SkuRaises(input, k, SalesRevenueDrop, None) && !SkuRaises(input, k, SalesOrdersDrop, None)
  {
    hide DeltaPercent;
  }

  lemma SalesParts(input: SalesInput, t: AlertType, id: Option<string>)
    ensures Raised(SalesResults(input), t, id) <==>
      || IsOf(SalesRevenueDropRule(input.currentAccount, input.previousAccount), t, id)
      || IsOf(SalesOrdersDropRule(input.currentAccount, input.previousAccount), t, id)
      || exists k | 0 <= k < |input.currentSkus| :: SkuRaises(input, k, t, id)
  {
    hide SalesRevenueDropRule, SalesOrdersDropRule, SkuRevenueDropRule, SkuNegativeContributionRule, AccountDelta;
    var revenue := SalesRevenueDropRule(input.currentAccount, input.previousAccount);
    var orders := SalesOrdersDropRule(input.currentAccount, input.previousAccount);
    RaisedByEither(AccountSalesResults(input), FlatMap(input.currentSkus, SkuSalesResults(input)), t, id);
    RaisedByEither(Emit(revenue), Emit(orders), t, id);
    RaisedByOne(revenue, t, id);
    RaisedByOne(orders, t, id);
    RaisedBySome(input.currentSkus, SkuSalesResults(input), t, id);
    forall k | 0 <= k < |input.currentSkus|
      ensures Raised(SkuSalesResults(input)(input.currentSkus[k]), t, id) <==> SkuRaises(input, k, t, id)
    {
      SkuSalesRaise(input, k, t, id);
    }
    hide Raised, IsOf, FlatMap, SkuRaises, Emit;
  }

  lemma SkuSalesRaise(input: SalesInput, k: nat, t: AlertType, id: Option<string>)
    requires k < |input.currentSkus|
    ensures Raised(SkuSalesResults(input)(input.currentSkus[k]), t, id) <==> SkuRaises(input, k, t, id)
  {
    hide SkuRevenueDropRule, SkuNegativeContributionRule, AccountDelta;
    var m := input.currentSkus[k];
    if m.productId in input.previousById {
      var drop := SkuRevenueDropRule(m, input.previousById[m.productId]);
      var share := SkuNegativeContributionRule(m, input.previousById[m.productId], AccountDelta(input));
      RaisedByEither(Emit(drop), Emit(share), t, id);
      RaisedByOne(drop, t, id);
      RaisedByOne(share, t, id);
      hide Raised, IsOf, Emit;
    }
  }

  /** A SKU's revenue alert is raised exactly by a row of the product whose revenue fell by two fifths of a thousand
      or more; its contribution alert by one that lost a fifth or more of what the account lost. */
  lemma SkuSalesAlertsIff(input: SalesInput, p: int)
    ensures Raised(SalesResults(input), SkuRevenueDrop, Named(p)) <==>
      p in input.previousById && exists k | 0 <= k < |input.currentSkus| ::
        && input.currentSkus[k].productId == p && input.previousById[p].revenue >= 1000.0
        && 10.0 * input.currentSkus[k].revenue <= 6.0 * input.previousById[p].revenue
    ensures Raised(SalesResults(input), SkuNegativeContribution, Named(p)) <==>
      p in input.previousById && exists k | 0 <= k < |input.currentSkus| ::
        && input.currentSkus[k].productId == p
        && AccountDelta(input) < 0.0 < input.previousById[p].revenue - input.currentSkus[k].revenue
        && 5.0 * (input.previousById[p].revenue - input.currentSkus[k].revenue) >= -AccountDelta(input)
  {
    SalesParts(input, SkuRevenueDrop, Named(p));
    SalesParts(input, SkuNegativeContribution, Named(p));
    NoAccountAlert(input, p);
    forall k | 0 <= k < |input.currentSkus|
      ensures SkuRaises(input, k, SkuRevenueDrop, Named(p)) <==>
        && p in input.previousById && input.currentSkus[k].productId == p && input.previousById[p].revenue >= 1000.0
        && 10.0 * input.currentSkus[k].revenue <= 6.0 * input.previousById[p].revenue
      ensures SkuRaises(input, k, SkuNegativeContribution, Named(p)) <==>
        && p in input.previousById && input.currentSkus[k].productId == p
        && AccountDelta(input) < 0.0 < input.previousById[p].revenue - input.currentSkus[k].revenue
        && 5.0 * (input.previousById[p].revenue - input.currentSkus[k].revenue) >= -AccountDelta(input)
    {
      var m := input.currentSkus[k];
      NamedApart(m.productId, p);
      if m.productId in input.previousById {
        SkuRevenueDropIff(m, input.previousById[m.productId]);
        SkuNegativeContributionIff(m, input.previousById[m.productId], AccountDelta(input));
      }
      hide SkuRevenueDropRule, SkuNegativeContributionRule, AccountDelta, Decimal, Graded;
    }
    hide Raised, IsOf, SkuRaises, AccountDelta, Named, SalesResults;
  }

  lemma NoAccountAlert(input: SalesInput, p: int)
    ensures var revenue := SalesRevenueDropRule(input.currentAccount, input.previousAccount);
      var orders := SalesOrdersDropRule(input.currentAccount, input.previousAccount);
      && !IsOf(revenue, SkuRevenueDrop, Named(p)) && !IsOf(orders, SkuRevenueDrop, Named(p))
      && !IsOf(revenue, SkuNegativeContribution, Named(p)) && !IsOf(orders, SkuNegativeContribution, Named(p))
  {
    hide DeltaPercent;
  }

  // ---------------------------------------------------------------- stock

  ghost predicate LastsAtMost(m: SkuDailyMetric, days: real) {
    m.daysOfCover.Some? && m.daysOfCover.value <= days
  }

  /** A product raises each stock alert exactly by a row of its own that is empty or lasts so many days. */
  lemma StockAlertsIff(skus: seq<SkuDailyMetric>, p: int)
    ensures Raised(StockResults(skus), StockOosRisk, Named(p)) <==>
      exists k | 0 <= k < |skus| ::
        skus[k].productId == p && (skus[k].currentStock <= 0 || LastsAtMost(skus[k], 3.0))
    ensures Raised(StockResults(skus), StockLowCoverage, Named(p)) <==>
      exists k | 0 <= k < |skus| ::
        skus[k].productId == p && skus[k].currentStock > 0 && LastsAtMost(skus[k], 7.0) && !LastsAtMost(skus[k], 3.0)
    ensures Raised(StockResults(skus), StockCriticalSkuLowStock, Named(p)) <==>
      exists k | 0 <= k < |skus| ::
        && skus[k].productId == p && (skus[k].revenue >= 10000.0 || skus[k].orders >= 5)
        && (skus[k].currentStock <= 0 || LastsAtMost(skus[k], 7.0))
  {
    RaisedBySome(skus, SkuStockResults(), StockOosRisk, Named(p));
    RaisedBySome(skus, SkuStockResults(), StockLowCoverage, Named(p));
    RaisedBySome(skus, SkuStockResults(), StockCriticalSkuLowStock, Named(p));
    forall k | 0 <= k < |skus|
      ensures Raised(SkuStockResults()(skus[k]), StockOosRisk, Named(p)) <==>
        skus[k].productId == p && (skus[k].currentStock <= 0 || LastsAtMost(skus[k], 3.0))
      ensures Raised(SkuStockResults()(skus[k]), StockLowCoverage, Named(p)) <==>
        skus[k].productId == p && skus[k].currentStock > 0 && LastsAtMost(skus[k], 7.0) && !LastsAtMost(skus[k], 3.0)
      ensures Raised(SkuStockResults()(skus[k]), StockCriticalSkuLowStock, Named(p)) <==>
        && skus[k].productId == p && (skus[k].revenue >= 10000.0 || skus[k].orders >= 5)
        && (skus[k].currentStock <= 0 || LastsAtMost(skus[k], 7.0))
    {
      StockRaise(skus[k], StockOosRisk, p);
      StockRaise(skus[k], StockLowCoverage, p);
      StockRaise(skus[k], StockCriticalSkuLowStock, p);
      StockOutcomes(skus[k], p);
      hide Raised, SkuStockResults, IsOf, StockOosRiskRule, StockLowCoverageRule, StockCriticalSkuRule, Named;
    }
    hide Raised, SkuStockResults, LastsAtMost, Named, FlatMap;
  }

  lemma StockRaise(m: SkuDailyMetric, t: AlertType, p: int)
    ensures Raised(SkuStockResults()(m), t, Named(p)) <==>
      || IsOf(StockOosRiskRule(m), t, Named(p)) || IsOf(StockLowCoverageRule(m), t, Named(p))
      || IsOf(StockCriticalSkuRule(m), t, Named(p))
  {
    hide StockOosRiskRule, StockLowCoverageRule, StockCriticalSkuRule;
    var oos, low, key := Emit(StockOosRiskRule(m)), Emit(StockLowCoverageRule(m)), Emit(StockCriticalSkuRule(m));
    RaisedByEither(oos + low, key, t, Named(p));
    RaisedByEither(oos, low, t, Named(p));
    RaisedByOne(StockOosRiskRule(m), t, Named(p));
    RaisedByOne(StockLowCoverageRule(m), t, Named(p));
    RaisedByOne(StockCriticalSkuRule(m), t, Named(p));
    hide Raised, IsOf, Emit;
  }

  lemma StockOutcomes(m: SkuDailyMetric, p: int)
    ensures IsOf(StockOosRiskRule(m), StockOosRisk, Named(p)) <==>
      m.productId == p && (m.currentStock <= 0 || LastsAtMost(m, 3.0))
    ensures IsOf(StockLowCoverageRule(m), StockLowCoverage, Named(p)) <==>
      m.productId == p && m.currentStock > 0 && LastsAtMost(m, 7.0) && !LastsAtMost(m, 3.0)
    ensures IsOf(StockCriticalSkuRule(m), StockCriticalSkuLowStock, Named(p)) <==>
      && m.productId == p && (m.revenue >= 10000.0 || m.orders >= 5)
      && (m.currentStock <= 0 || LastsAtMost(m, 7.0))
    ensures forall t | IsOf(StockOosRiskRule(m), t, Named(p)) :: t == StockOosRisk
    ensures forall t | IsOf(StockLowCoverageRule(m), t, Named(p)) :: t == StockLowCoverage
    ensures forall t | IsOf(StockCriticalSkuRule(m), t, Named(p)) :: t == StockCriticalSkuLowStock
  {
    StockOosRiskIff(m);
    StockLowCoverageIff(m);
    StockCriticalSkuIff(m);
    NamedApart(m.productId, p);
    hide StockOosRiskRule, StockLowCoverageRule, StockCriticalSkuRule, Decimal, Graded, GradedAtOnce;
  }

  // ---------------------------------------------------------------- campaigns and prices

  /** A campaign raises its alerts exactly by a summary of its own: money without result, or less revenue than spend. */
  lemma CampaignAlertsIff(campaigns: seq<CampaignSummary>, id: int)
    ensures Raised(FlatMap(campaigns, CampaignResults()), AdSpendWithoutResult, Named(id)) <==>
      exists k | 0 <= k < |campaigns| ::
        && campaigns[k].campaignId == id && campaigns[k].spend >= 1000.0
        && (campaigns[k].orders <= 0 || campaigns[k].revenue <= 0.0)
    ensures Raised(FlatMap(campaigns, CampaignResults()), AdWeakCampaignEfficiency, Named(id)) <==>
      exists k | 0 <= k < |campaigns| ::
        campaigns[k].campaignId == id && 0.0 < campaigns[k].revenue < campaigns[k].spend
  {
    RaisedBySome(campaigns, CampaignResults(), AdSpendWithoutResult, Named(id));
    RaisedBySome(campaigns, CampaignResults(), AdWeakCampaignEfficiency, Named(id));
    forall k | 0 <= k < |campaigns|
      ensures Raised(CampaignResults()(campaigns[k]), AdSpendWithoutResult, Named(id)) <==>
        && campaigns[k].campaignId == id && campaigns[k].spend >= 1000.0
        && (campaigns[k].orders <= 0 || campaigns[k].revenue <= 0.0)
      ensures Raised(CampaignResults()(campaigns[k]), AdWeakCampaignEfficiency, Named(id)) <==>
        campaigns[k].campaignId == id && 0.0 < campaigns[k].revenue < campaigns[k].spend
    {
      CampaignRaise(campaigns[k], AdSpendWithoutResult, id);
      CampaignRaise(campaigns[k], AdWeakCampaignEfficiency, id);
      CampaignOutcomes(campaigns[k], id);
      hide Raised, CampaignResults, IsOf, AdSpendWithoutResultRule, AdWeakEfficiencyRule, Named;
    }
    hide Raised, CampaignResults, Named, FlatMap;
  }

  lemma CampaignRaise(c: CampaignSummary, t: AlertType, id: int)
    ensures Raised(CampaignResults()(c), t, Named(id))
       <==> IsOf(AdSpendWithoutResultRule(c), t, Named(id)) || IsOf(AdWeakEfficiencyRule(c), t, Named(id))
  {
    hide AdSpendWithoutResultRule, AdWeakEfficiencyRule;
    RaisedByEither(Emit(AdSpendWithoutResultRule(c)), Emit(AdWeakEfficiencyRule(c)), t, Named(id));
    RaisedByOne(AdSpendWithoutResultRule(c), t, Named(id));
    RaisedByOne(AdWeakEfficiencyRule(c), t, Named(id));
    hide Raised, IsOf, Emit;
  }

  lemma CampaignOutcomes(c: CampaignSummary, id: int)
    ensures IsOf(AdSpendWithoutResultRule(c), AdSpendWithoutResult, Named(id)) <==>
      c.campaignId == id && c.spend >= 1000.0 && (c.orders <= 0 || c.revenue <= 0.0)
    ensures IsOf(AdWeakEfficiencyRule(c), AdWeakCampaignEfficiency, Named(id)) <==>
      c.campaignId == id && 0.0 < c.revenue < c.spend
    ensures !IsOf(AdSpendWithoutResultRule(c), AdWeakCampaignEfficiency, Named(id))
    ensures !IsOf(AdWeakEfficiencyRule(c), AdSpendWithoutResult, Named(id))
  {
    AdSpendWithoutResultIff(c);
    AdWeakEfficiencyIff(c);
    NamedApart(c.campaignId, id);
    hide AdSpendWithoutResultRule, AdWeakEfficiencyRule, Decimal, Graded;
  }

  /** What a pricing context says against its product. */
  ghost predicate PriceFault(p: PricingContext, t: AlertType) {
    var price := if p.referencePrice.Some? then p.referencePrice.value else 0.0;
    match t
    case PriceBelowMinConstraint => p.minPrice.Some? && 0.0 < price < p.minPrice.value
    case PriceAboveMaxConstraint => p.maxPrice.Some? && price > 0.0 && price > p.maxPrice.value
    case MarginRiskAtCurrentPrice =>
      && p.impliedCost.Some? && p.impliedCost.value >= 0.0 && price > 0.0
      && 2000000.0 * (price - p.impliedCost.value) < 199999.0 * price
    case MissingPricingConstraintsForKeySku => !p.hasConstraint && (p.revenue >= 10000.0 || p.orders >= 5)
    case _ => false
  }

  /** A product raises each price alert exactly by a context of its own with that fault. */
  lemma PriceAlertsIff(products: seq<PricingContext>, t: AlertType, id: int)
    ensures Raised(PriceResults(products), t, Named(id)) <==>
      exists k | 0 <= k < |products| :: products[k].productId == id && PriceFault(products[k], t)
  {
    RaisedBySome(products, ProductPriceResults(), t, Named(id));
    forall k | 0 <= k < |products|
      ensures Raised(ProductPriceResults()(products[k]), t, Named(id))
         <==> products[k].productId == id && PriceFault(products[k], t)
    {
      PriceRaise(products[k], t, Named(id));
      PriceOutcomes(products[k], t, id);
      hide Raised, ProductPriceResults, PriceFault, IsOf, Named;
    }
    hide Raised, ProductPriceResults, PriceFault, Named, FlatMap;
  }

  lemma PriceRaise(p: PricingContext, t: AlertType, id: Option<string>)
    ensures Raised(ProductPriceResults()(p), t, id) <==>
      || IsOf(PriceBelowMinRule(p), t, id) || IsOf(PriceAboveMaxRule(p), t, id)
      || IsOf(MarginRiskRule(p), t, id) || IsOf(MissingConstraintsRule(p), t, id)
  {
    hide PriceBelowMinRule, PriceAboveMaxRule, MarginRiskRule, MissingConstraintsRule;
    var below, above, margin, missing := Emit(PriceBelowMinRule(p)), Emit(PriceAboveMaxRule(p)),
                                         Emit(MarginRiskRule(p)), Emit(MissingConstraintsRule(p));
    RaisedByEither(below + above + margin, missing, t, id);
    RaisedByEither(below + above, margin, t, id);
    RaisedByEither(below, above, t, id);
    RaisedByOne(PriceBelowMinRule(p), t, id);
    RaisedByOne(PriceAboveMaxRule(p), t, id);
    RaisedByOne(MarginRiskRule(p), t, id);
    RaisedByOne(MissingConstraintsRule(p), t, id);
    hide Raised, IsOf, Emit;
  }

  lemma PriceOutcomes(p: PricingContext, t: AlertType, id: int)
    ensures IsOf(PriceBelowMinRule(p), t, Named(id)) <==>
      t == PriceBelowMinConstraint && p.productId == id && PriceFault(p, t)
    ensures IsOf(PriceAboveMaxRule(p), t, Named(id)) <==>
      t == PriceAboveMaxConstraint && p.productId == id && PriceFault(p, t)
    ensures IsOf(MarginRiskRule(p), t, Named(id)) <==>
      t == MarginRiskAtCurrentPrice && p.productId == id && PriceFault(p, t)
    ensures IsOf(MissingConstraintsRule(p), t, Named(id)) <==>
      t == MissingPricingConstraintsForKeySku && p.productId == id && PriceFault(p, t)
    ensures PriceFault(p, t) ==>
      || t == PriceBelowMinConstraint || t == PriceAboveMaxConstraint || t == MarginRiskAtCurrentPrice
      || t == MissingPricingConstraintsForKeySku
  {
    PriceBelowMinIff(p);
    PriceAboveMaxIff(p);
    MarginRiskIff(p);
    MissingConstraintsIff(p);
    NamedApart(p.productId, id);
    hide PriceBelowMinRule, PriceAboveMaxRule, MarginRiskRule, MissingConstraintsRule, Decimal, Graded, GradedAtOnce;
    hide ShowsPrices;
  }
}
