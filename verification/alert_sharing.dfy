/** Within one run, only the low-stock advertising rule can write twice to the same alert, and only
    through two campaign links of one product. */
module AlertSharing {
  import opened Wrappers
  import opened Text
  import opened Batches
  import opened AlertTypes
  import opened AlertIdentity
  import opened AlertRules
  import opened AlertRuns

  /** An optional result of type `t` about the entity with id `id`. */
  ghost predicate About(o: Option<RuleResult>, t: AlertType, id: int) {
    o.Some? ==> o.value.alertType == t && o.value.entityId == Some(Decimal(id)) && o.value.fingerprint == ""
  }

  /** The results of a list of rules about one entity, where each rule has its own alert type. */
  ghost predicate AllAbout(rs: seq<RuleResult>, types: set<AlertType>, id: int) {
    OneEntity(rs, id) && forall i | 0 <= i < |rs| :: rs[i].alertType in types
  }

  lemma AboutOne(o: Option<RuleResult>, t: AlertType, id: int)
    requires About(o, t, id)
    ensures AllAbout(Emit(o), {t}, id)
  {
  }

  lemma AboutMore(rs: seq<RuleResult>, types: set<AlertType>, o: Option<RuleResult>, t: AlertType, id: int)
    requires AllAbout(rs, types, id) && About(o, t, id) && t !in types
    ensures AllAbout(rs + Emit(o), types + {t}, id)
  {
    var all := rs + Emit(o);
    forall i, j | 0 <= i < j < |all|
      ensures all[i].alertType != all[j].alertType
    {
      assert i < |rs| && all[i] == rs[i];
    }
  }

  const SKU_SALES_TYPES: set<AlertType> := {SkuRevenueDrop, SkuNegativeContribution}
  const STOCK_TYPES: set<AlertType> := {StockOosRisk, StockLowCoverage, StockCriticalSkuLowStock}
  const CAMPAIGN_TYPES: set<AlertType> := {AdSpendWithoutResult, AdWeakCampaignEfficiency}
  const PRICE_TYPES: set<AlertType> :=
    {PriceBelowMinConstraint, PriceAboveMaxConstraint, MarginRiskAtCurrentPrice, MissingPricingConstraintsForKeySku}
  const ACCOUNT_TYPES: set<AlertType> := {SalesRevenueDrop, SalesOrdersDrop}

  lemma SkuSalesAbout(input: SalesInput, m: SkuDailyMetric)
    ensures AllAbout(SkuSalesResults(input)(m), SKU_SALES_TYPES, m.productId)
  {
    if m.productId in input.previousById {
      var previous := input.previousById[m.productId];
      SkuRevenueDropAbout(m, previous);
      SkuNegativeContributionAbout(m, previous, AccountDelta(input));
      hide SkuRevenueDropRule, SkuNegativeContributionRule;
      AboutOne(SkuRevenueDropRule(m, previous), SkuRevenueDrop, m.productId);
      AboutMore(Emit(SkuRevenueDropRule(m, previous)), {SkuRevenueDrop},
                SkuNegativeContributionRule(m, previous, AccountDelta(input)), SkuNegativeContribution, m.productId);
      assert {SkuRevenueDrop} + {SkuNegativeContribution} == SKU_SALES_TYPES;
    }
  }

  lemma SkuRevenueDropAbout(m: SkuDailyMetric, previous: SkuDailyMetric)
    ensures About(SkuRevenueDropRule(m, previous), SkuRevenueDrop, m.productId)
  {
  }

  lemma SkuNegativeContributionAbout(m: SkuDailyMetric, previous: SkuDailyMetric, delta: real)
    ensures About(SkuNegativeContributionRule(m, previous, delta), SkuNegativeContribution, m.productId)
  {
  }

  lemma SkuStockAbout(m: SkuDailyMetric)
    ensures AllAbout(SkuStockResults()(m), STOCK_TYPES, m.productId)
  {
    assert About(StockOosRiskRule(m), StockOosRisk, m.productId);
    assert About(StockLowCoverageRule(m), StockLowCoverage, m.productId);
    assert About(StockCriticalSkuRule(m), StockCriticalSkuLowStock, m.productId);
    hide StockOosRiskRule, StockLowCoverageRule, StockCriticalSkuRule;
    AboutOne(StockOosRiskRule(m), StockOosRisk, m.productId);
    AboutMore(Emit(StockOosRiskRule(m)), {StockOosRisk}, StockLowCoverageRule(m), StockLowCoverage, m.productId);
    AboutMore(Emit(StockOosRiskRule(m)) + Emit(StockLowCoverageRule(m)), {StockOosRisk} + {StockLowCoverage},
              StockCriticalSkuRule(m), StockCriticalSkuLowStock, m.productId);
    assert {StockOosRisk} + {StockLowCoverage} + {StockCriticalSkuLowStock} == STOCK_TYPES;
  }

  lemma CampaignAbout(c: CampaignSummary)
    ensures AllAbout(CampaignResults()(c), CAMPAIGN_TYPES, c.campaignId)
  {
    assert About(AdSpendWithoutResultRule(c), AdSpendWithoutResult, c.campaignId);
    assert About(AdWeakEfficiencyRule(c), AdWeakCampaignEfficiency, c.campaignId);
    hide AdSpendWithoutResultRule, AdWeakEfficiencyRule;
    AboutOne(AdSpendWithoutResultRule(c), AdSpendWithoutResult, c.campaignId);
    AboutMore(Emit(AdSpendWithoutResultRule(c)), {AdSpendWithoutResult}, AdWeakEfficiencyRule(c),
              AdWeakCampaignEfficiency, c.campaignId);
    assert {AdSpendWithoutResult} + {AdWeakCampaignEfficiency} == CAMPAIGN_TYPES;
  }

  lemma MarginRiskAbout(p: PricingContext)
    ensures About(MarginRiskRule(p), MarginRiskAtCurrentPrice, p.productId)
  {
    hide Round6;
  }

  lemma PriceAbout(p: PricingContext)
    ensures AllAbout(ProductPriceResults()(p), PRICE_TYPES, p.productId)
  {
    var id := p.productId;
    assert About(PriceBelowMinRule(p), PriceBelowMinConstraint, id);
    assert About(PriceAboveMaxRule(p), PriceAboveMaxConstraint, id);
    assert About(MissingConstraintsRule(p), MissingPricingConstraintsForKeySku, id);
    MarginRiskAbout(p);
    hide PriceBelowMinRule, PriceAboveMaxRule, MarginRiskRule, MissingConstraintsRule;
    AboutOne(PriceBelowMinRule(p), PriceBelowMinConstraint, id);
    var one := Emit(PriceBelowMinRule(p));
    AboutMore(one, {PriceBelowMinConstraint}, PriceAboveMaxRule(p), PriceAboveMaxConstraint, id);
    var two := one + Emit(PriceAboveMaxRule(p));
    AboutMore(two, {PriceBelowMinConstraint} + {PriceAboveMaxConstraint}, MarginRiskRule(p), MarginRiskAtCurrentPrice,
              id);
    AboutMore(two + Emit(MarginRiskRule(p)),
              {PriceBelowMinConstraint} + {PriceAboveMaxConstraint} + {MarginRiskAtCurrentPrice},
              MissingConstraintsRule(p), MissingPricingConstraintsForKeySku, id);
    assert {PriceBelowMinConstraint} + {PriceAboveMaxConstraint}
           + {MarginRiskAtCurrentPrice} + {MissingPricingConstraintsForKeySku} == PRICE_TYPES;
  }

  // ---------------------------------------------------------------- groups

  /** A group of emitted results with the given alert types. */
  ghost predicate OfTypes(rs: seq<RuleResult>, types: set<AlertType>) {
    AllEmitted(rs) && forall i | 0 <= i < |rs| :: rs[i].alertType in types
  }

  /** A group in which no two results share an alert. */
  ghost predicate Solo(seller: int, rs: seq<RuleResult>, types: set<AlertType>) {
    OfTypes(rs, types) && PairwiseApart(rs, SameAlert(seller))
  }

  lemma GroupOfTypes<X>(xs: seq<X>, f: X -> seq<RuleResult>, id: X -> int, types: set<AlertType>)
    requires forall k | 0 <= k < |xs| :: AllAbout(f(xs[k]), types, id(xs[k]))
    ensures OfTypes(FlatMap(xs, f), types)
  {
    forall i | 0 <= i < |FlatMap(xs, f)|
      ensures Emitted(FlatMap(xs, f)[i]) && FlatMap(xs, f)[i].alertType in types
    {
      var k := FlatMapFrom(xs, f, FlatMap(xs, f)[i]);
      var j :| 0 <= j < |f(xs[k])| && f(xs[k])[j] == FlatMap(xs, f)[i];
      assert AllAbout(f(xs[k]), types, id(xs[k]));
    }
  }

  lemma GroupSolo<X>(seller: int, xs: seq<X>, f: X -> seq<RuleResult>, id: X -> int, types: set<AlertType>)
    requires DistinctValues(xs, id) && forall k | 0 <= k < |xs| :: AllAbout(f(xs[k]), types, id(xs[k]))
    ensures Solo(seller, FlatMap(xs, f), types)
  {
    GroupOfTypes(xs, f, id, types);
    EntitiesApart(seller, xs, f, id);
  }

  lemma SoloConcat(seller: int, rs: seq<RuleResult>, types: set<AlertType>, ts: seq<RuleResult>, others: set<AlertType>)
    requires Solo(seller, rs, types) && Solo(seller, ts, others) && types !! others
    ensures Solo(seller, rs + ts, types + others)
  {
    TypesApart(seller, rs, types, ts, others);
    ApartConcat(rs, ts, SameAlert(seller));
  }

  lemma AccountSolo(seller: int, input: SalesInput)
    ensures Solo(seller, AccountSalesResults(input), ACCOUNT_TYPES)
  {
    var revenue := SalesRevenueDropRule(input.currentAccount, input.previousAccount);
    var orders := SalesOrdersDropRule(input.currentAccount, input.previousAccount);
    assert revenue.Some? ==> revenue.value.alertType == SalesRevenueDrop && Emitted(revenue.value);
    assert orders.Some? ==> orders.value.alertType == SalesOrdersDrop && Emitted(orders.value);
    hide SalesRevenueDropRule, SalesOrdersDropRule;
    SoloConcat(seller, Emit(revenue), {SalesRevenueDrop}, Emit(orders), {SalesOrdersDrop});
    assert {SalesRevenueDrop} + {SalesOrdersDrop} == ACCOUNT_TYPES;
  }

  ghost predicate DistinctInputs(m: RunMetrics) {
    && DistinctValues(m.currentSkus, ProductId())
    && DistinctValues(m.campaigns, CampaignId())
    && forall i, j | 0 <= i < j < |m.products| :: m.products[i].productId != m.products[j].productId
  }

  const BEFORE_LINKS_TYPES: set<AlertType> := ACCOUNT_TYPES + SKU_SALES_TYPES + STOCK_TYPES + CAMPAIGN_TYPES

  /** What a run writes before it comes to the campaign links. */
  function BeforeLinks(m: RunMetrics): seq<RuleResult> {
    SalesResults(SalesInputOf(m)) + StockResults(m.currentSkus) + FlatMap(m.campaigns, CampaignResults())
  }

  function FromLinks(m: RunMetrics): seq<RuleResult> {
    FlatMap(m.links, LinkResults(AdInputOf(m)))
  }

  lemma BeforeLinksSolo(seller: int, m: RunMetrics)
    requires DistinctInputs(m)
    ensures Solo(seller, BeforeLinks(m), BEFORE_LINKS_TYPES)
  {
    var input := SalesInputOf(m);
    AccountSolo(seller, input);
    forall x: SkuDailyMetric { SkuSalesAbout(input, x); }
    forall x: SkuDailyMetric { SkuStockAbout(x); }
    forall c: CampaignSummary { CampaignAbout(c); }
    hide SkuSalesResults, SkuStockResults, CampaignResults, AccountSalesResults;
    GroupSolo(seller, m.currentSkus, SkuSalesResults(input), ProductId(), SKU_SALES_TYPES);
    SoloConcat(seller, AccountSalesResults(input), ACCOUNT_TYPES, FlatMap(m.currentSkus, SkuSalesResults(input)),
               SKU_SALES_TYPES);
    GroupSolo(seller, m.currentSkus, SkuStockResults(), ProductId(), STOCK_TYPES);
    SoloConcat(seller, SalesResults(input), ACCOUNT_TYPES + SKU_SALES_TYPES, StockResults(m.currentSkus), STOCK_TYPES);
    GroupSolo(seller, m.campaigns, CampaignResults(), CampaignId(), CAMPAIGN_TYPES);
    SoloConcat(seller, SalesResults(input) + StockResults(m.currentSkus), ACCOUNT_TYPES + SKU_SALES_TYPES + STOCK_TYPES,
               FlatMap(m.campaigns, CampaignResults()), CAMPAIGN_TYPES);
  }

  function ContextProduct(): PricingContext -> int {
    (p: PricingContext) => p.productId
  }

  lemma PriceSolo(seller: int, m: RunMetrics)
    requires DistinctInputs(m)
    ensures Solo(seller, PriceResults(PricingContexts(m)), PRICE_TYPES)
  {
    forall p: PricingContext { PriceAbout(p); }
    hide ProductPriceResults;
    GroupSolo(seller, PricingContexts(m), ProductPriceResults(), ContextProduct(), PRICE_TYPES);
  }

  // ---------------------------------------------------------------- the links

  predicate LowOnStock(m: SkuDailyMetric) {
    m.currentStock <= 0 || (m.daysOfCover.Some? && m.daysOfCover.value <= 7.0)
  }

  /** The link is active, its campaign is known and spends, and its product is listed and low on stock. */
  predicate Raises(m: RunMetrics, k: nat)
    requires k < |m.links|
  {
    var link, campaigns, skus := m.links[k], IndexBy(m.campaigns, CampaignId()), IndexBy(m.currentSkus, ProductId());
    && link.isActive
    && link.campaignId in campaigns && campaigns[link.campaignId].spend > 0.0
    && link.productId in skus && LowOnStock(skus[link.productId])
  }

  /** Those are exactly the links for which the rule yields an alert. */
  lemma RaisesIff(m: RunMetrics, k: nat)
    requires k < |m.links|
    ensures Raises(m, k)
           <==> LinkRule(m.links[k], IndexBy(m.campaigns, CampaignId()), IndexBy(m.currentSkus, ProductId())).Some?
  {
  }

  /** With distinct campaigns and SKUs, the rows themselves decide. */
  lemma RaisesByRows(m: RunMetrics, k: nat)
    requires DistinctInputs(m) && k < |m.links|
    ensures Raises(m, k) <==>
      && m.links[k].isActive
      && (exists i | 0 <= i < |m.campaigns| ::
          m.campaigns[i].campaignId == m.links[k].campaignId && m.campaigns[i].spend > 0.0)
      && (exists i | 0 <= i < |m.currentSkus| ::
          m.currentSkus[i].productId == m.links[k].productId && LowOnStock(m.currentSkus[i]))
  {
    hide LowOnStock;
    IndexByRows(m.campaigns, CampaignId());
    IndexByRows(m.currentSkus, ProductId());
    forall i | 0 <= i < |m.campaigns|
      ensures m.campaigns[i].campaignId in IndexBy(m.campaigns, CampaignId())
      ensures IndexBy(m.campaigns, CampaignId())[m.campaigns[i].campaignId] == m.campaigns[i]
    {
      IndexByDistinct(m.campaigns, CampaignId(), i);
    }
    forall i | 0 <= i < |m.currentSkus|
      ensures m.currentSkus[i].productId in IndexBy(m.currentSkus, ProductId())
      ensures IndexBy(m.currentSkus, ProductId())[m.currentSkus[i].productId] == m.currentSkus[i]
    {
      IndexByDistinct(m.currentSkus, ProductId(), i);
    }
  }

  function LinkAlert(m: RunMetrics, k: nat): RuleResult
    requires k < |m.links| && Raises(m, k)
  {
    RaisesIff(m, k);
    LinkRule(m.links[k], IndexBy(m.campaigns, CampaignId()), IndexBy(m.currentSkus, ProductId())).value
  }

  /** A link's alert is the low-stock alert of its product, and two links agree on what it is about
      exactly when they link the same product. */
  lemma LinkAlertSubject(seller: int, m: RunMetrics, k: nat, l: nat)
    requires k < |m.links| && l < |m.links| && Raises(m, k) && Raises(m, l)
    ensures Emitted(LinkAlert(m, k)) && LinkAlert(m, k).alertType == AdBudgetOnLowStockSku
    ensures SameAlert(seller)(LinkAlert(m, k), LinkAlert(m, l)) <==> m.links[k].productId == m.links[l].productId
  {
    IndexByRows(m.currentSkus, ProductId());
    var skus := IndexBy(m.currentSkus, ProductId());
    var a, b := LinkAlert(m, k), LinkAlert(m, l);
    assert a.entityId == Some(Decimal(m.links[k].productId)) && b.entityId == Some(Decimal(m.links[l].productId));
    FingerprintInjective(seller, a, seller, b);
    if Decimal(m.links[k].productId) == Decimal(m.links[l].productId) {
      DecimalInjective(m.links[k].productId, m.links[l].productId);
    }
  }

  lemma FromLinksOfType(m: RunMetrics)
    ensures OfTypes(FromLinks(m), {AdBudgetOnLowStockSku})
  {
    forall i | 0 <= i < |FromLinks(m)|
      ensures Emitted(FromLinks(m)[i]) && FromLinks(m)[i].alertType == AdBudgetOnLowStockSku
    {
      var k := FlatMapFrom(m.links, LinkResults(AdInputOf(m)), FromLinks(m)[i]);
      RaisesIff(m, k);
      LinkAlertSubject(0, m, k, k);
    }
  }

  lemma RunResultsSplit(m: RunMetrics)
    ensures RunResults(m) == BeforeLinks(m) + FromLinks(m) + PriceResults(PricingContexts(m))
  {
    var a, b := SalesResults(SalesInputOf(m)) + StockResults(m.currentSkus), FlatMap(m.campaigns, CampaignResults());
    ConcatAssociative(a, b, FromLinks(m));
  }

  /** Two results of one run that are written to the same alert are low-stock advertising alerts of one
      product, raised by two different campaign links. */
  lemma SharedAlertIsTwoLinks(seller: int, m: RunMetrics, i: nat, j: nat) returns (k: nat, l: nat)
    requires DistinctInputs(m)
    requires i < j < |RunResults(m)| && SameAlert(seller)(RunResults(m)[i], RunResults(m)[j])
    ensures RunResults(m)[i].alertType == AdBudgetOnLowStockSku && RunResults(m)[j].alertType == AdBudgetOnLowStockSku
    ensures k < l < |m.links| && Raises(m, k) && Raises(m, l) && m.links[k].productId == m.links[l].productId
    ensures RunResults(m)[i] == LinkAlert(m, k) && RunResults(m)[j] == LinkAlert(m, l)
  {
    hide FingerprintOf, BeforeLinks, PriceResults, LinkRule, RunResults, PricingContexts, SameAlert, Raises;
    var before, links, prices := BeforeLinks(m), FromLinks(m), PriceResults(PricingContexts(m));
    RunResultsSplit(m);
    OnlyLinksShare(seller, m);
    BothInMiddle(before, links, prices, SameAlert(seller), i, j);
    var n := |before|;
    k, l := FlatMapOrigins(m.links, LinkResults(AdInputOf(m)), i - n, j - n);
    RaisesIff(m, k);
    RaisesIff(m, l);
    LinkAlertSubject(seller, m, k, l);
    LinkAlertSubject(seller, m, l, k);
  }

  /** The results before and after those of the links share alerts with no others. */
  lemma OnlyLinksShare(seller: int, m: RunMetrics)
    requires DistinctInputs(m)
    ensures var before, links, prices := BeforeLinks(m), FromLinks(m), PriceResults(PricingContexts(m));
      && PairwiseApart(before, SameAlert(seller)) && PairwiseApart(prices, SameAlert(seller))
      && AllApart(before, links, SameAlert(seller)) && AllApart(before, prices, SameAlert(seller))
      && AllApart(links, prices, SameAlert(seller))
  {
    hide FingerprintOf, BeforeLinks, PriceResults, LinkRule, PricingContexts, SameAlert;
    var before, links, prices := BeforeLinks(m), FromLinks(m), PriceResults(PricingContexts(m));
    BeforeLinksSolo(seller, m);
    PriceSolo(seller, m);
    FromLinksOfType(m);
    TypesApart(seller, before, BEFORE_LINKS_TYPES, links, {AdBudgetOnLowStockSku});
    TypesApart(seller, before, BEFORE_LINKS_TYPES, prices, PRICE_TYPES);
    TypesApart(seller, links, {AdBudgetOnLowStockSku}, prices, PRICE_TYPES);
  }

  lemma BothInMiddle<R(!new)>(a: seq<R>, b: seq<R>, c: seq<R>, same: (R, R) -> bool, i: nat, j: nat)
    requires PairwiseApart(a, same) && PairwiseApart(c, same)
    requires AllApart(a, b, same) && AllApart(a, c, same) && AllApart(b, c, same)
    requires i < j < |a + b + c|
    ensures same((a + b + c)[i], (a + b + c)[j]) ==>
      |a| <= i < j < |a| + |b| && (a + b + c)[i] == b[i - |a|] && (a + b + c)[j] == b[j - |a|]
  {
    var all, n, o := a + b + c, |a|, |a| + |b|;
    assert all[i] == if i < n then a[i] else if i < o then b[i - n] else c[i - o];
    assert all[j] == if j < n then a[j] else if j < o then b[j - n] else c[j - o];
  }

  // ---------------------------------------------------------------- counting alerts

  function KeyOf(seller: int): RuleResult -> string {
    (r: RuleResult) => FingerprintOf(seller, r)
  }

  /** The alerts a list of results is written to. */
  ghost function AlertKeys(seller: int, rs: seq<RuleResult>): set<string> {
    Values(rs, KeyOf(seller))
  }

  /** There are never more alerts than results, and as many exactly when no two results share one. */
  lemma AlertsByCount(seller: int, rs: seq<RuleResult>)
    ensures |AlertKeys(seller, rs)| <= |rs|
    ensures |AlertKeys(seller, rs)| == |rs| <==> PairwiseApart(rs, SameAlert(seller))
  {
    DistinctByCount(rs, KeyOf(seller));
    hide FingerprintOf;
    if DistinctValues(rs, KeyOf(seller)) {
      forall i, j | 0 <= i < j < |rs|
        ensures !SameAlert(seller)(rs[i], rs[j])
      {
        assert KeyOf(seller)(rs[i]) != KeyOf(seller)(rs[j]);
      }
    }
    if PairwiseApart(rs, SameAlert(seller)) {
      forall i, j | 0 <= i < j < |rs|
        ensures KeyOf(seller)(rs[i]) != KeyOf(seller)(rs[j])
      {
        assert !SameAlert(seller)(rs[i], rs[j]);
      }
    }
  }

  /** Two raising links of one product. */
  ghost predicate ProductRaisedTwice(m: RunMetrics) {
    exists k, l | 0 <= k < l < |m.links| :: Raises(m, k) && Raises(m, l) && m.links[k].productId == m.links[l].productId
  }

  /** A run writes to at most as many alerts as it upserts results, and to exactly as many unless some
      low-stock product is advertised through two active campaign links. */
  lemma RunAlertsByCount(seller: int, m: RunMetrics)
    requires DistinctInputs(m)
    ensures |AlertKeys(seller, RunResults(m))| <= |RunResults(m)|
    ensures |AlertKeys(seller, RunResults(m))| == |RunResults(m)| <==> !ProductRaisedTwice(m)
  {
    hide FingerprintOf, BeforeLinks, LinkRule, PriceResults, RunResults, PricingContexts, Raises;
    var rs := RunResults(m);
    AlertsByCount(seller, rs);
    if !PairwiseApart(rs, SameAlert(seller)) {
      var i, j :| 0 <= i < j < |rs| && SameAlert(seller)(rs[i], rs[j]);
      var k, l := SharedAlertIsTwoLinks(seller, m, i, j);
    }
    if ProductRaisedTwice(m) {
      var k, l :| 0 <= k < l < |m.links| && Raises(m, k) && Raises(m, l)
               && m.links[k].productId == m.links[l].productId;
      RaisesIff(m, k);
      RaisesIff(m, l);
      LinkAlertSubject(seller, m, k, l);
      var i, j := FlatMapPlaces(m.links, LinkResults(AdInputOf(m)), k, l, LinkAlert(m, k), LinkAlert(m, l));
      RunResultsSplit(m);
      var n := |BeforeLinks(m)|;
      assert rs[n + i] == FromLinks(m)[i] && rs[n + j] == FromLinks(m)[j];
      assert SameAlert(seller)(rs[n + i], rs[n + j]);
    }
  }

  /** An empty SKU advertised by two spending campaigns. */
  function TwoCampaignsOneSku(): RunMetrics {
    RunMetrics(None, None, [SkuDailyMetric(1, None, None, 0, None, 0.0, 0)], [],
               [CampaignSummary(10, 5.0, 0, 0.0), CampaignSummary(20, 5.0, 0, 0.0)],
               [CampaignSkuLink(10, 1, true), CampaignSkuLink(20, 1, true)], [], [])
  }

  /** A run over it counts more upserts than it has alerts to show for. */
  lemma RunCanShareAnAlert(seller: int)
    ensures DistinctInputs(TwoCampaignsOneSku()) && ProductRaisedTwice(TwoCampaignsOneSku())
    ensures |AlertKeys(seller, RunResults(TwoCampaignsOneSku()))| < |RunResults(TwoCampaignsOneSku())|
  {
    var m := TwoCampaignsOneSku();
    RaisesByRows(m, 0);
    RaisesByRows(m, 1);
    assert m.campaigns[0].campaignId == 10 && m.campaigns[1].campaignId == 20 && LowOnStock(m.currentSkus[0]);
    assert Raises(m, 0) && Raises(m, 1);
    hide Raises, RunResults, DistinctInputs;
    RunAlertsByCount(seller, m);
  }
}
