/** What the advertising page shows, in the figures it was built from: how each ratio is rounded, when each signal is
    raised, and in which order the rows come for every request. */
module AdvertisingFigures {
  import opened Wrappers
  import opened Text
  import opened Batches
  import opened Sorting
  import opened Sums
  import opened CriticalSkus
  import opened AdvertisingTrends
  import opened Advertising

  // ---------------------------------------------------------------- the figures of a campaign

  /** `share` is the quotient rounded to the nearest whole number, halves away from zero, or zero without a divisor. */
  ghost predicate RoundedQuotient(share: int, numerator: int, divisor: int) {
    && (divisor == 0 ==> share == 0)
    && (divisor > 0 && numerator >= 0 ==> (2 * share - 1) * divisor <= 2 * numerator < (2 * share + 1) * divisor)
    && (divisor > 0 && numerator < 0 ==> (2 * share - 1) * divisor < 2 * numerator <= (2 * share + 1) * divisor)
  }

  lemma ScaledOrder(x: real, q: real, y: real)
    requires y > 0.0
    ensures x * y <= q * y <==> x <= q
    ensures x * y < q * y <==> x < q
    ensures q * y < x * y <==> q < x
    ensures q * y <= x * y <==> q <= x
  {
  }

  lemma NearestQuotient(numerator: int, divisor: int, q: real)
    requires divisor > 0 && q * divisor as real == numerator as real
    ensures RoundedQuotient(Nearest(q), numerator, divisor)
  {
    var n, d := Nearest(q), divisor as real;
    hide Nearest;
    ScaledOrder(0.0, q, d);
    assert 2.0 * q * d == (2 * numerator) as real;
    Between(2 * n - 1, 2.0 * q, divisor, 2 * numerator);
    Between(2 * n + 1, 2.0 * q, divisor, 2 * numerator);
  }

  /** A whole number against a quotient, without the quotient. */
  lemma Between(n: int, q: real, divisor: int, numerator: int)
    requires divisor > 0 && q * divisor as real == numerator as real
    ensures n as real <= q <==> n * divisor <= numerator
    ensures n as real < q <==> n * divisor < numerator
  {
    ScaledOrder(n as real, q, divisor as real);
    ProductAsReal(n, divisor);
  }

  lemma RatioIs(numerator: int, divisor: int)
    requires divisor != 0
    ensures SafeRatio(numerator as real, divisor as real) * divisor as real == numerator as real
  {
  }

  /** The rate of clicks in hundredths and the price of a click in cents, for counts that are not negative, and the
      summary's own figures under their own names. */
  lemma CampaignFigures(row: Summary, signal: Efficiency)
    requires row.impressions >= 0 && row.clicks >= 0
    ensures var campaign := CampaignOf(row, signal);
      && campaign.id == row.id && campaign.spendCents == row.spendCents && campaign.revenueCents == row.revenueCents
      && campaign.impressions == row.impressions && campaign.clicks == row.clicks && campaign.orders == row.orders
      && campaign.signal == signal
      && RoundedQuotient(campaign.ctr, 100 * row.clicks, row.impressions)
      && RoundedQuotient(campaign.cpc, row.spendCents, row.clicks)
  {
    hide RoundedQuotient, Nearest;
    var ctr := 100.0 * SafeRatio(row.clicks as real, row.impressions as real);
    if row.impressions == 0 {
      NothingRoundsToNothing(100 * row.clicks);
    } else {
      RatioIs(row.clicks, row.impressions);
      assert ctr * row.impressions as real == (100 * row.clicks) as real;
      NearestQuotient(100 * row.clicks, row.impressions, ctr);
    }
    if row.clicks == 0 {
      NothingRoundsToNothing(row.spendCents);
    } else {
      RatioIs(row.spendCents, row.clicks);
      NearestQuotient(row.spendCents, row.clicks, SafeRatio(row.spendCents as real, row.clicks as real));
    }
  }

  lemma NothingRoundsToNothing(numerator: int)
    ensures Nearest(0.0) == 0 && RoundedQuotient(0, numerator, 0)
  {
  }

  lemma RatioBelow(numerator: int, divisor: int, bound: real)
    requires divisor > 0
    ensures SafeRatio(numerator as real, divisor as real) < bound <==> numerator as real < bound * divisor as real
    ensures SafeRatio(numerator as real, divisor as real) > bound <==> numerator as real > bound * divisor as real
  {
    RatioIs(numerator, divisor);
    ScaledOrder(bound, SafeRatio(numerator as real, divisor as real), divisor as real);
    hide SafeRatio;
  }

  /** A campaign that spends is weak when nothing is ordered, revenue is below spend, fewer than one impression in two
      hundred is clicked, or a click costs more than sixty; growth without result comes before that. */
  lemma EfficiencyIff(row: Summary, grew: bool)
    requires row.impressions >= 0 && row.clicks >= 0
    ensures EfficiencyOf(row, grew) == GrowthWithoutResult <==> row.spendCents > 0 && grew
    ensures EfficiencyOf(row, grew) == WeakEfficiency <==>
      && row.spendCents > 0 && !grew
      && (|| row.orders == 0 || row.revenueCents < row.spendCents
          || row.impressions == 0 || 200 * row.clicks < row.impressions
          || (row.clicks > 0 && row.spendCents > 6000 * row.clicks))
  {
    if row.impressions > 0 {
      RatioBelow(row.clicks, row.impressions, 0.005);
    }
    if row.clicks > 0 {
      RatioBelow(row.spendCents, row.clicks, 6000.0);
    }
    assert SafeRatio(row.clicks as real, 0.0) == 0.0 == SafeRatio(row.spendCents as real, 0.0);
    hide SafeRatio;
  }

  /** A status counts as active when it contains the word, or is one of the two others, in any case. */
  lemma ActiveStatusIff(status: string)
    ensures IsActiveStatus(status) <==>
      || Contains(ToLower(status), "active")
      || ToLower(TrimSpace(status)) == "running" || ToLower(TrimSpace(status)) == "enabled"
  {
    TrimKeepsWords(status, "active");
    NothingContains("active");
  }

  // ---------------------------------------------------------------- the signals of a product

  /** Stock: critical when there is none, low up to three pieces or three days, otherwise fine. */
  lemma StockSignalIff(latest: SkuRow)
    ensures ResolveStock(latest) == StockCritical <==> latest.stock <= 0
    ensures ResolveStock(latest) == StockOk <==>
      latest.stock > 3 && (latest.daysOfCover.None? || latest.daysOfCover.value > 300)
  {
  }

  /** Trend: weak without both rows and without revenue, or with fewer orders where revenue held; stable otherwise,
      unless revenue fell by more than a fifth. */
  lemma TrendIff(latest: SkuRow, previous: SkuRow)
    ensures var both := latest.productId != 0 && previous.productId != 0;
      var fell := both && previous.revenueCents > 0 && 5 * latest.revenueCents < 4 * previous.revenueCents;
      && (ResolveSalesTrend(latest, previous) == Declining <==> fell)
      && (ResolveSalesTrend(latest, previous) == Weak <==>
            !fell && if both then latest.orders < previous.orders else latest.revenueCents <= 0)
  {
  }

  /** A product without a metric row has neither stock nor sales. */
  lemma UnknownProduct(rows: seq<SkuRow>, upper: int, productId: int)
    requires forall row | row in rows :: row.productId == productId ==> row.day > upper + 1
    ensures var newest, previous := NewestOf(rows, upper, productId), PreviousOf(rows, upper, productId);
      && ResolveStock(newest) == StockCritical && ResolveSalesTrend(newest, previous) == Weak
  {
    NothingPicked(rows, upper, productId);
  }

  lemma {:induction false} NothingPicked(rows: seq<SkuRow>, upper: int, productId: int)
    requires forall row | row in rows :: row.productId == productId ==> row.day > upper + 1
    ensures Pick(rows, upper, productId).None?
  {
    if rows == [] {
    } else {
      assert rows[|rows| - 1] in rows;
      NothingPicked(rows[..|rows| - 1], upper, productId);
    }
  }

  /** Spend is wasted only where there is some: highly on a falling product or a growing campaign without result, in
      part on a weak one. */
  lemma WasteIff(spendPerSku: real, trend: Trend, efficiency: Efficiency)
    ensures ResolveAdWaste(spendPerSku, trend, efficiency) == WasteHigh <==>
      spendPerSku > 0.0 && (trend == Declining || efficiency == GrowthWithoutResult)
    ensures ResolveAdWaste(spendPerSku, trend, efficiency) == WasteOk <==>
      spendPerSku <= 0.0 || (trend == Stable && efficiency == EfficiencyOk)
  {
  }

  // ---------------------------------------------------------------- growth over days

  /** Earlier days first. */
  ghost predicate InDateOrder(rows: seq<AdRow>) {
    forall i, j | 0 <= i < j < |rows| :: rows[i].day < rows[j].day
  }

  /** With one row per day, the verdict on a campaign's days compares what came later with what came earlier. */
  lemma GrowthReadsDates(daily: seq<AdRow>, inOrder: seq<AdRow>)
    requires multiset(daily) == multiset(inOrder) && InDateOrder(inOrder)
    ensures GrewWithoutResult(Sort(daily, Earlier())) <==> GrewWithoutResult(inOrder)
  {
    SortPermutes(daily, Earlier());
    SortSorts(daily, Earlier());
    assert DistinctValues(inOrder, AdDay()) && Sorted(inOrder, Earlier());
    GrowthForgetsOrder(inOrder, Sort(daily, Earlier()));
  }

  // ---------------------------------------------------------------- the order of the rows

  /** Larger figures first, or smaller first when asked for, and smaller ids first among equals. */
  ghost predicate InOrder(figure: int, next: int, id: int, nextId: int, ascending: bool) {
    && (if ascending then figure <= next else figure >= next)
    && (figure == next ==> id <= nextId)
  }

  /** The key a request names, spaces and case aside. */
  function KeyOfRequest(sortBy: string): string {
    ToLower(TrimSpace(sortBy))
  }

  ghost predicate AsksAscending(sortOrder: string) {
    ToLower(TrimSpace(sortOrder)) == "asc"
  }

  /** A ranking of campaigns is in the order of the figure the request names, and of the spend if it names no other. */
  lemma CampaignRankingReads(ranked: seq<Campaign>, summaries: seq<Summary>, dailyRows: seq<AdRow>, sortBy: string,
                             sortOrder: string, i: nat, j: nat)
    requires RankedCampaigns(ranked, summaries, dailyRows, ParseCampaignSort(sortBy), IsDescending(sortOrder))
    requires i < j < |ranked|
    ensures var a, b, key, asc := ranked[i], ranked[j], KeyOfRequest(sortBy), AsksAscending(sortOrder);
      && (key == "revenue_total" ==> InOrder(a.revenueCents, b.revenueCents, a.id, b.id, asc))
      && (key == "ctr" ==> InOrder(a.ctr, b.ctr, a.id, b.id, asc))
      && (key == "cpc" ==> InOrder(a.cpc, b.cpc, a.id, b.id, asc))
      && (key == "clicks_total" ==> InOrder(a.clicks, b.clicks, a.id, b.id, asc))
      && (key != "revenue_total" && key != "ctr" && key != "cpc" && key != "clicks_total" ==>
            InOrder(a.spendCents, b.spendCents, a.id, b.id, asc))
  {
    hide ToLower, TrimSpace, FlatMap, CampaignsOf;
    var less := CampaignOrder(ParseCampaignSort(sortBy), IsDescending(sortOrder));
    assert !less(ranked[j], ranked[i]);
  }

  /** In the order of their texts, critical stock comes before low and low before fine. */
  ghost predicate StockUpTo(left: StockSignal, right: StockSignal) {
    left == StockCritical || right == StockOk || left == right
  }

  /** Declining comes before stable and stable before weak. */
  ghost predicate TrendUpTo(left: Trend, right: Trend) {
    left == Declining || right == Weak || left == right
  }

  /** A ranking of risk rows is in the order of the signal the request names, or else of the spend. */
  lemma RiskRankingReads(ranked: seq<RiskRow>, campaigns: map<int, Campaign>, links: seq<Link>, rows: seq<SkuRow>,
                         upper: int, sortBy: string, sortOrder: string, i: nat, j: nat)
    requires RankedRisks(ranked, campaigns, links, rows, upper, ParseRiskSort(sortBy), IsDescending(sortOrder))
    requires i < j < |ranked|
    ensures var a, b, key, asc := ranked[i], ranked[j], KeyOfRequest(sortBy), AsksAscending(sortOrder);
      && (key == "stock_signal" ==>
            && (if asc then StockUpTo(a.stock, b.stock) else StockUpTo(b.stock, a.stock))
            && (a.stock == b.stock ==> a.productId <= b.productId))
      && (key == "sales_trend_signal" ==>
            && (if asc then TrendUpTo(a.trend, b.trend) else TrendUpTo(b.trend, a.trend))
            && (a.trend == b.trend ==> a.productId <= b.productId))
      && (key != "stock_signal" && key != "sales_trend_signal" ==>
            InOrder(a.spendCents, b.spendCents, a.productId, b.productId, asc))
  {
    hide ToLower, TrimSpace, FlatMap, RisksOf;
    var less := RiskOrder(ParseRiskSort(sortBy), IsDescending(sortOrder));
    assert !less(ranked[j], ranked[i]);
  }
}
