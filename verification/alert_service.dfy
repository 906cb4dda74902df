/** The alert service: four stages that read metrics and upsert alerts, inside a run record that is
    created first and completed or failed last. Any call to the repository may fail. */
module AlertService {
  import opened Wrappers
  import opened Units
  import opened Batches
  import opened AlertTypes
  import opened AlertRules
  import opened AlertRuns

  datatype RunStatus = Running | Completed | Failed

  datatype AlertRun = AlertRun(
    seller: int, status: RunStatus, salesCount: int, stockCount: int, adCount: int, priceCount: int, totalCount: int)

  datatype Stage = CreateStage | SalesStage | StockStage | AdvertisingStage | PriceStage | CompleteStage

  datatype StageSummary = StageSummary(generated: nat, upserted: nat, skipped: nat)

  datatype RunSummary = RunSummary(
    runId: int, status: RunStatus, sales: StageSummary, stock: StageSummary, advertising: StageSummary,
    price: StageSummary,
    totalGenerated: nat, totalUpserted: nat, totalSkipped: nat)

  /** The tables behind the service. Queries answer from fixed data; `succeeds(n)` says whether the n-th
      call works. A failing call has no effect. `left` lists the runs that left the running state. */
  class Repository {
    const accountMetric: (int, int) -> Option<AccountDailyMetric>
    const skuMetrics: (int, int) -> seq<SkuDailyMetric>
    const campaignSummaries: (int, int, int) -> seq<CampaignSummary>
    const campaignLinks: int -> seq<CampaignSkuLink>
    const products: int -> seq<ProductRow>
    const constraints: int -> seq<EffectiveConstraint>
    const succeeds: nat -> bool

    var calls: nat
    var alerts: AlertStore
    var runs: map<int, AlertRun>
    var nextRunId: int
    ghost var left: seq<int>

    /** Every call numbered from `a` up to `b` succeeds. */
    ghost predicate AllSucceed(a: nat, b: nat) {
      forall n | a <= n < b :: succeeds(n)
    }

    /** Calls from `a` on succeeded until the last one before `b` failed. */
    ghost predicate LastFailed(a: nat, b: nat) {
      a < b && AllSucceed(a, b - 1) && !succeeds(b - 1)
    }

    /** Run ids are fresh, and a run has left the running state exactly once or not at all. */
    ghost predicate Valid()
      reads this
    {
      && (forall id | id in runs :: id < nextRunId)
      && (forall k | 0 <= k < |left| :: left[k] in runs)
      && (forall j, k | 0 <= j < k < |left| :: left[j] != left[k])
      && (forall id | id in runs :: runs[id].status == Running <==> id !in left)
    }

    method Call() returns (ok: bool)
      modifies this`calls
      ensures calls == old(calls) + 1 && ok == succeeds(old(calls))
    {
      ok := succeeds(calls);
      calls := calls + 1;
    }

    method UpsertAlert(seller: int, r: RuleResult) returns (ok: bool)
      modifies this`calls, this`alerts
      ensures calls == old(calls) + 1 && ok == succeeds(old(calls))
      ensures alerts == if ok then Upsert(old(alerts), seller, r) else old(alerts)
    {
      ok := Call();
      if ok {
        alerts := Upsert(alerts, seller, r);
      }
    }

    method CreateRun(seller: int) returns (ok: bool, id: int)
      requires Valid()
      modifies this`calls, this`runs, this`nextRunId
      ensures Valid() && calls == old(calls) + 1 && ok == succeeds(old(calls))
      ensures !ok ==> runs == old(runs)
      ensures ok ==> id !in old(runs) && runs == old(runs)[id := AlertRun(seller, Running, 0, 0, 0, 0, 0)]
    {
      ok := Call();
      id := nextRunId;
      if ok {
        runs := runs[id := AlertRun(seller, Running, 0, 0, 0, 0, 0)];
        nextRunId := nextRunId + 1;
      }
    }

    method CompleteRun(id: int, done: AlertRun) returns (ok: bool)
      requires Valid() && id in runs && id !in left && done.status == Completed
      modifies this`calls, this`runs, this`left
      ensures Valid() && calls == old(calls) + 1 && ok == succeeds(old(calls))
      ensures runs == if ok then old(runs)[id := done] else old(runs)
    {
      ok := Call();
      if ok {
        runs := runs[id := done];
        left := left + [id];
      }
    }

    method FailRun(id: int) returns (ok: bool)
      requires Valid() && id in runs && id !in left
      modifies this`calls, this`runs, this`left
      ensures Valid() && calls == old(calls) + 1 && ok == succeeds(old(calls))
      ensures runs == if ok then old(runs)[id := old(runs)[id].(status := Failed)] else old(runs)
    {
      ok := Call();
      if ok {
        runs := runs[id := runs[id].(status := Failed)];
        left := left + [id];
      }
    }

    /** What a run of `seller` on `day` looks at. */
    function Metrics(seller: int, day: int): RunMetrics {
      RunMetrics(accountMetric(seller, day), accountMetric(seller, day - 1), skuMetrics(seller, day),
                 skuMetrics(seller, day - 1),
                 campaignSummaries(seller, day - 6, day), campaignLinks(seller), products(seller), constraints(seller))
    }
  }

  /** The contract every stage shares: the calls it makes, what it leaves in the alert table, what it
      reports. */
  twostate predicate StageRan(repo: Repository, seller: int, results: seq<RuleResult>, applications: nat,
                              new r: Result<StageSummary, Stage>)
    reads repo
  {
    && old(repo.calls) < repo.calls
    && (r.Ok? ==> repo.AllSucceed(old(repo.calls), repo.calls))
    && (r.Err? ==> repo.LastFailed(old(repo.calls), repo.calls))
    && (r.Ok? ==>
          && repo.alerts == UpsertAll(old(repo.alerts), seller, results)
          && r.value.generated == r.value.upserted == |results|
          && r.value.generated + r.value.skipped == applications)
    && (r.Err? ==> WrotePrefix(old(repo.alerts), repo.alerts, seller, results))
  }

  /** The upsert loop of a stage. */
  method UpsertResults(repo: Repository, seller: int, results: seq<RuleResult>) returns (ok: bool, upserted: nat)
    modifies repo`calls, repo`alerts
    ensures upserted <= |results| && repo.alerts == UpsertAll(old(repo.alerts), seller, results[..upserted])
    ensures ok ==>
      upserted == |results| && repo.calls == old(repo.calls) + |results| && repo.AllSucceed(old(repo.calls), repo.calls)
    ensures !ok ==> repo.LastFailed(old(repo.calls), repo.calls)
  {
    hide Upsert;
    upserted := 0;
    while upserted < |results|
      invariant upserted <= |results| && repo.calls == old(repo.calls) + upserted
      invariant repo.AllSucceed(old(repo.calls), repo.calls)
      invariant repo.alerts == UpsertAll(old(repo.alerts), seller, results[..upserted])
    {
      assert results[..upserted + 1][..upserted] == results[..upserted];
      ok := repo.UpsertAlert(seller, results[upserted]);
      if !ok {
        return;
      }
      upserted := upserted + 1;
    }
    ok := true;
  }

  method FinishStage(repo: Repository, seller: int, results: seq<RuleResult>, skipped: nat, stage: Stage,
                     ghost start: nat)
      returns (r: Result<StageSummary, Stage>)
    requires start < repo.calls && repo.AllSucceed(start, repo.calls)
    modifies repo`calls, repo`alerts
    ensures start < repo.calls
    ensures r.Ok? ==> repo.AllSucceed(start, repo.calls)
    ensures r.Err? ==> repo.LastFailed(start, repo.calls) && r.error == stage
    ensures r.Ok? ==> repo.alerts == UpsertAll(old(repo.alerts), seller, results)
    ensures r.Ok? ==> r.value == StageSummary(|results|, |results|, skipped)
    ensures r.Err? ==> WrotePrefix(old(repo.alerts), repo.alerts, seller, results)
  {
    var ok, upserted := UpsertResults(repo, seller, results);
    if !ok {
      return Err(stage);
    }
    assert results[..upserted] == results;
    r := Ok(StageSummary(|results|, upserted, skipped));
  }

  method RunSalesAlerts(repo: Repository, seller: int, asOf: int) returns (r: Result<StageSummary, Stage>)
    modifies repo`calls, repo`alerts
    ensures var input := SalesInputOf(repo.Metrics(seller, asOf));
      StageRan(repo, seller, SalesResults(input), SalesApplications(input), r)
    ensures r.Err? ==> r.error == SalesStage
  {
    hide SalesResults, SalesApplications;
    ghost var input := SalesInputOf(repo.Metrics(seller, asOf));
    assert repo.alerts == UpsertAll(repo.alerts, seller, SalesResults(input)[..0]);
    var ok := repo.Call();
    if !ok { return Err(SalesStage); }
    var currentAccount := repo.accountMetric(seller, asOf);
    ok := repo.Call();
    if !ok { return Err(SalesStage); }
    var previousAccount := repo.accountMetric(seller, asOf - 1);
    ok := repo.Call();
    if !ok { return Err(SalesStage); }
    var currentSkus := repo.skuMetrics(seller, asOf);
    ok := repo.Call();
    if !ok { return Err(SalesStage); }
    var previousSkus := repo.skuMetrics(seller, asOf - 1);
    var previousByProduct := IndexRows(previousSkus, ProductId());
    var results, skipped :=
      EvaluateSalesRules(SalesInput(currentAccount, previousAccount, currentSkus, previousByProduct));
    r := FinishStage(repo, seller, results, skipped, SalesStage, old(repo.calls));
  }

  method RunStockAlerts(repo: Repository, seller: int, asOf: int) returns (r: Result<StageSummary, Stage>)
    modifies repo`calls, repo`alerts
    ensures var skus := repo.Metrics(seller, asOf).currentSkus;
      StageRan(repo, seller, StockResults(skus), StockApplications(skus), r)
    ensures r.Err? ==> r.error == StockStage
  {
    hide StockResults, StockApplications;
    ghost var all := StockResults(repo.Metrics(seller, asOf).currentSkus);
    assert repo.alerts == UpsertAll(repo.alerts, seller, all[..0]);
    var ok := repo.Call();
    if !ok { return Err(StockStage); }
    var results, skipped := EvaluateStockRules(repo.skuMetrics(seller, asOf));
    r := FinishStage(repo, seller, results, skipped, StockStage, old(repo.calls));
  }

  method RunAdvertisingAlerts(repo: Repository, seller: int, asOf: int) returns (r: Result<StageSummary, Stage>)
    modifies repo`calls, repo`alerts
    ensures var input := AdInputOf(repo.Metrics(seller, asOf));
      StageRan(repo, seller, AdvertisingResults(input), AdvertisingApplications(input), r)
    ensures r.Err? ==> r.error == AdvertisingStage
  {
    hide AdvertisingResults, AdvertisingApplications;
    ghost var all := AdvertisingResults(AdInputOf(repo.Metrics(seller, asOf)));
    assert repo.alerts == UpsertAll(repo.alerts, seller, all[..0]);
    var ok := repo.Call();
    if !ok { return Err(AdvertisingStage); }
    var campaigns := repo.campaignSummaries(seller, asOf - 6, asOf);
    ok := repo.Call();
    if !ok { return Err(AdvertisingStage); }
    var links := repo.campaignLinks(seller);
    ok := repo.Call();
    if !ok { return Err(AdvertisingStage); }
    var skus := repo.skuMetrics(seller, asOf);
    var results, skipped := EvaluateAdvertisingRules(AdInput(campaigns, links, skus));
    r := FinishStage(repo, seller, results, skipped, AdvertisingStage, old(repo.calls));
  }

  method RunPriceEconomicsAlerts(repo: Repository, seller: int, asOf: int) returns (r: Result<StageSummary, Stage>)
    modifies repo`calls, repo`alerts
    ensures var m := repo.Metrics(seller, asOf);
      StageRan(repo, seller, PriceResults(PricingContexts(m)), 4 * |m.products|, r)
    ensures r.Err? ==> r.error == PriceStage
  {
    hide PriceResults;
    ghost var m := repo.Metrics(seller, asOf);
    assert repo.alerts == UpsertAll(repo.alerts, seller, PriceResults(PricingContexts(m))[..0]);
    var ok := repo.Call();
    if !ok { return Err(PriceStage); }
    var products := repo.products(seller);
    ok := repo.Call();
    if !ok { return Err(PriceStage); }
    var effectiveConstraints := repo.constraints(seller);
    ok := repo.Call();
    if !ok { return Err(PriceStage); }
    var skuMetrics := repo.skuMetrics(seller, asOf);
    var constraintsByProduct := IndexRows(effectiveConstraints, ConstraintProduct());
    var skuMetricsByProduct := IndexRows(skuMetrics, ProductId());
    var contexts: seq<PricingContext> := [];
    for i := 0 to |products|
      invariant contexts == PricingContexts(m)[..i]
    {
      contexts := contexts + [PricingContextOf(products[i], constraintsByProduct, skuMetricsByProduct)];
    }
    assert contexts == PricingContexts(m);
    var results, skipped := EvaluatePriceEconomicsRules(contexts);
    r := FinishStage(repo, seller, results, skipped, PriceStage, old(repo.calls));
  }

  // ---------------------------------------------------------------- the run

  lemma NothingUpserted(store: AlertStore, seller: int)
    ensures UpsertAll(store, seller, []) == store
  {
  }

  lemma AllWritten(before: AlertStore, seller: int, rs: seq<RuleResult>)
    ensures WrotePrefix(before, UpsertAll(before, seller, rs), seller, rs)
  {
    assert rs[..|rs|] == rs;
  }

  /** The number of rule applications of a whole run. */
  function RunApplications(m: RunMetrics): nat {
    SalesApplications(SalesInputOf(m)) + StockApplications(m.currentSkus)
    + AdvertisingApplications(AdInputOf(m)) + 4 * |m.products|
  }

  /** A run record marked completed with the counts of its four groups. */
  function CompletedRun(seller: int, s: RunSummary): AlertRun {
    AlertRun(seller, Completed, Int32(s.sales.upserted), Int32(s.stock.upserted), Int32(s.advertising.upserted),
             Int32(s.price.upserted), Int32(s.totalUpserted))
  }

  /** The totals of a summary add up, and account for every rule application. */
  predicate Accounted(s: RunSummary, m: RunMetrics) {
    && s.totalGenerated == s.sales.generated + s.stock.generated + s.advertising.generated + s.price.generated
    && s.totalUpserted == s.sales.upserted + s.stock.upserted + s.advertising.upserted + s.price.upserted
    && s.totalSkipped == s.sales.skipped + s.stock.skipped + s.advertising.skipped + s.price.skipped
    && s.totalUpserted == s.totalGenerated == |RunResults(m)|
    && s.totalGenerated + s.totalSkipped == RunApplications(m)
  }

  method FailRunAndWrap(repo: Repository, id: int, stage: Stage) returns (error: Stage)
    requires repo.Valid() && id in repo.runs && id !in repo.left
    modifies repo`calls, repo`runs, repo`left
    ensures repo.Valid() && error == stage && repo.calls == old(repo.calls) + 1
    ensures repo.runs
             == if repo.succeeds(old(repo.calls)) then old(repo.runs)[id := old(repo.runs)[id].(status := Failed)]
                else old(repo.runs)
  {
    var marked := repo.FailRun(id);
    error := stage;
  }

  method RunStages(repo: Repository, seller: int, asOf: int)
      returns (r: Result<RunSummary, Stage>)
    modifies repo`calls, repo`alerts
    ensures old(repo.calls) < repo.calls
    ensures r.Ok? ==> repo.AllSucceed(old(repo.calls), repo.calls)
    ensures r.Err? ==> repo.LastFailed(old(repo.calls), repo.calls)
    ensures r.Err? ==> r.error in {SalesStage, StockStage, AdvertisingStage, PriceStage}
    ensures r.Ok? ==>
      var m := repo.Metrics(seller, asOf);
      repo.alerts == UpsertAll(old(repo.alerts), seller, RunResults(m)) && Accounted(r.value, m)
    ensures r.Err? ==> WrotePrefix(old(repo.alerts), repo.alerts, seller, RunResults(repo.Metrics(seller, asOf)))
  {
    hide SalesResults, StockResults, AdvertisingResults, PriceResults, SalesApplications, StockApplications;
    hide AdvertisingApplications;
    hide UpsertAll, WrotePrefix;
    ghost var m := repo.Metrics(seller, asOf);
    ghost var store0 := repo.alerts;
    ghost var a, b := SalesResults(SalesInputOf(m)), StockResults(m.currentSkus);
    ghost var c, d := AdvertisingResults(AdInputOf(m)), PriceResults(PricingContexts(m));
    NothingUpserted(store0, seller);
    var sales := RunSalesAlerts(repo, seller, asOf);
    if sales.Err? {
      StageLeavesPrefix(store0, store0, repo.alerts, seller, [], a, a + b + c + d);
      return Err(sales.error);
    }
    ghost var store1 := repo.alerts;
    var stock := RunStockAlerts(repo, seller, asOf);
    if stock.Err? {
      StageLeavesPrefix(store0, store1, repo.alerts, seller, a, b, a + b + c + d);
      return Err(stock.error);
    }
    UpsertAllConcat(store0, seller, a, b);
    ghost var store2 := repo.alerts;
    var advertising := RunAdvertisingAlerts(repo, seller, asOf);
    if advertising.Err? {
      StageLeavesPrefix(store0, store2, repo.alerts, seller, a + b, c, a + b + c + d);
      return Err(advertising.error);
    }
    UpsertAllConcat(store0, seller, a + b, c);
    ghost var store3 := repo.alerts;
    var price := RunPriceEconomicsAlerts(repo, seller, asOf);
    if price.Err? {
      StageLeavesPrefix(store0, store3, repo.alerts, seller, a + b + c, d, a + b + c + d);
      return Err(price.error);
    }
    UpsertAllConcat(store0, seller, a + b + c, d);
    r := Ok(RunSummary(0, Running, sales.value, stock.value, advertising.value, price.value,
      sales.value.generated + stock.value.generated + advertising.value.generated + price.value.generated,
      sales.value.upserted + stock.value.upserted + advertising.value.upserted + price.value.upserted,
      sales.value.skipped + stock.value.skipped + advertising.value.skipped + price.value.skipped));
  }

  /** The status a failing run ends in: failed if a stage went wrong and the record could be marked. */
  function AfterError(stage: Stage, lastCallSucceeded: bool): RunStatus {
    if stage != CompleteStage && lastCallSucceeded then Failed else Running
  }

  /** What one run leaves of its record: completed with its counts, failed, or still running when
      completing it, or marking it failed, did not work. */
  twostate predicate RecordLeft(repo: Repository, seller: int, id: int, new r: Result<RunSummary, Stage>)
    reads repo
  {
    && id in old(repo.runs) && id in repo.runs
    && repo.runs == old(repo.runs)[id := repo.runs[id]]
    && (r.Ok? ==> r.value.runId == id && r.value.status == Completed && repo.runs[id] == CompletedRun(seller, r.value))
    && (r.Err? ==> repo.runs[id].status == AfterError(r.error, repo.calls > 0 && repo.succeeds(repo.calls - 1)))
  }

  lemma CompletedSummary(seller: int, s: RunSummary, id: int, m: RunMetrics)
    ensures var completed := s.(runId := id, status := Completed);
      CompletedRun(seller, completed).status == Completed && (Accounted(s, m) ==> Accounted(completed, m))
  {
  }

  /** The part of a run after its record was created. */
  method RunCreated(repo: Repository, seller: int, asOf: int, id: int) returns (r: Result<RunSummary, Stage>)
    requires repo.Valid() && id in repo.runs && repo.runs[id].status == Running
    modifies repo
    ensures repo.Valid() && old(repo.calls) < repo.calls
    ensures r.Ok? <==> repo.AllSucceed(old(repo.calls), repo.calls)
    ensures r.Err? ==> r.error != CreateStage
    ensures RecordLeft(repo, seller, id, r)
    ensures r.Ok? ==>
      var m := repo.Metrics(seller, asOf);
      Accounted(r.value, m) && repo.alerts == UpsertAll(old(repo.alerts), seller, RunResults(m))
    ensures r.Err? ==> WrotePrefix(old(repo.alerts), repo.alerts, seller, RunResults(repo.Metrics(seller, asOf)))
  {
    hide RunResults, RunApplications, UpsertAll, WrotePrefix, Accounted, CompletedRun, Repository.Metrics;
    var stages := RunStages(repo, seller, asOf);
    if stages.Err? {
      ghost var failing := repo.calls - 1;
      var error := FailRunAndWrap(repo, id, stages.error);
      assert !repo.succeeds(failing);
      return Err(error);
    }
    var summary := stages.value.(runId := id, status := Completed);
    CompletedSummary(seller, stages.value, id, repo.Metrics(seller, asOf));
    var completed := repo.CompleteRun(id, CompletedRun(seller, summary));
    if !completed {
      AllWritten(old(repo.alerts), seller, RunResults(repo.Metrics(seller, asOf)));
      assert !repo.succeeds(repo.calls - 1);
      return Err(CompleteStage);
    }
    r := Ok(summary);
  }

  /** One run. It succeeds exactly when every repository call does; then its record is completed with the
      counts of what was written. Otherwise its record, if there is one, is failed or still running,
      never completed, and a prefix of its results is written. No other record changes. */
  method RunForAccount(repo: Repository, seller: int, asOfDate: int) returns (r: Result<RunSummary, Stage>)
    requires repo.Valid()
    modifies repo
    ensures repo.Valid()
    ensures r.Ok? <==> repo.AllSucceed(old(repo.calls), repo.calls)
    ensures forall id | id in old(repo.runs) :: id in repo.runs && repo.runs[id] == old(repo.runs)[id]
    ensures r.Ok? ==>
      var m := repo.Metrics(seller, DayOf(asOfDate));
      && r.value.runId !in old(repo.runs)
      && r.value.status == Completed
      && repo.runs == old(repo.runs)[r.value.runId := CompletedRun(seller, r.value)]
      && Accounted(r.value, m)
      && repo.alerts == UpsertAll(old(repo.alerts), seller, RunResults(m))
    ensures r.Err? ==> (r.error == CreateStage <==> !repo.succeeds(old(repo.calls)))
    ensures r.Err? && r.error == CreateStage ==> repo.runs == old(repo.runs) && repo.alerts == old(repo.alerts)
    ensures r.Err? && r.error != CreateStage ==>
      (exists id :: id !in old(repo.runs) && id in repo.runs && repo.runs == old(repo.runs)[id := repo.runs[id]]
        && repo.runs[id].status == AfterError(r.error, repo.calls > 0 && repo.succeeds(repo.calls - 1)))
    ensures r.Err? && r.error != CreateStage ==>
      WrotePrefix(old(repo.alerts), repo.alerts, seller, RunResults(repo.Metrics(seller, DayOf(asOfDate))))
  {
    hide RunResults, RunApplications, UpsertAll, WrotePrefix, Accounted, CompletedRun, DayOf;
    var created, id := repo.CreateRun(seller);
    if !created {
      return Err(CreateStage);
    }
    label Created:
    r := RunCreated(repo, seller, DayOf(asOfDate), id);
    assert repo.runs == old(repo.runs)[id := repo.runs[id]];
  }

  /** The stored total equals the sum of the four stored counts exactly when that sum fits the column. */
  lemma StoredTotalIsSum(a: int, b: int, c: int, d: int)
    ensures Int32(a + b + c + d) == Int32(a) + Int32(b) + Int32(c) + Int32(d)
       <==> -0x8000_0000 <= Int32(a) + Int32(b) + Int32(c) + Int32(d) < 0x8000_0000
  {
    Int32Congruent(a);
    Int32Congruent(b);
    Int32Congruent(c);
    Int32Congruent(d);
    Int32Congruent(a + b + c + d);
    var k :| k == (Int32(a) - a) / 0x1_0000_0000;
  }
}
