/** Whole runs of the alert engine: what one run writes, when two of its results fall on the same alert,
    and why running again changes nothing. */
module AlertRuns {
  import opened Wrappers
  import opened Text
  import opened Batches
  import opened Tables
  import opened AlertTypes
  import opened AlertIdentity
  import opened AlertRules

  /** The metrics one run looks at. */
  datatype RunMetrics = RunMetrics(
    currentAccount: Option<AccountDailyMetric>,
    previousAccount: Option<AccountDailyMetric>,
    currentSkus: seq<SkuDailyMetric>,
    previousSkus: seq<SkuDailyMetric>,
    campaigns: seq<CampaignSummary>,
    links: seq<CampaignSkuLink>,
    products: seq<ProductRow>,
    constraints: seq<EffectiveConstraint>)

  function ConstraintProduct(): EffectiveConstraint -> int {
    (c: EffectiveConstraint) => c.productId
  }

  function SalesInputOf(m: RunMetrics): SalesInput {
    SalesInput(m.currentAccount, m.previousAccount, m.currentSkus, IndexBy(m.previousSkus, ProductId()))
  }

  function AdInputOf(m: RunMetrics): AdInput {
    AdInput(m.campaigns, m.links, m.currentSkus)
  }

  function PricingContexts(m: RunMetrics): seq<PricingContext> {
    var constraints, metrics := IndexBy(m.constraints, ConstraintProduct()), IndexBy(m.currentSkus, ProductId());
    seq(|m.products|, i requires 0 <= i < |m.products| => PricingContextOf(m.products[i], constraints, metrics))
  }

  /** All results of one run, in the order in which they are written. */
  function RunResults(m: RunMetrics): seq<RuleResult> {
    SalesResults(SalesInputOf(m)) + StockResults(m.currentSkus)
    + AdvertisingResults(AdInputOf(m)) + PriceResults(PricingContexts(m))
  }

  // ---------------------------------------------------------------- the store

  datatype AlertRow = AlertRow(
    alertType: AlertType, group: AlertGroup, entityType: EntityType, entityId: Option<string>, entitySku: Option<int>,
    entityOfferId: Option<string>, severity: Severity, urgency: Urgency, status: AlertStatus, evidence: Evidence)

  /** Alerts by seller and fingerprint. */
  type AlertStore = map<(int, string), AlertRow>

  function RowOf(r: RuleResult): AlertRow {
    AlertRow(r.alertType, r.group, r.entityType, r.entityId, r.entitySku, r.entityOfferId, r.severity, r.urgency, Open,
             r.evidence)
  }

  function StoreKey(seller: int, r: RuleResult): (int, string) {
    (seller, FingerprintOf(seller, r))
  }

  /** The row after an upsert: a dismissed alert keeps everything but its evidence, any other is replaced
      and reopened. */
  function Merged(existing: Option<AlertRow>, r: RuleResult): AlertRow {
    match existing
    case Some(row) => if row.status == Dismissed then row.(evidence := r.evidence) else RowOf(r)
    case None => RowOf(r)
  }

  function Upsert(store: AlertStore, seller: int, r: RuleResult): AlertStore {
    var key := StoreKey(seller, r);
    store[key := Merged(Lookup(store, key), r)]
  }

  function UpsertAll(store: AlertStore, seller: int, rs: seq<RuleResult>): AlertStore {
    if rs == [] then store else Upsert(UpsertAll(store, seller, rs[..|rs| - 1]), seller, rs[|rs| - 1])
  }

  /** The last result of a list that falls on a key. */
  function LastFor(rs: seq<RuleResult>, seller: int, key: (int, string)): Option<RuleResult> {
    if rs == [] then None
    else if StoreKey(seller, rs[|rs| - 1]) == key then Some(rs[|rs| - 1])
    else LastFor(rs[..|rs| - 1], seller, key)
  }

  lemma MergedTwice(existing: Option<AlertRow>, r: RuleResult, s: RuleResult)
    ensures Merged(Some(Merged(existing, r)), s) == Merged(existing, s)
  {
  }

  /** Last write wins: after a list of upserts each alert is what its last result makes of the row that
      was there before, and rows no result falls on are untouched. */
  lemma {:induction false} UpsertAllLastWins(store: AlertStore, seller: int, rs: seq<RuleResult>, key: (int, string))
    ensures Lookup(UpsertAll(store, seller, rs), key)
         == match LastFor(rs, seller, key)
            case None => Lookup(store, key)
            case Some(r) => Some(Merged(Lookup(store, key), r))
  {
    if rs == [] {
    } else {
      var front, last := rs[..|rs| - 1], rs[|rs| - 1];
      UpsertAllLastWins(store, seller, front, key);
      if StoreKey(seller, last) == key && LastFor(front, seller, key).Some? {
        MergedTwice(Lookup(store, key), LastFor(front, seller, key).value, last);
      }
    }
  }

  /** What writing a list leaves at an alert is decided by its last result there: a dismissed alert stays as it is but
      for the evidence, any other is open and says what the result says. */
  lemma LastResultDecides(store: AlertStore, seller: int, rs: seq<RuleResult>, i: nat)
    requires i < |rs| && forall j | i < j < |rs| :: StoreKey(seller, rs[j]) != StoreKey(seller, rs[i])
    ensures var key, r, after := StoreKey(seller, rs[i]), rs[i], UpsertAll(store, seller, rs);
      && key in after && after[key].evidence == r.evidence
      && (key in store && store[key].status == Dismissed ==>
            after[key].(evidence := store[key].evidence) == store[key])
      && (key !in store || store[key].status != Dismissed ==>
            && after[key].status == Open && after[key].alertType == r.alertType && after[key].group == r.group
            && after[key].entityType == r.entityType && after[key].entityId == r.entityId
            && after[key].entitySku == r.entitySku && after[key].entityOfferId == r.entityOfferId
            && after[key].severity == r.severity && after[key].urgency == r.urgency)
  {
    var key := StoreKey(seller, rs[i]);
    LastForIs(rs, seller, i);
    UpsertAllLastWins(store, seller, rs, key);
    hide UpsertAll, StoreKey, LastFor;
  }

  lemma {:induction false} LastForIs(rs: seq<RuleResult>, seller: int, i: nat)
    requires i < |rs| && forall j | i < j < |rs| :: StoreKey(seller, rs[j]) != StoreKey(seller, rs[i])
    ensures LastFor(rs, seller, StoreKey(seller, rs[i])) == Some(rs[i])
  {
    hide StoreKey;
    if i == |rs| - 1 {
    } else {
      LastForIs(rs[..|rs| - 1], seller, i);
    }
  }

  /** Alerts no result falls on, other sellers' among them, are left alone. */
  lemma OthersStay(store: AlertStore, seller: int, rs: seq<RuleResult>, key: (int, string))
    requires forall i | 0 <= i < |rs| :: StoreKey(seller, rs[i]) != key
    ensures Lookup(UpsertAll(store, seller, rs), key) == Lookup(store, key)
  {
    hide StoreKey;
    NoneFor(rs, seller, key);
    UpsertAllLastWins(store, seller, rs, key);
  }

  lemma {:induction false} NoneFor(rs: seq<RuleResult>, seller: int, key: (int, string))
    requires forall i | 0 <= i < |rs| :: StoreKey(seller, rs[i]) != key
    ensures LastFor(rs, seller, key).None?
  {
    hide StoreKey;
    if rs == [] {
    } else {
      NoneFor(rs[..|rs| - 1], seller, key);
    }
  }

  /** The first of the results, any number of them, were written. */
  ghost predicate WrotePrefix(before: AlertStore, after: AlertStore, seller: int, rs: seq<RuleResult>) {
    exists k | 0 <= k <= |rs| :: after == UpsertAll(before, seller, rs[..k])
  }

  lemma {:induction false} LastForPrefix(rs: seq<RuleResult>, seller: int, key: (int, string), k: nat)
    requires k <= |rs| && LastFor(rs[..k], seller, key).Some?
    ensures LastFor(rs, seller, key).Some?
  {
    if k == |rs| {
      assert rs[..k] == rs;
    } else {
      assert rs[..|rs| - 1][..k] == rs[..k];
      LastForPrefix(rs[..|rs| - 1], seller, key, k);
    }
  }

  /** A run repeated after a failed one leaves what one clean run would have left. */
  lemma RetryLeavesCleanRun(store: AlertStore, after: AlertStore, seller: int, rs: seq<RuleResult>)
    requires WrotePrefix(store, after, seller, rs)
    ensures UpsertAll(after, seller, rs) == UpsertAll(store, seller, rs)
  {
    var k :| 0 <= k <= |rs| && after == UpsertAll(store, seller, rs[..k]);
    forall key
      ensures Lookup(UpsertAll(after, seller, rs), key) == Lookup(UpsertAll(store, seller, rs), key)
    {
      UpsertAllLastWins(store, seller, rs[..k], key);
      UpsertAllLastWins(store, seller, rs, key);
      UpsertAllLastWins(after, seller, rs, key);
      if LastFor(rs[..k], seller, key).Some? {
        LastForPrefix(rs, seller, key, k);
        MergedTwice(Lookup(store, key), LastFor(rs[..k], seller, key).value, LastFor(rs, seller, key).value);
      }
      hide UpsertAll, LastFor, Merged;
    }
    SameLookups(UpsertAll(after, seller, rs), UpsertAll(store, seller, rs));
  }

  /** Writing the same results again leaves the store as the first time. */
  lemma UpsertAllIdempotent(store: AlertStore, seller: int, rs: seq<RuleResult>)
    ensures UpsertAll(UpsertAll(store, seller, rs), seller, rs) == UpsertAll(store, seller, rs)
  {
    assert rs[..|rs|] == rs;
    RetryLeavesCleanRun(store, UpsertAll(store, seller, rs), seller, rs);
  }

  /** Running the engine twice on unchanged metrics leaves the alerts exactly as after the first run. */
  lemma RunTwiceChangesNothing(store: AlertStore, seller: int, m: RunMetrics)
    ensures UpsertAll(UpsertAll(store, seller, RunResults(m)), seller, RunResults(m))
             == UpsertAll(store, seller, RunResults(m))
  {
    UpsertAllIdempotent(store, seller, RunResults(m));
  }

  lemma {:induction false} UpsertAllConcat(store: AlertStore, seller: int, a: seq<RuleResult>, b: seq<RuleResult>)
    ensures UpsertAll(store, seller, a + b) == UpsertAll(UpsertAll(store, seller, a), seller, b)
  {
    if b == [] {
      assert a + b == a;
    } else {
      assert (a + b)[..|a + b| - 1] == a + b[..|b| - 1];
      UpsertAllConcat(store, seller, a, b[..|b| - 1]);
    }
  }

  /** A stage that fails after earlier ones succeeded leaves a prefix of the whole run written. */
  lemma StageLeavesPrefix(before: AlertStore, mid: AlertStore, after: AlertStore, seller: int,
                          earlier: seq<RuleResult>, stage: seq<RuleResult>, all: seq<RuleResult>)
    requires mid == UpsertAll(before, seller, earlier) && WrotePrefix(mid, after, seller, stage)
    requires earlier + stage <= all
    ensures WrotePrefix(before, after, seller, all)
  {
    var k :| 0 <= k <= |stage| && after == UpsertAll(mid, seller, stage[..k]);
    UpsertAllConcat(before, seller, earlier, stage[..k]);
    assert all[..|earlier| + k] == (earlier + stage)[..|earlier| + k] == earlier + stage[..k];
  }

  // ---------------------------------------------------------------- which results share an alert

  /** Two results that would be written to the same alert. */
  function SameAlert(seller: int): (RuleResult, RuleResult) -> bool {
    (r: RuleResult, s: RuleResult) => FingerprintOf(seller, r) == FingerprintOf(seller, s)
  }

  ghost predicate AllEmitted(rs: seq<RuleResult>) {
    forall i | 0 <= i < |rs| :: Emitted(rs[i])
  }

  /** Results about one entity: a decimal id and pairwise different alert types. */
  ghost predicate OneEntity(rs: seq<RuleResult>, id: int) {
    && (forall i | 0 <= i < |rs| :: Emitted(rs[i]) && rs[i].entityId == Some(Decimal(id)))
    && (forall i, j | 0 <= i < j < |rs| :: rs[i].alertType != rs[j].alertType)
  }

  lemma OneEntityApart(seller: int, rs: seq<RuleResult>, id: int)
    requires OneEntity(rs, id)
    ensures PairwiseApart(rs, SameAlert(seller))
  {
    forall i, j | 0 <= i < j < |rs|
      ensures !SameAlert(seller)(rs[i], rs[j])
    {
      FingerprintInjective(seller, rs[i], seller, rs[j]);
    }
  }

  lemma TwoEntitiesApart(seller: int, rs: seq<RuleResult>, id: int, ts: seq<RuleResult>, other: int)
    requires OneEntity(rs, id) && OneEntity(ts, other) && id != other
    ensures AllApart(rs, ts, SameAlert(seller))
  {
    forall i, j | 0 <= i < |rs| && 0 <= j < |ts|
      ensures !SameAlert(seller)(rs[i], ts[j])
    {
      if Decimal(id) == Decimal(other) {
        DecimalInjective(id, other);
      }
      FingerprintInjective(seller, rs[i], seller, ts[j]);
    }
  }

  /** Collected over entities with distinct ids, results never share an alert. */
  lemma EntitiesApart<X>(seller: int, xs: seq<X>, f: X -> seq<RuleResult>, id: X -> int)
    requires DistinctValues(xs, id) && forall k | 0 <= k < |xs| :: OneEntity(f(xs[k]), id(xs[k]))
    ensures PairwiseApart(FlatMap(xs, f), SameAlert(seller))
  {
    forall k | 0 <= k < |xs|
      ensures PairwiseApart(f(xs[k]), SameAlert(seller))
    {
      OneEntityApart(seller, f(xs[k]), id(xs[k]));
    }
    forall k, l | 0 <= k < l < |xs|
      ensures AllApart(f(xs[k]), f(xs[l]), SameAlert(seller))
    {
      TwoEntitiesApart(seller, f(xs[k]), id(xs[k]), f(xs[l]), id(xs[l]));
    }
    FlatMapApart(xs, f, SameAlert(seller));
  }

  /** Results whose alert types come from disjoint sets never share an alert. */
  lemma TypesApart(seller: int, rs: seq<RuleResult>, types: set<AlertType>, ts: seq<RuleResult>, others: set<AlertType>)
    requires AllEmitted(rs) && AllEmitted(ts) && types !! others
    requires forall i | 0 <= i < |rs| :: rs[i].alertType in types
    requires forall i | 0 <= i < |ts| :: ts[i].alertType in others
    ensures AllApart(rs, ts, SameAlert(seller))
  {
    forall i, j | 0 <= i < |rs| && 0 <= j < |ts|
      ensures !SameAlert(seller)(rs[i], ts[j])
    {
      FingerprintInjective(seller, rs[i], seller, ts[j]);
    }
  }
}
