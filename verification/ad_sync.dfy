/** The advertising sync: paging loops against a server that holds finite lists, upserts without a
    transaction, counters, and the window each run covers. Any call may fail. */
module AdSync {
  import opened Wrappers
  import opened Units
  import opened Text
  import opened Batches
  import opened Paging
  import opened Sums
  import opened Tables

  const CAMPAIGN_PAGE_SIZE: nat := 200
  const PRODUCT_PAGE_SIZE: nat := 500

  datatype CampaignKind = SkuKind | SearchPromoKind | BannerKind | VideoBannerKind | OtherKind

  datatype AdCampaign = AdCampaign(id: int, name: string, kind: CampaignKind)

  datatype PromotedProduct = PromotedProduct(campaignId: int, productId: int, sku: int, isActive: bool)

  datatype DailyMetric = DailyMetric(campaignId: int, day: int, spendCents: int, orders: int)

  /** A stored cursor: nothing yet, a moment, or text that is not one. */
  datatype Cursor = NoCursor | At(moment: int) | Malformed

  datatype SyncError = BadCursor | RequestFailed | RawNotSaved | UpsertFailed | NoProductLinks(campaignId: int)

  datatype RunResult = RunResult(received: int, imported: int, failed: int, nextCursor: Cursor)

  type CampaignTable = map<(int, int), AdCampaign>
  type MetricRows = map<(int, int, int), DailyMetric>
  type LinkTable = map<(int, int, int), PromotedProduct>

  function FallbackCampaignName(name: string, id: int): string {
    if name == "" then "campaign_" + Decimal(id) else name
  }

  // ---------------------------------------------------------------- tables after upserts

  function CampaignKey(seller: int): AdCampaign -> (int, int) {
    (campaign: AdCampaign) => (seller, campaign.id)
  }

  function Named(): AdCampaign -> AdCampaign {
    (campaign: AdCampaign) => campaign.(name := FallbackCampaignName(campaign.name, campaign.id))
  }

  function MetricKey(seller: int): DailyMetric -> (int, int, int) {
    (metric: DailyMetric) => (seller, metric.campaignId, metric.day)
  }

  function LinkKey(seller: int): PromotedProduct -> (int, int, int) {
    (link: PromotedProduct) => (seller, link.campaignId, link.productId)
  }

  function AsMetric(): DailyMetric -> DailyMetric {
    (metric: DailyMetric) => metric
  }

  function AsLink(): PromotedProduct -> PromotedProduct {
    (link: PromotedProduct) => link
  }

  function PutCampaigns(table: CampaignTable, seller: int, campaigns: seq<AdCampaign>): CampaignTable {
    PutRows(table, campaigns, CampaignKey(seller), Named())
  }

  function PutMetrics(table: MetricRows, seller: int, metrics: seq<DailyMetric>): MetricRows {
    PutRows(table, metrics, MetricKey(seller), AsMetric())
  }

  function PutLinks(table: LinkTable, seller: int, links: seq<PromotedProduct>): LinkTable {
    PutRows(table, links, LinkKey(seller), AsLink())
  }

  /** What upserting a list of links leaves at a key: the last link for it. */
  lemma PutLinksKeepsLast(table: LinkTable, seller: int, links: seq<PromotedProduct>, i: nat)
    requires i < |links|
    requires forall k | i < k < |links| ::
               (links[k].campaignId, links[k].productId) != (links[i].campaignId, links[i].productId)
    ensures Lookup(PutLinks(table, seller, links), (seller, links[i].campaignId, links[i].productId)) == Some(links[i])
  {
    forall k | i < k < |links|
      ensures LinkKey(seller)(links[k]) != LinkKey(seller)(links[i])
    {
      assert (links[k].campaignId, links[k].productId) != (links[i].campaignId, links[i].productId);
    }
    PutRowsKeepsLast(table, links, LinkKey(seller), AsLink(), i);
  }

  // ---------------------------------------------------------------- which links are imported

  function LacksProduct(): PromotedProduct -> bool {
    (link: PromotedProduct) => link.productId == 0
  }

  function LacksProductOrCampaign(): PromotedProduct -> bool {
    (link: PromotedProduct) => link.productId == 0 || link.campaignId == 0
  }

  function Unless(skip: PromotedProduct -> bool): PromotedProduct -> seq<PromotedProduct> {
    (link: PromotedProduct) => if skip(link) then [] else [link]
  }

  /** Links received are links imported plus links skipped. */
  lemma {:induction false} ReceivedIsImportedPlusSkipped(links: seq<PromotedProduct>, skip: PromotedProduct -> bool)
    ensures |links| == |FlatMap(links, Unless(skip))| + Count(links, skip)
  {
    if links == [] {
    } else {
      ReceivedIsImportedPlusSkipped(links[..|links| - 1], skip);
    }
  }

  lemma KeptIff(links: seq<PromotedProduct>, skip: PromotedProduct -> bool, link: PromotedProduct)
    ensures link in FlatMap(links, Unless(skip)) <==> link in links && !skip(link)
  {
    if link in FlatMap(links, Unless(skip)) {
      var k := FlatMapFrom(links, Unless(skip), link);
    }
    if k :| 0 <= k < |links| && links[k] == link && !skip(link) {
      FlatMapHas(links, Unless(skip), k, link);
    }
  }

  /** A campaign without a name is stored under one made of its id, so that no two share it; any other keeps its own. */
  lemma CampaignNames(campaign: AdCampaign, other: AdCampaign)
    ensures campaign.name != "" ==> Named()(campaign) == campaign
    ensures campaign.name == "" ==> Named()(campaign) == campaign.(name := "campaign_" + Decimal(campaign.id))
    ensures campaign.name == "" == other.name && campaign.id != other.id ==>
      Named()(campaign).name != Named()(other).name
  {
    if campaign.name == "" == other.name && Named()(campaign).name == Named()(other).name {
      assert ("campaign_" + Decimal(campaign.id))[|"campaign_"|..] == Decimal(campaign.id);
      assert ("campaign_" + Decimal(other.id))[|"campaign_"|..] == Decimal(other.id);
      DecimalInjective(campaign.id, other.id);
    }
  }

  // ---------------------------------------------------------------- the window

  ghost predicate HasMetrics(rows: MetricRows, seller: int, metrics: seq<DailyMetric>) {
    forall metric | metric in metrics :: (seller, metric.campaignId, metric.day) in rows
  }

  /** Upserting metrics loses no row, and a full upsert leaves a row for each. */
  lemma {:induction false} MetricsStay(rows: MetricRows, seller: int, metrics: seq<DailyMetric>)
    ensures rows.Keys <= PutMetrics(rows, seller, metrics).Keys
    ensures HasMetrics(PutMetrics(rows, seller, metrics), seller, metrics)
  {
    if metrics == [] {
    } else {
      MetricsStay(rows, seller, metrics[..|metrics| - 1]);
      assert metrics == metrics[..|metrics| - 1] + [metrics[|metrics| - 1]];
    }
  }

  lemma MoreMetrics(rows: MetricRows, more: MetricRows, seller: int, metrics: seq<DailyMetric>)
    requires rows.Keys <= more.Keys && HasMetrics(rows, seller, metrics)
    ensures HasMetrics(more, seller, metrics)
  {
    forall metric | metric in metrics
      ensures (seller, metric.campaignId, metric.day) in more
    {
      assert (seller, metric.campaignId, metric.day) in rows.Keys;
    }
  }

  /** Where a run starts and ends; the first run looks back a fixed time. */
  function ResolveWindow(cursor: Cursor, now: int, lookback: int): Option<(int, int)> {
    match cursor
    case NoCursor => Some((now - lookback, now))
    case At(moment) => Some((moment, now))
    case Malformed => None
  }

  /** What happens to the stored cursor, in order. An import job captures the cursor when it is created, when
      `captured` events have happened, and is listed when it ends: it read up to `now`, `ran` says whether its run
      worked and `moved` whether the cursor then moved on. An admin's reset puts any cursor in its place. */
  datatype Event =
    | Job(captured: nat, now: int, ran: bool, moved: bool)
    | Reset(cursor: Cursor, moved: bool)

  /** The stored cursor after some events: the last event that moved it says what it is. */
  function CursorAfter(events: seq<Event>): Cursor {
    if events == [] then NoCursor
    else
      var last := events[|events| - 1];
      if !last.moved then CursorAfter(events[..|events| - 1])
      else if last.Job? then At(last.now)
      else last.cursor
  }

  /** What is asked for: an import job that was created when `captured` events had happened, or a reset. */
  datatype Request = Import(captured: nat, now: int) | ResetTo(cursor: Cursor)

  predicate Answers(event: Event, request: Request) {
    match request
    case Import(captured, now) => event.Job? && event.captured == captured && event.now == now
    case ResetTo(cursor) => event.Reset? && event.cursor == cursor
  }

  lemma CursorMoves(events: seq<Event>, event: Event)
    ensures CursorAfter(events + [event])
         == if !event.moved then CursorAfter(events) else if event.Job? then At(event.now) else event.cursor
    ensures events[..|events|] == events && (events + [event])[..|events| + 1] == events + [event]
  {
    assert (events + [event])[..|events|] == events;
  }

  /** No job captures a cursor from the future, moves it without having run, or runs on one it cannot read. */
  predicate MayFollow(events: seq<Event>, event: Event) {
    event.Job? ==>
      && event.captured <= |events|
      && (event.moved ==> event.ran)
      && (event.ran ==> CursorAfter(events[..event.captured]) != Malformed)
  }

  ghost predicate WellFormed(events: seq<Event>) {
    forall k | 0 <= k < |events| && events[k].Job? ::
      && events[k].captured <= k
      && (events[k].moved ==> events[k].ran)
      && (events[k].ran ==> CursorAfter(events[..events[k].captured]) != Malformed)
  }

  predicate Ran(events: seq<Event>, k: int) {
    0 <= k < |events| && events[k].Job? && events[k].ran
  }

  /** The window a job reads. */
  function WindowOf(events: seq<Event>, k: nat, lookback: int): (int, int)
    requires WellFormed(events) && Ran(events, k)
  {
    ResolveWindow(CursorAfter(events[..events[k].captured]), events[k].now, lookback).value
  }

  lemma EventAdded(events: seq<Event>, event: Event, lookback: int)
    requires WellFormed(events) && MayFollow(events, event)
    ensures WellFormed(events + [event])
    ensures forall k | 0 <= k <= |events| :: (events + [event])[..k] == events[..k]
    ensures forall k | Ran(events, k) :: WindowOf(events + [event], k, lookback) == WindowOf(events, k, lookback)
    ensures event.Job? && event.ran ==>
      Some(WindowOf(events + [event], |events|, lookback))
      == ResolveWindow(CursorAfter(events[..event.captured]), event.now, lookback)
  {
    assert forall k | 0 <= k <= |events| :: (events + [event])[..k] == events[..k];
  }

  /** An event that moved the cursor still holds it `n` events in. */
  ghost predicate SetBy(events: seq<Event>, n: nat, j: nat) {
    j < n <= |events| && events[j].moved && forall i | j < i < n :: !events[i].moved
  }

  lemma {:induction false} CursorSetBy(events: seq<Event>, n: nat, j: nat)
    requires SetBy(events, n, j)
    ensures CursorAfter(events[..n]) == if events[j].Job? then At(events[j].now) else events[j].cursor
  {
    assert events[..n][..n - 1] == events[..n - 1];
    if j == n - 1 {
    } else {
      CursorSetBy(events, n - 1, j);
    }
  }

  /** Windows chain: a job whose cursor was last moved by an earlier job starts where that one ended, however many
      jobs failed in between. */
  lemma WindowsChain(events: seq<Event>, lookback: int, j: nat, k: nat)
    requires WellFormed(events) && Ran(events, k) && SetBy(events, events[k].captured, j) && events[j].Job?
    ensures WindowOf(events, k, lookback) == (events[j].now, events[k].now)
  {
    CursorSetBy(events, events[k].captured, j);
  }

  // ---------------------------------------------------------------- the days that were read

  function StartDay(events: seq<Event>, k: nat, lookback: int): int
    requires WellFormed(events) && Ran(events, k)
  {
    DayOf(WindowOf(events, k, lookback).0)
  }

  function EndDay(events: seq<Event>, k: nat): int
    requires Ran(events, k)
  {
    DayOf(events[k].now)
  }

  /** Some job up to the k-th event read the whole day: it started on the day or before and read after its end. */
  ghost predicate CoveredBy(events: seq<Event>, k: nat, lookback: int, day: int)
    requires WellFormed(events)
  {
    exists j: nat | j <= k && Ran(events, j) :: StartDay(events, j, lookback) <= day < EndDay(events, j)
  }

  /** The day a job has to meet: where it starts, or where it ends when its cursor is later than that. */
  function JoinDay(events: seq<Event>, k: nat, lookback: int): int
    requires WellFormed(events) && Ran(events, k)
  {
    var start, end := StartDay(events, k, lookback), EndDay(events, k);
    if start <= end then start else end
  }

  ghost predicate IsFirst(events: seq<Event>, first: nat) {
    Ran(events, first) && forall i | 0 <= i < first :: !Ran(events, i)
  }

  /** A job joins what was read before it: it starts, or else ends, no later than the day on which an earlier job
      ended or on which the first one started. */
  ghost predicate Joins(events: seq<Event>, k: nat, lookback: int, first: nat)
    requires WellFormed(events) && Ran(events, k) && Ran(events, first)
  {
    var day := JoinDay(events, k, lookback);
    day <= StartDay(events, first, lookback) || exists j | 0 <= j < k && Ran(events, j) :: day <= EndDay(events, j)
  }

  lemma {:induction false} DaysCovered(events: seq<Event>, lookback: int, first: nat, k: nat, day: int)
    requires WellFormed(events) && IsFirst(events, first) && Ran(events, k)
    requires forall i: nat | first < i <= k && Ran(events, i) :: Joins(events, i, lookback, first)
    requires StartDay(events, first, lookback) <= day < EndDay(events, k)
    ensures CoveredBy(events, k, lookback, day)
  {
    hide StartDay, EndDay;
    if StartDay(events, k, lookback) <= day {
    } else {
      assert Joins(events, k, lookback, first);
      var j :| 0 <= j < k && Ran(events, j) && JoinDay(events, k, lookback) <= EndDay(events, j);
      DaysCovered(events, lookback, first, j, day);
    }
  }

  /** In whatever order jobs are created and end, and whatever resets come between them, every day since the first
      run's start is read in full by the time a later one ends, exactly when each run joins what was read before. */
  lemma SyncedDaysHaveNoGap(events: seq<Event>, lookback: int, first: nat)
    requires WellFormed(events) && IsFirst(events, first)
    ensures (forall k: nat, day | Ran(events, k) && StartDay(events, first, lookback) <= day < EndDay(events, k) ::
               CoveredBy(events, k, lookback, day))
       <==> (forall k: nat | first < k && Ran(events, k) :: Joins(events, k, lookback, first))
  {
    hide StartDay, EndDay;
    if k: nat :| first < k && Ran(events, k) && !Joins(events, k, lookback, first) {
      var day := JoinDay(events, k, lookback) - 1;
      assert !CoveredBy(events, k, lookback, day);
    } else {
      forall k: nat, day | Ran(events, k) && StartDay(events, first, lookback) <= day < EndDay(events, k)
        ensures CoveredBy(events, k, lookback, day)
      {
        DaysCovered(events, lookback, first, k, day);
      }
    }
  }

  /** Only a job that captured a reset cursor or none can fail to join. */
  lemma AdvancedCursorJoins(events: seq<Event>, lookback: int, first: nat, j: nat, k: nat)
    requires WellFormed(events) && Ran(events, first) && Ran(events, k)
    requires SetBy(events, events[k].captured, j) && events[j].Job?
    ensures Joins(events, k, lookback, first)
  {
    hide DayOf;
    WindowsChain(events, lookback, j, k);
    assert Ran(events, j) && StartDay(events, k, lookback) == EndDay(events, j);
  }

  lemma {:induction false} LastMove(events: seq<Event>, n: nat, first: nat) returns (j: nat)
    requires first < n <= |events| && events[first].moved
    ensures first <= j && SetBy(events, n, j)
  {
    j := n - 1;
    if !events[n - 1].moved {
      j := LastMove(events, n - 1, first);
    }
  }

  /** Without resets, jobs created after the first run moved the cursor leave no day out. */
  lemma InTurnHasNoGap(events: seq<Event>, lookback: int, first: nat, k: nat, day: int)
    requires WellFormed(events) && IsFirst(events, first) && events[first].moved && Ran(events, k)
    requires forall i | 0 <= i < |events| :: events[i].Job?
    requires forall i | first < i < |events| :: first < events[i].captured
    requires StartDay(events, first, lookback) <= day < EndDay(events, k)
    ensures CoveredBy(events, k, lookback, day)
  {
    hide StartDay, EndDay, CoveredBy, Joins;
    forall i: nat | first < i <= k && Ran(events, i)
      ensures Joins(events, i, lookback, first)
    {
      var j := LastMove(events, events[i].captured, first);
      AdvancedCursorJoins(events, lookback, first, j, i);
    }
    DaysCovered(events, lookback, first, k, day);
  }

  /** The condition is needed: two jobs created before either ended both start without a cursor. Run more days
      apart than the thirty they look back, they leave out the days between; at thirty-one, the last day of the
      first, which it read only at its first second. */
  lemma TwoFirstJobsLeaveAGap(days: nat, day: int)
    requires 0 <= day < days - 30
    ensures var events := [Job(0, 0, true, true), Job(0, days * SECONDS_PER_DAY, true, true)];
      && WellFormed(events) && IsFirst(events, 0)
      && StartDay(events, 0, 30 * SECONDS_PER_DAY) <= day < EndDay(events, 1)
      && !CoveredBy(events, 1, 30 * SECONDS_PER_DAY, day)
      && CursorAfter(events) == At(days * SECONDS_PER_DAY)
  {
    var events := [Job(0, 0, true, true), Job(0, days * SECONDS_PER_DAY, true, true)];
    assert events[..0] == [];
    assert WindowOf(events, 0, 30 * SECONDS_PER_DAY) == (-30 * SECONDS_PER_DAY, 0);
    assert WindowOf(events, 1, 30 * SECONDS_PER_DAY) == ((days - 30) * SECONDS_PER_DAY, days * SECONDS_PER_DAY);
    WholeDays(days);
    WholeDays(days - 30);
    hide WindowOf, DayOf;
  }

  lemma WholeDays(days: int)
    ensures DayOf(days * SECONDS_PER_DAY) == days
  {
  }

  /** So does a reset to a later moment, even of jobs made one after the other's end. */
  lemma ResetLeavesAGap(lookback: int)
    requires lookback >= 0
    ensures var events := [Job(0, 0, true, true), Reset(At(5 * SECONDS_PER_DAY), true),
                           Job(2, 9 * SECONDS_PER_DAY, true, true)];
      && WellFormed(events) && IsFirst(events, 0)
      && StartDay(events, 0, lookback) <= 3 < EndDay(events, 2)
      && !CoveredBy(events, 2, lookback, 3)
  {
    var events := [Job(0, 0, true, true), Reset(At(5 * SECONDS_PER_DAY), true),
                   Job(2, 9 * SECONDS_PER_DAY, true, true)];
    assert events[..0] == [] && events[..2] == [events[0], events[1]];
    assert WindowOf(events, 0, lookback) == (-lookback, 0);
    assert WindowOf(events, 2, lookback) == (5 * SECONDS_PER_DAY, 9 * SECONDS_PER_DAY);
  }

  /** And a reset to text that is not a moment stops every later job that captures it, until the next reset. */
  lemma MalformedCursorStops(events: seq<Event>, j: nat, k: nat)
    requires WellFormed(events) && k < |events| && events[k].Job? && SetBy(events, events[k].captured, j)
    requires events[j].Reset? && events[j].cursor == Malformed
    ensures !events[k].ran && !events[k].moved
  {
    CursorSetBy(events, events[k].captured, j);
  }

  // ---------------------------------------------------------------- the service

  lemma LastPage(n: nat, pageSize: nat, page: nat)
    requires PageStart(pageSize, page) <= n < PageStart(pageSize, page) + pageSize
    ensures n / pageSize == page
  {
    PageStartIs(pageSize, page);
    assert n == page * pageSize + (n - page * pageSize);
    QuotientIs(n, pageSize, page);
  }

  lemma QuotientIs(n: nat, d: nat, q: nat)
    requires q * d <= n < q * d + d
    ensures n / d == q
  {
    var k, r := n / d, n % d;
    assert n == k * d + r;
    if k < q {
      MulLe(d, k + 1, q);
    } else if k > q {
      MulLe(d, q + 1, k);
    }
  }

  lemma {:induction false} PageStartIs(pageSize: nat, page: nat)
    ensures PageStart(pageSize, page) == page * pageSize
  {
    if page > 0 {
      PageStartIs(pageSize, page - 1);
    }
  }

  /** The remote lists, the oracle for every call, and the three tables. */
  class Sync {
    const campaigns: seq<AdCampaign>
    const products: int -> seq<PromotedProduct>
    const objects: int -> seq<PromotedProduct>
    const searchPromo: seq<PromotedProduct>
    const statistics: (seq<int>, int, int) -> seq<DailyMetric>
    const savesRaw: bool
    const lookback: int
    const succeeds: nat -> bool
    var calls: nat
    var requests: nat
    var campaignTable: CampaignTable
    var metricRows: MetricRows
    var linkTable: LinkTable

    ghost predicate AllSucceed(a: nat, b: nat) {
      forall n | a <= n < b :: succeeds(n)
    }

    method Call() returns (ok: bool)
      modifies this`calls
      ensures calls == old(calls) + 1 && ok == succeeds(old(calls))
    {
      ok := succeeds(calls);
      calls := calls + 1;
    }

    /** Keep the raw response, where a store for it is configured. */
    method SaveRaw() returns (ok: bool)
      modifies this`calls
      ensures old(calls) <= calls && (ok <==> AllSucceed(old(calls), calls))
    {
      ok := true;
      if savesRaw {
        ok := Call();
      }
    }

    /** One page of a list; pages count from 1. */
    method RequestPage<T>(list: seq<T>, page: nat, pageSize: nat) returns (ok: bool, items: seq<T>)
      requires page >= 1
      modifies this`calls, this`requests
      ensures calls == old(calls) + 1 && requests == old(requests) + 1 && ok == succeeds(old(calls))
      ensures items == ApplyPagination(list, PageStart(pageSize, page - 1), pageSize)
    {
      requests := requests + 1;
      ok := Call();
      items := ApplyPagination(list, PageStart(pageSize, page - 1), pageSize);
    }

    /** All campaigns, in |campaigns| / 200 + 1 requests. */
    method LoadCampaigns() returns (ok: bool, all: seq<AdCampaign>, received: int)
      modifies this`calls, this`requests
      ensures old(calls) <= calls && (ok <==> AllSucceed(old(calls), calls))
      ensures ok ==> all == campaigns && received == Int32(|campaigns|)
      ensures ok ==> requests == old(requests) + |campaigns| / 200 + 1
    {
      NoPages(campaigns, CAMPAIGN_PAGE_SIZE);
      all, received := [], Int32(0);
      hide FirstPages, PageStart, ApplyPagination, Int32;
      var page := 1;
      while true
        invariant page >= 1 && requests == old(requests) + page - 1
        invariant all == FirstPages(campaigns, CAMPAIGN_PAGE_SIZE, page - 1)
        invariant PageStart(CAMPAIGN_PAGE_SIZE, page - 1) == |all| <= |campaigns| && received == Int32(|all|)
        invariant old(calls) <= calls && AllSucceed(old(calls), calls)
        decreases |campaigns| - PageStart(CAMPAIGN_PAGE_SIZE, page - 1)
      {
        var items;
        ok, items := RequestPage(campaigns, page, CAMPAIGN_PAGE_SIZE);
        if !ok {
          return false, [], 0;
        }
        PageTaken(campaigns, CAMPAIGN_PAGE_SIZE, page, all, items);
        Int32Adds(|all|, |items|);
        all := all + items;
        received := Int32(received + Int32(|items|));
        if |items| < CAMPAIGN_PAGE_SIZE {
          return;
        }
        page := page + 1;
      }
    }

    /** A campaign's links: its paged products or, where there are none, its objects. */
    function LinksOf(campaignId: int): seq<PromotedProduct> {
      if products(campaignId) != [] then products(campaignId) else objects(campaignId)
    }

    method FetchSkuCampaignProducts(campaignId: int) returns (r: Result<seq<PromotedProduct>, SyncError>)
      modifies this`calls, this`requests
      ensures old(calls) <= calls && (r.Ok? <==> AllSucceed(old(calls), calls))
      ensures r.Ok? ==> r.value == LinksOf(campaignId)
      ensures r.Ok? ==>
        requests == old(requests) + |products(campaignId)| / 500
                    + if products(campaignId) == [] then 2 else 1
      ensures r.Err? ==> !r.error.NoProductLinks?
    {
      hide FirstPages, PageStart, ApplyPagination;
      var list := products(campaignId);
      NoPages(list, PRODUCT_PAGE_SIZE);
      var all := [];
      var page := 1;
      while true
        invariant page >= 1 && requests == old(requests) + page - 1
        invariant all == FirstPages(list, PRODUCT_PAGE_SIZE, page - 1)
        invariant PageStart(PRODUCT_PAGE_SIZE, page - 1) == |all| <= |list|
        invariant old(calls) <= calls && AllSucceed(old(calls), calls)
        decreases |list| - PageStart(PRODUCT_PAGE_SIZE, page - 1)
      {
        var ok, items := RequestPage(list, page, PRODUCT_PAGE_SIZE);
        if !ok {
          return Err(RequestFailed);
        }
        ok := SaveRaw();
        if !ok {
          return Err(RawNotSaved);
        }
        PageTaken(list, PRODUCT_PAGE_SIZE, page, all, items);
        all := all + items;
        if |items| < PRODUCT_PAGE_SIZE {
          break;
        }
        page := page + 1;
      }
      if |all| > 0 {
        return Ok(all);
      }
      requests := requests + 1;
      var ok := Call();
      if !ok {
        return Err(RequestFailed);
      }
      ok := SaveRaw();
      if !ok {
        return Err(RawNotSaved);
      }
      r := Ok(objects(campaignId));
    }

    method FetchSearchPromoCampaignProducts() returns (r: Result<seq<PromotedProduct>, SyncError>)
      modifies this`calls, this`requests
      ensures old(calls) <= calls && (r.Ok? <==> AllSucceed(old(calls), calls))
      ensures r.Ok? ==> r.value == searchPromo && requests == old(requests) + |searchPromo| / 500 + 1
      ensures r.Err? ==> !r.error.NoProductLinks?
    {
      hide FirstPages, PageStart, ApplyPagination;
      NoPages(searchPromo, PRODUCT_PAGE_SIZE);
      var all := [];
      var page := 1;
      while true
        invariant page >= 1 && requests == old(requests) + page - 1
        invariant all == FirstPages(searchPromo, PRODUCT_PAGE_SIZE, page - 1)
        invariant PageStart(PRODUCT_PAGE_SIZE, page - 1) == |all| <= |searchPromo|
        invariant old(calls) <= calls && AllSucceed(old(calls), calls)
        decreases |searchPromo| - PageStart(PRODUCT_PAGE_SIZE, page - 1)
      {
        var ok, items := RequestPage(searchPromo, page, PRODUCT_PAGE_SIZE);
        if !ok {
          return Err(RequestFailed);
        }
        ok := SaveRaw();
        if !ok {
          return Err(RawNotSaved);
        }
        PageTaken(searchPromo, PRODUCT_PAGE_SIZE, page, all, items);
        all := all + items;
        if |items| < PRODUCT_PAGE_SIZE {
          return Ok(all);
        }
        page := page + 1;
      }
    }

    method UpsertLink(seller: int, link: PromotedProduct) returns (ok: bool)
      modifies this`calls, this`linkTable
      ensures calls == old(calls) + 1 && ok == succeeds(old(calls))
      ensures linkTable
               == if ok then old(linkTable)[(seller, link.campaignId, link.productId) := link] else old(linkTable)
    {
      ok := Call();
      if ok {
        linkTable := linkTable[(seller, link.campaignId, link.productId) := link];
      }
    }

    /** Upsert the links not skipped and count them; on a failure those before it stay written. */
    method UpsertLinks(seller: int, links: seq<PromotedProduct>, skip: PromotedProduct -> bool)
        returns (ok: bool, written: nat)
      modifies this`calls, this`linkTable
      ensures old(calls) <= calls && (ok <==> AllSucceed(old(calls), calls))
      ensures written <= |FlatMap(links, Unless(skip))|
      ensures linkTable == PutLinks(old(linkTable), seller, FlatMap(links, Unless(skip))[..written])
      ensures ok ==> written == |FlatMap(links, Unless(skip))|
    {
      hide FlatMap, PutRows, Unless;
      ghost var done := [];
      written := 0;
      KeptSoFar(links, skip, 0);
      PutNoRows(linkTable, LinkKey(seller), AsLink());
      for i := 0 to |links|
        invariant done == FlatMap(links[..i], Unless(skip)) && written == |done|
        invariant linkTable == PutLinks(old(linkTable), seller, done)
        invariant old(calls) <= calls && AllSucceed(old(calls), calls)
      {
        UnlessStep(links, skip, i);
        if !skip(links[i]) {
          ok := UpsertLink(seller, links[i]);
          if !ok {
            KeptSoFar(links, skip, i);
            return;
          }
          PutRowsPush(old(linkTable), done, LinkKey(seller), AsLink(), links[i]);
          done := done + [links[i]];
          written := written + 1;
        }
      }
      KeptSoFar(links, skip, |links|);
      ok := true;
    }

    function SkuLinks(): AdCampaign -> seq<PromotedProduct> {
      (campaign: AdCampaign) => if campaign.kind == SkuKind then LinksOf(campaign.id) else []
    }

    /** The links of the SKU campaigns, then those of search promotion. */
    function ReceivedLinks(list: seq<AdCampaign>): seq<PromotedProduct> {
      FlatMap(list, SkuLinks()) + searchPromo
    }

    function SkuImported(list: seq<AdCampaign>): seq<PromotedProduct> {
      FlatMap(FlatMap(list, SkuLinks()), Unless(LacksProduct()))
    }

    function ImportedLinks(list: seq<AdCampaign>): seq<PromotedProduct> {
      SkuImported(list) + FlatMap(searchPromo, Unless(LacksProductOrCampaign()))
    }

    /** Links received and not imported are those skipped for a zero id. */
    lemma SkippedLinks(list: seq<AdCampaign>)
      ensures |ReceivedLinks(list)| - |ImportedLinks(list)|
           == Count(FlatMap(list, SkuLinks()), (link: PromotedProduct) => link.productId == 0)
              + Count(searchPromo, (link: PromotedProduct) => link.productId == 0 || link.campaignId == 0)
    {
      hide FlatMap, Count;
      ReceivedIsImportedPlusSkipped(FlatMap(list, SkuLinks()), LacksProduct());
      ReceivedIsImportedPlusSkipped(searchPromo, LacksProductOrCampaign());
      CountSame(FlatMap(list, SkuLinks()), LacksProduct(), (link: PromotedProduct) => link.productId == 0);
      CountSame(searchPromo, LacksProductOrCampaign(),
                (link: PromotedProduct) => link.productId == 0 || link.campaignId == 0);
    }

    /** A link of a SKU campaign that names a product, or one of search promotion that names both. */
    ghost predicate IsImported(list: seq<AdCampaign>, link: PromotedProduct) {
      && link.productId != 0
      && (|| (exists k | 0 <= k < |list| :: list[k].kind == SkuKind && link in LinksOf(list[k].id))
          || (link in searchPromo && link.campaignId != 0))
    }

    /** The links imported are exactly those. */
    lemma ImportedIff(list: seq<AdCampaign>, link: PromotedProduct)
      ensures link in ImportedLinks(list) <==> IsImported(list, link)
    {
      var skus := FlatMap(list, SkuLinks());
      KeptIff(skus, LacksProduct(), link);
      KeptIff(searchPromo, LacksProductOrCampaign(), link);
      if link in skus {
        var k := FlatMapFrom(list, SkuLinks(), link);
      }
      hide FlatMap, LinksOf;
      if k :| 0 <= k < |list| && list[k].kind == SkuKind && link in LinksOf(list[k].id) {
        FlatMapHas(list, SkuLinks(), k, link);
      }
    }

    /** After a successful import the table holds the links it held and those imported, by campaign and product. */
    lemma LinkStoredIff(list: seq<AdCampaign>, table: LinkTable, seller: int, campaignId: int, productId: int)
      ensures (seller, campaignId, productId) in PutLinks(table, seller, ImportedLinks(list)) <==>
        || (seller, campaignId, productId) in table
        || exists link :: IsImported(list, link) && link.campaignId == campaignId && link.productId == productId
    {
      hide IsImported, ImportedLinks;
      var links := ImportedLinks(list);
      PutRowsKeys(table, links, LinkKey(seller), AsLink(), (seller, campaignId, productId));
      if k :| 0 <= k < |links| && LinkKey(seller)(links[k]) == (seller, campaignId, productId) {
        ImportedIff(list, links[k]);
      }
      if link :| IsImported(list, link) && link.campaignId == campaignId && link.productId == productId {
        ImportedIff(list, link);
        var k :| 0 <= k < |links| && links[k] == link;
        assert LinkKey(seller)(links[k]) == (seller, campaignId, productId);
      }
    }

    ghost predicate HasLinks(list: seq<AdCampaign>) {
      forall k | 0 <= k < |list| && list[k].kind == SkuKind :: LinksOf(list[k].id) != []
    }

    /** The SKU campaigns, one after the other. Links before a failure stay written. */
    method ImportSkuCampaigns(seller: int, list: seq<AdCampaign>)
      returns (error: Option<SyncError>, imported: nat, received: nat)
      modifies this`calls, this`requests, this`linkTable
      ensures old(calls) <= calls && (error.None? <==> AllSucceed(old(calls), calls) && HasLinks(list))
      ensures imported <= |SkuImported(list)|
      ensures linkTable == PutLinks(old(linkTable), seller, SkuImported(list)[..imported])
      ensures error.None? ==> received == |FlatMap(list, SkuLinks())|
                              && imported == |SkuImported(list)|
    {
      hide FlatMap, PutRows, Unless, LinksOf, SkuImported;
      ghost var done: seq<PromotedProduct> := [];
      error, imported, received := None, 0, 0;
      SkuDone(list, 0);
      PutNoRows(linkTable, LinkKey(seller), AsLink());
      for i := 0 to |list|
        invariant received == |FlatMap(list[..i], SkuLinks())|
        invariant done == SkuImported(list[..i]) && imported == |done|
        invariant linkTable == PutLinks(old(linkTable), seller, done)
        invariant old(calls) <= calls && AllSucceed(old(calls), calls) && HasLinks(list[..i])
      {
        SkuStep(list, i);
        if list[i].kind != SkuKind {
          continue;
        }
        var fetched := FetchSkuCampaignProducts(list[i].id);
        if fetched.Err? {
          SkuDone(list, i);
          return Some(fetched.error), imported, received;
        }
        var links := fetched.value;
        if links == [] {
          SkuDone(list, i);
          return Some(NoProductLinks(list[i].id)), imported, received;
        }
        received := received + |links|;
        var ok, written := UpsertLinks(seller, links, LacksProduct());
        ghost var more := FlatMap(links, Unless(LacksProduct()))[..written];
        PutRowsConcat(old(linkTable), done, more, LinkKey(seller), AsLink());
        SkuPartDone(list, i, written);
        done := done + more;
        imported := imported + written;
        if !ok {
          return Some(UpsertFailed), imported, received;
        }
      }
      SkuDone(list, |list|);
    }

    /** All product links. With every call working and links for every SKU campaign, the table gets exactly the
        links whose ids are not zero; otherwise the run fails and a prefix of them stays written. */
    method ImportCampaignProducts(seller: int, list: seq<AdCampaign>)
      returns (error: Option<SyncError>, imported: int, received: int, ghost written: nat)
      modifies this`calls, this`requests, this`linkTable
      ensures old(calls) <= calls && (error.None? <==> AllSucceed(old(calls), calls) && HasLinks(list))
      ensures written <= |ImportedLinks(list)|
      ensures linkTable == PutLinks(old(linkTable), seller, ImportedLinks(list)[..written])
      ensures error.None? ==> written == |ImportedLinks(list)|
      ensures error.None? ==> imported == Int32(|ImportedLinks(list)|) && received == Int32(|ReceivedLinks(list)|)
      ensures error.Some? ==> imported == 0 == received
    {
      hide FlatMap, PutRows, Unless, LinksOf, SkuImported, Int32, HasLinks;
      ghost var sku, promo := SkuImported(list), FlatMap(searchPromo, Unless(LacksProductOrCampaign()));
      assert ImportedLinks(list) == sku + promo;
      var skuImported, skuReceived;
      error, skuImported, skuReceived := ImportSkuCampaigns(seller, list);
      imported, received, written := 0, 0, skuImported;
      assert (sku + promo)[..skuImported] == sku[..skuImported];
      if error.Some? {
        return;
      }
      assert sku[..|sku|] == sku;
      var fetched := FetchSearchPromoCampaignProducts();
      if fetched.Err? {
        return Some(fetched.error), 0, 0, written;
      }
      var ok, promoImported := UpsertLinks(seller, fetched.value, LacksProductOrCampaign());
      PutRowsConcat(old(linkTable), sku, promo[..promoImported], LinkKey(seller), AsLink());
      written := skuImported + promoImported;
      assert (sku + promo)[..written] == sku + promo[..promoImported];
      if !ok {
        return Some(UpsertFailed), 0, 0, written;
      }
      Int32Adds(skuImported, promoImported);
      Int32Adds(skuReceived, |searchPromo|);
      imported := Int32(Int32(skuImported) + Int32(promoImported));
      received := Int32(Int32(skuReceived) + Int32(|fetched.value|));
    }

    function CampaignIds(): AdCampaign -> seq<int> {
      (campaign: AdCampaign) => [campaign.id]
    }

    /** The metrics a run over a window fetches; without campaigns it asks for none. */
    function MetricsOf(list: seq<AdCampaign>, window: (int, int)): seq<DailyMetric> {
      if list == [] then [] else statistics(FlatMap(list, CampaignIds()), DayOf(window.0), DayOf(window.1))
    }

    method ImportCampaignMetrics(seller: int, list: seq<AdCampaign>, ids: seq<int>, window: (int, int))
      returns (error: Option<SyncError>, imported: int, received: int, ghost written: nat)
      requires ids == FlatMap(list, CampaignIds()) && |ids| == |list|
      modifies this`calls, this`requests, this`metricRows
      ensures old(calls) <= calls && (error.None? <==> AllSucceed(old(calls), calls))
      ensures written <= |MetricsOf(list, window)|
      ensures metricRows == PutMetrics(old(metricRows), seller, MetricsOf(list, window)[..written])
      ensures error.None? ==>
        written == |MetricsOf(list, window)| && imported == received == Int32(|MetricsOf(list, window)|)
      ensures error.Some? ==> imported == 0 == received
    {
      hide FlatMap, DayOf;
      error, imported, received, written := None, 0, 0, 0;
      if |ids| == 0 {
        return;
      }
      requests := requests + 1;
      var ok := Call();
      if !ok {
        return Some(RequestFailed), 0, 0, 0;
      }
      ok := SaveRaw();
      if !ok {
        return Some(RawNotSaved), 0, 0, 0;
      }
      var items := statistics(ids, DayOf(window.0), DayOf(window.1));
      for i := 0 to |items|
        invariant metricRows == PutMetrics(old(metricRows), seller, items[..i]) && imported == Int32(i)
        invariant old(calls) <= calls && AllSucceed(old(calls), calls)
      {
        assert items[..i + 1][..i] == items[..i];
        ok := Call();
        if !ok {
          return Some(UpsertFailed), 0, 0, i;
        }
        metricRows := metricRows[(seller, items[i].campaignId, items[i].day) := items[i]];
        Int32Adds(i, 1);
        imported := Int32(imported + 1);
      }
      assert items[..|items|] == items;
      received, written := Int32(|items|), |items|;
    }

    method UpsertCampaigns(seller: int, list: seq<AdCampaign>)
        returns (ok: bool, ids: seq<int>, imported: int, ghost written: nat)
      modifies this`calls, this`campaignTable
      ensures old(calls) <= calls && (ok <==> AllSucceed(old(calls), calls))
      ensures written <= |list| && campaignTable == PutCampaigns(old(campaignTable), seller, list[..written])
      ensures ok ==>
        written == |list| && ids == FlatMap(list, CampaignIds()) && |ids| == |list| && imported == Int32(|list|)
    {
      hide FallbackCampaignName;
      ids, imported := [], 0;
      for i := 0 to |list|
        invariant campaignTable == PutCampaigns(old(campaignTable), seller, list[..i])
        invariant ids == FlatMap(list[..i], CampaignIds()) && |ids| == i && imported == Int32(i)
        invariant old(calls) <= calls && AllSucceed(old(calls), calls)
      {
        assert list[..i + 1][..i] == list[..i];
        ok := Call();
        if !ok {
          return false, ids, 0, i;
        }
        campaignTable :=
          campaignTable[(seller, list[i].id) := list[i].(name := FallbackCampaignName(list[i].name, list[i].id))];
        ids := ids + [list[i].id];
        Int32Adds(i, 1);
        imported := Int32(imported + 1);
      }
      assert list[..|list|] == list;
      ok, written := true, |list|;
    }

    /** A whole run. It succeeds exactly when the cursor can be read, every call works and every SKU campaign has
        links; then each table holds everything received but links with zero ids, the counters say so, and the next
        run starts where this one ended. A failed run leaves a prefix of each table's writes behind. */
    method RunSync(seller: int, cursor: Cursor, now: int)
      returns (r: Result<RunResult, SyncError>, ghost written: (nat, nat, nat))
      modifies this`calls, this`requests, this`campaignTable, this`metricRows, this`linkTable
      ensures old(calls) <= calls
      ensures r.Ok? <==> cursor != Malformed && AllSucceed(old(calls), calls) && HasLinks(campaigns)
      ensures written.0 <= |campaigns|
      ensures campaignTable == PutCampaigns(old(campaignTable), seller, campaigns[..written.0])
      ensures cursor != Malformed ==> (var metrics := MetricsOf(campaigns, ResolveWindow(cursor, now, lookback).value);
        written.1 <= |metrics| && metricRows == PutMetrics(old(metricRows), seller, metrics[..written.1]))
      ensures cursor == Malformed ==> metricRows == old(metricRows)
      ensures written.2 <= |ImportedLinks(campaigns)|
      ensures linkTable == PutLinks(old(linkTable), seller, ImportedLinks(campaigns)[..written.2])
      ensures r.Ok? ==> (var metrics := MetricsOf(campaigns, ResolveWindow(cursor, now, lookback).value);
        && written == (|campaigns|, |metrics|, |ImportedLinks(campaigns)|)
        && r.value.received == Int32(|campaigns| + |metrics| + |ReceivedLinks(campaigns)|)
        && r.value.imported == Int32(|campaigns| + |metrics| + |ImportedLinks(campaigns)|)
        && r.value.failed == 0 && r.value.nextCursor == At(now))
    {
      hide FlatMap, PutLinks, PutMetrics, PutCampaigns, ImportedLinks, ReceivedLinks, Int32, HasLinks, MetricsOf;
      NothingWritten(campaignTable, metricRows, linkTable, seller);
      written := (0, 0, 0);
      var ok := Call();
      if !ok { return Err(RequestFailed), written; }
      ok := Call();
      if !ok { return Err(RequestFailed), written; }
      var window := ResolveWindow(cursor, now, lookback);
      if window.None? { return Err(BadCursor), written; }
      var all, received;
      ok, all, received := LoadCampaigns();
      if !ok { return Err(RequestFailed), written; }
      var ids, imported;
      ghost var a, b, c;
      ok, ids, imported, a := UpsertCampaigns(seller, all);
      written := (a, 0, 0);
      if !ok { return Err(UpsertFailed), written; }
      var error, moreImported, moreReceived;
      error, moreImported, moreReceived, b := ImportCampaignMetrics(seller, all, ids, window.value);
      written := (a, b, 0);
      if error.Some? { return Err(error.value), written; }
      Int32Adds(|all|, b);
      received, imported := Int32(received + moreReceived), Int32(imported + moreImported);
      error, moreImported, moreReceived, c := ImportCampaignProducts(seller, all);
      written := (a, b, c);
      if error.Some? { return Err(error.value), written; }
      Int32Adds(|all| + b, |ReceivedLinks(all)|);
      Int32Adds(|all| + b, |ImportedLinks(all)|);
      received, imported := Int32(received + moreReceived), Int32(imported + moreImported);
      r := Ok(RunResult(received, imported, 0, At(now)));
    }

    /** One import job: a run from the cursor it captured and, when that worked, the advance of the stored cursor. */
    method RunJob(seller: int, cursor: Cursor, captured: nat, now: int)
        returns (job: Event, ghost ended: nat)
      modifies this`calls, this`requests, this`campaignTable, this`metricRows, this`linkTable
      ensures job.Job? && job.captured == captured && job.now == now
      ensures old(calls) <= ended <= calls
      ensures job.ran <==> cursor != Malformed && AllSucceed(old(calls), ended) && HasLinks(campaigns)
      ensures job.moved <==> job.ran && AllSucceed(ended, calls)
      ensures job.ran ==> calls == ended + 1
      ensures old(metricRows).Keys <= metricRows.Keys
      ensures job.ran ==>
        HasMetrics(metricRows, seller, MetricsOf(campaigns, ResolveWindow(cursor, now, lookback).value))
    {
      hide MetricsOf, HasMetrics, HasLinks, PutMetrics, PutLinks, PutCampaigns, ImportedLinks, ReceivedLinks, Int32;
      ghost var rows := metricRows;
      ghost var written;
      var result;
      result, written := RunSync(seller, cursor, now);
      ended := calls;
      var moved := false;
      if result.Ok? {
        moved := Call();
      }
      job := Job(captured, now, result.Ok?, moved);
      if cursor != Malformed {
        ghost var metrics := MetricsOf(campaigns, ResolveWindow(cursor, now, lookback).value);
        MetricsStay(rows, seller, metrics[..written.1]);
        assert metrics[..|metrics|] == metrics;
      }
    }

    /** When an event worked, by the calls it made: its run's up to `ended`, and all of them. */
    ghost predicate Worked(events: seq<Event>, k: nat, start: nat, ended: nat, done: nat)
      requires k < |events| && (events[k].Job? ==> events[k].captured <= k)
    {
      && start <= ended <= done
      && (events[k].Job? ==>
            && (events[k].ran <==>
                  && CursorAfter(events[..events[k].captured]) != Malformed
                  && AllSucceed(start, ended) && HasLinks(campaigns))
            && (events[k].moved <==> events[k].ran && AllSucceed(ended, done)))
      && (events[k].Reset? ==> (events[k].moved <==> AllSucceed(start, done)))
    }

    ghost function CallsAfter(spans: seq<(nat, nat)>, start: nat): nat {
      if spans == [] then start else spans[|spans| - 1].1
    }

    /** What was recorded of some events: when each worked, the calls following one another without a break, and
        every metric of every run's window in the table. */
    ghost predicate Recorded(events: seq<Event>, spans: seq<(nat, nat)>, start: nat, rows: MetricRows, seller: int)
      requires WellFormed(events) && |spans| == |events|
    {
      && (forall k | 0 <= k < |events| ::
            Worked(events, k, CallsAfter(spans[..k], start), spans[k].0, spans[k].1))
      && (forall k | Ran(events, k) :: HasMetrics(rows, seller, MetricsOf(campaigns, WindowOf(events, k, lookback))))
    }

    lemma RecordedMore(events: seq<Event>, spans: seq<(nat, nat)>, start: nat, rows: MetricRows, more: MetricRows,
                       seller: int, event: Event, ended: nat, done: nat)
      requires WellFormed(events) && |spans| == |events| && Recorded(events, spans, start, rows, seller)
      requires rows.Keys <= more.Keys
      requires MayFollow(events, event)
      requires Worked(events + [event], |events|, CallsAfter(spans, start), ended, done)
      requires event.Job? && event.ran ==>
        HasMetrics(more, seller,
                   MetricsOf(campaigns,
                             ResolveWindow(CursorAfter(events[..event.captured]), event.now, lookback).value))
      ensures WellFormed(events + [event])
      ensures Recorded(events + [event], spans + [(ended, done)], start, more, seller)
    {
      hide MetricsOf, HasMetrics, AllSucceed, HasLinks, CursorAfter;
      var events', spans' := events + [event], spans + [(ended, done)];
      assert event == events'[|events|];
      EventAdded(events, event, lookback);
      forall k | 0 <= k < |events'|
        ensures Worked(events', k, CallsAfter(spans'[..k], start), spans'[k].0, spans'[k].1)
      {
        if k < |events| {
          assert Worked(events, k, CallsAfter(spans[..k], start), spans[k].0, spans[k].1);
          assert spans'[..k] == spans[..k] && events'[k] == events[k];
        } else {
          assert spans'[..k] == spans;
        }
      }
      forall k | Ran(events', k)
        ensures HasMetrics(more, seller, MetricsOf(campaigns, WindowOf(events', k, lookback)))
      {
        if k < |events| {
          assert Ran(events, k);
          MoreMetrics(rows, more, seller, MetricsOf(campaigns, WindowOf(events, k, lookback)));
        }
      }
    }

    /** An admin's reset of the cursor. */
    method ResetCursor(cursor: Cursor) returns (reset: Event)
      modifies this`calls
      ensures calls == old(calls) + 1 && reset == Reset(cursor, AllSucceed(old(calls), calls))
    {
      var moved := Call();
      reset := Reset(cursor, moved);
    }

    /** Import jobs and resets in the order in which they end: each job runs from the cursor stored when it was
        created and, when it worked and its cursor could be stored, moves it on. Whatever fails, every metric of a
        run's window is in the table at the end. */
    method RunJobs(seller: int, requests: seq<Request>) returns (events: seq<Event>, ghost spans: seq<(nat, nat)>)
      requires forall k | 0 <= k < |requests| && requests[k].Import? :: requests[k].captured <= k
      modifies this`calls, this`requests, this`campaignTable, this`metricRows, this`linkTable
      ensures |events| == |spans| == |requests| && WellFormed(events)
      ensures forall k | 0 <= k < |events| :: Answers(events[k], requests[k])
      ensures Recorded(events, spans, old(calls), metricRows, seller) && calls == CallsAfter(spans, old(calls))
    {
      hide Recorded, CursorAfter, HasLinks, AllSucceed, WellFormed;
      events, spans := [], [];
      var cursors := [NoCursor];
      NoEvents(seller);
      while |events| < |requests|
        invariant |events| == |spans| <= |requests| && |cursors| == |events| + 1 && WellFormed(events)
        invariant forall k | 0 <= k < |cursors| :: cursors[k] == CursorAfter(events[..k])
        invariant forall k | 0 <= k < |events| :: Answers(events[k], requests[k])
        invariant Recorded(events, spans, old(calls), metricRows, seller) && calls == CallsAfter(spans, old(calls))
      {
        var k := |events|;
        ghost var rows := metricRows;
        ghost var ended := calls;
        var event;
        match requests[k] {
          case Import(captured, now) => event, ended := RunJob(seller, cursors[captured], captured, now);
          case ResetTo(cursor) => event := ResetCursor(cursor);
        }
        EventAdded(events, event, lookback);
        RecordedMore(events, spans, old(calls), rows, metricRows, seller, event, ended, calls);
        CursorMoves(events, event);
        cursors := cursors + [if !event.moved then cursors[k] else if event.Job? then At(event.now) else event.cursor];
        events, spans := events + [event], spans + [(ended, calls)];
      }
    }

    lemma NoEvents(seller: int)
      ensures WellFormed([]) && Recorded([], [], calls, metricRows, seller) && CursorAfter([]) == NoCursor
    {
    }

    lemma SkuStep(list: seq<AdCampaign>, i: nat)
      requires i < |list|
      ensures FlatMap(list[..i + 1], SkuLinks()) == FlatMap(list[..i], SkuLinks()) + SkuLinks()(list[i])
      ensures list[i].kind != SkuKind ==> FlatMap(list[..i + 1], SkuLinks()) == FlatMap(list[..i], SkuLinks())
      ensures list[i].kind != SkuKind ==> SkuImported(list[..i + 1]) == SkuImported(list[..i])
      ensures SkuImported(list[..i + 1])
           == SkuImported(list[..i]) + FlatMap(SkuLinks()(list[i]), Unless(LacksProduct()))
    {
      FlatMapStep(list, SkuLinks(), i);
      FlatMapConcat(FlatMap(list[..i], SkuLinks()), SkuLinks()(list[i]), Unless(LacksProduct()));
    }

    /** What is written when the i-th campaign is reached is a prefix of all to be written, and so it is with
        part of that campaign's links. */
    lemma SkuDone(list: seq<AdCampaign>, i: nat)
      requires i <= |list|
      ensures |SkuImported(list[..i])| <= |SkuImported(list)|
      ensures SkuImported(list)[..|SkuImported(list[..i])|] == SkuImported(list[..i])
      ensures i == 0 ==> SkuImported(list[..i]) == [] && FlatMap(list[..i], SkuLinks()) == []
      ensures i == |list| ==> list[..i] == list
    {
      var all, n := FlatMap(list, SkuLinks()), |FlatMap(list[..i], SkuLinks())|;
      FlatMapPrefix(list, SkuLinks(), i);
      FlatMapPrefix(all, Unless(LacksProduct()), n);
      assert all[..n] == FlatMap(list[..i], SkuLinks());
      assert i == |list| ==> list[..i] == list;
    }

    lemma SkuPartDone(list: seq<AdCampaign>, i: nat, n: nat)
      requires i < |list| && n <= |FlatMap(SkuLinks()(list[i]), Unless(LacksProduct()))|
      ensures var part := SkuImported(list[..i]) + FlatMap(SkuLinks()(list[i]), Unless(LacksProduct()))[..n];
        |part| <= |SkuImported(list)| && SkuImported(list)[..|part|] == part
    {
      SkuStep(list, i);
      SkuDone(list, i + 1);
      var whole, part :=
        SkuImported(list[..i + 1]), SkuImported(list[..i]) + FlatMap(SkuLinks()(list[i]), Unless(LacksProduct()))[..n];
      hide SkuImported, FlatMap;
      assert whole[..|part|] == part;
      assert SkuImported(list)[..|whole|][..|part|] == SkuImported(list)[..|part|];
    }
  }

  lemma KeptSoFar(links: seq<PromotedProduct>, skip: PromotedProduct -> bool, i: nat)
    requires i <= |links|
    ensures var kept, n := FlatMap(links, Unless(skip)), |FlatMap(links[..i], Unless(skip))|;
      && n <= |kept| && kept[..n] == FlatMap(links[..i], Unless(skip))
      && (i == 0 ==> n == 0) && (i == |links| ==> n == |kept|)
  {
    assert links[..|links|] == links;
    FlatMapPrefix(links, Unless(skip), i);
  }

  lemma UnlessStep(links: seq<PromotedProduct>, skip: PromotedProduct -> bool, i: nat)
    requires i < |links|
    ensures FlatMap(links[..i + 1], Unless(skip))
             == if skip(links[i]) then FlatMap(links[..i], Unless(skip))
                else FlatMap(links[..i], Unless(skip)) + [links[i]]
  {
    FlatMapStep(links, Unless(skip), i);
  }

  lemma NothingWritten(campaigns: CampaignTable, metrics: MetricRows, links: LinkTable, seller: int)
    ensures PutCampaigns(campaigns, seller, []) == campaigns && PutMetrics(metrics, seller, []) == metrics
    ensures PutLinks(links, seller, []) == links
  {
  }

  lemma NoPages<T>(list: seq<T>, pageSize: nat)
    ensures FirstPages(list, pageSize, 0) == [] && PageStart(pageSize, 0) == 0
  {
  }

  /** The page just read completes the list, or is a full one that continues it. */
  lemma PageTaken<T>(list: seq<T>, pageSize: nat, page: nat, all: seq<T>, items: seq<T>)
    requires page >= 1 && all == FirstPages(list, pageSize, page - 1)
    requires PageStart(pageSize, page - 1) == |all| <= |list|
    requires items == ApplyPagination(list, PageStart(pageSize, page - 1), pageSize)
    ensures all + items == FirstPages(list, pageSize, page)
    ensures |items| < pageSize ==> all + items == list && |list| / pageSize == page - 1
    ensures |items| >= pageSize ==> PageStart(pageSize, page) == |all + items| <= |list|
  {
    PagesCover(list, pageSize, page);
    PagesCover(list, pageSize, page - 1);
    if |items| < pageSize {
      LastPage(|list|, pageSize, page - 1);
    }
  }
}
