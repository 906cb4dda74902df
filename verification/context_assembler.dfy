/** Building a fact context from tool results, step by step on a mutable context, and what the finished
    context guarantees. */
module ContextAssemblers {
  import opened Wrappers
  import opened Batches
  import opened Text
  import opened ContextValue
  import opened Sorting
  import opened References
  import opened FactContexts

  const DEFAULT_MAX_CONTEXT_BYTES := 50 * 1024
  const DEFAULT_MAX_TEXT_LENGTH := 1500
  const DEFAULT_MAX_ITEMS_PER_SECTION := 20

  datatype AssembleError = QuestionRequired | IntentRequired

  datatype AssemblerLimits = AssemblerLimits(maxContextBytes: int, maxTextLength: int, maxItemsPerSection: int)

  function OrDefault(value: int, default: nat): nat {
    if value <= 0 then default else value
  }

  function SanitizeLimitsOf(a: AssemblerLimits): Limits {
    Limits(OrDefault(a.maxTextLength, DEFAULT_MAX_TEXT_LENGTH),
           OrDefault(a.maxItemsPerSection, DEFAULT_MAX_ITEMS_PER_SECTION))
  }

  /** The context with its item count and encoded size recorded; `estimate` is the encoded size. */
  function Measured(c: ContextView, estimate: ContextView -> nat): ContextView {
    var counted := c.(stats := c.stats.(totalItems := CountFactItems(c.facts)));
    counted.(stats := counted.stats.(estimatedBytes := estimate(counted)))
  }

  function WithNoDataNote(c: ContextView): ContextView {
    var notes := Dedupe(c.limitations);
    c.(limitations := Dedupe(if NoData(c.facts) then notes + [NO_DATA_NOTE] else notes))
  }

  function Shrunk(c: ContextView): ContextView {
    c.(facts := ShrinkFacts(c.facts), toolResults := ShrinkResults(c.toolResults))
  }

  function MarkedTruncated(c: ContextView): ContextView {
    c.(stats := c.stats.(truncated := true, truncationReason := TRUNCATION_REASON),
       limitations := Dedupe(c.limitations + [TRUNCATED_NOTE]))
  }

  function Fitted(c: ContextView, maxBytes: nat, estimate: ContextView -> nat): ContextView {
    if c.stats.estimatedBytes > maxBytes then Measured(MarkedTruncated(Shrunk(c)), estimate) else c
  }

  function WithSortedReferences(c: ContextView): ContextView {
    c.(relatedAlerts := Sort(c.relatedAlerts, ById<AlertDetail>()),
       relatedRecommendations := Sort(c.relatedRecommendations, ById<RecommendationDetail>()))
  }

  /** Everything the tools said, before limits are applied. */
  function Gathered(a: AssemblerLimits, intent: string, assumptions: seq<string>,
                    results: seq<ToolResult>): ContextView {
    AbsorbAll(EmptyContext(intent, assumptions, |results|), SanitizedResults(results, SanitizeLimitsOf(a)))
  }

  /** The context assembled from `results`. */
  function Assembled(a: AssemblerLimits, intent: string, assumptions: seq<string>, results: seq<ToolResult>,
                     estimate: ContextView -> nat): ContextView
  {
    var noted := Measured(WithNoDataNote(Gathered(a, intent, assumptions, results)), estimate);
    WithSortedReferences(Fitted(noted, OrDefault(a.maxContextBytes, DEFAULT_MAX_CONTEXT_BYTES), estimate))
  }

  class FactContext {
    var intent: string
    var toolResults: seq<ToolResult>
    var facts: Facts
    var relatedAlerts: seq<AlertReference>
    var relatedRecommendations: seq<RecommendationReference>
    var assumptions: seq<string>
    var limitations: seq<string>
    var freshness: map<string, Fields>
    var stats: Stats

    constructor (intent: string, assumptions: seq<string>, toolResults: nat)
      ensures View() == EmptyContext(intent, assumptions, toolResults)
    {
      this.intent := intent;
      this.toolResults := [];
      facts := NO_FACTS;
      relatedAlerts, relatedRecommendations := [], [];
      this.assumptions := Dedupe(assumptions);
      limitations, freshness := [], map[];
      stats := Stats(toolResults, 0, 0, 0, false, "");
    }

    function View(): ContextView
      reads this
    {
      ContextView(intent, toolResults, facts, relatedAlerts, relatedRecommendations, assumptions, limitations,
                  freshness, stats)
    }
  }

  /** The set of ids already referenced, threaded through one assembly. */
  class IdSet {
    var ids: set<int>

    constructor ()
      ensures ids == {}
    {
      ids := {};
    }
  }

  method AddAlertRef(ctx: FactContext, src: Fields, seen: IdSet)
    requires seen.ids == Ids(ctx.relatedAlerts)
    modifies ctx`relatedAlerts, seen
    ensures ctx.relatedAlerts == WithReference(old(ctx.relatedAlerts), src, AlertDetailOf)
    ensures seen.ids == Ids(ctx.relatedAlerts)
  {
    var id := ReadInt64(Field(src, "id"));
    if id.None? || id.value in seen.ids {
      return;
    }
    seen.ids := seen.ids + {id.value};
    var ref := Reference(id.value, AlertDetailOf(src));
    ValuesPush(ctx.relatedAlerts, RefId<AlertDetail>(), ref);
    ctx.relatedAlerts := ctx.relatedAlerts + [ref];
  }

  method AddRecommendationRef(ctx: FactContext, src: Fields, seen: IdSet)
    requires seen.ids == Ids(ctx.relatedRecommendations)
    modifies ctx`relatedRecommendations, seen
    ensures ctx.relatedRecommendations == WithReference(old(ctx.relatedRecommendations), src, RecommendationDetailOf)
    ensures seen.ids == Ids(ctx.relatedRecommendations)
  {
    var id := ReadInt64(Field(src, "id"));
    if id.None? || id.value in seen.ids {
      return;
    }
    seen.ids := seen.ids + {id.value};
    var ref := Reference(id.value, RecommendationDetailOf(src));
    ValuesPush(ctx.relatedRecommendations, RefId<RecommendationDetail>(), ref);
    ctx.relatedRecommendations := ctx.relatedRecommendations + [ref];
  }

  method AddAlertRefs(ctx: FactContext, srcs: seq<Fields>, seen: IdSet)
    requires seen.ids == Ids(ctx.relatedAlerts)
    modifies ctx`relatedAlerts, seen
    ensures ctx.relatedAlerts == WithReferences(old(ctx.relatedAlerts), srcs, AlertDetailOf)
    ensures seen.ids == Ids(ctx.relatedAlerts)
  {
    for i := 0 to |srcs|
      invariant ctx.relatedAlerts == WithReferences(old(ctx.relatedAlerts), srcs[..i], AlertDetailOf)
      invariant seen.ids == Ids(ctx.relatedAlerts)
    {
      assert srcs[..i + 1][..i] == srcs[..i];
      AddAlertRef(ctx, srcs[i], seen);
    }
    assert srcs[..|srcs|] == srcs;
  }

  method AddRecommendationRefs(ctx: FactContext, srcs: seq<Fields>, seen: IdSet)
    requires seen.ids == Ids(ctx.relatedRecommendations)
    modifies ctx`relatedRecommendations, seen
    ensures ctx.relatedRecommendations == WithReferences(old(ctx.relatedRecommendations), srcs, RecommendationDetailOf)
    ensures seen.ids == Ids(ctx.relatedRecommendations)
  {
    for i := 0 to |srcs|
      invariant ctx.relatedRecommendations
        == WithReferences(old(ctx.relatedRecommendations), srcs[..i], RecommendationDetailOf)
      invariant seen.ids == Ids(ctx.relatedRecommendations)
    {
      assert srcs[..i + 1][..i] == srcs[..i];
      AddRecommendationRef(ctx, srcs[i], seen);
    }
    assert srcs[..|srcs|] == srcs;
  }

  /** What routing one result leaves in the context. */
  twostate predicate RoutedTo(ctx: FactContext, r: ToolResult)
    reads ctx
  {
    && ctx.facts == FactsWith(old(ctx.facts), r)
    && ctx.relatedAlerts == WithReferences(old(ctx.relatedAlerts), AlertSources(r), AlertDetailOf)
    && ctx.relatedRecommendations
          == WithReferences(old(ctx.relatedRecommendations), RecommendationSources(r), RecommendationDetailOf)
    && ctx.freshness == FreshnessWith(old(ctx.freshness), r)
    && ctx.limitations == WithUnknownToolNote(old(ctx.limitations), r)
  }

  method RouteToolResult(ctx: FactContext, r: ToolResult, alertSeen: IdSet, recommendSeen: IdSet)
    requires alertSeen != recommendSeen
    requires alertSeen.ids == Ids(ctx.relatedAlerts) && recommendSeen.ids == Ids(ctx.relatedRecommendations)
    modifies ctx`facts, ctx`relatedAlerts, ctx`relatedRecommendations, ctx`freshness,
             ctx`limitations, alertSeen, recommendSeen
    ensures RoutedTo(ctx, r)
    ensures alertSeen.ids == Ids(ctx.relatedAlerts) && recommendSeen.ids == Ids(ctx.relatedRecommendations)
  {
    var asMap, f := MapOf(r.data), ctx.facts;
    match r.tool
    case GetDashboardSummary =>
      ctx.facts := f.(dashboard := asMap);
      ctx.freshness := ctx.freshness["dashboard" := PickFreshness(asMap)];
    case GetCriticalSkus =>
      ctx.facts := f.(criticalSkus := f.criticalSkus + Items(asMap));
    case GetStockRisks =>
      ctx.facts := f.(stockRisks := f.stockRisks + Items(asMap));
    case GetAdvertisingAnalytics =>
      ctx.facts := f.(advertising := asMap);
      ctx.freshness := ctx.freshness["advertising" := PickFreshness(asMap)];
    case GetSkuMetrics =>
      ctx.facts := f.(skuMetrics := f.skuMetrics + Items(asMap));
      ctx.freshness := ctx.freshness["sku_metrics" := PickFreshness(asMap)];
    case RunAbcAnalysis =>
      ctx.facts := f.(abcAnalysis := asMap);
      ctx.freshness := ctx.freshness["abc_analysis" := PickFreshness(asMap)];
    case UnknownTool(name) =>
      ctx.facts := f.(other := f.other + [asMap]);
      ctx.limitations := ctx.limitations + [UnknownToolNote(name)];
    case _ =>
      RouteReferences(ctx, r, alertSeen, recommendSeen);
  }

  /** The part of the routing for tools whose results name alerts or recommendations. */
  method RouteReferences(ctx: FactContext, r: ToolResult, alertSeen: IdSet, recommendSeen: IdSet)
    requires alertSeen != recommendSeen
    requires alertSeen.ids == Ids(ctx.relatedAlerts) && recommendSeen.ids == Ids(ctx.relatedRecommendations)
    requires !r.tool.GetDashboardSummary? && !r.tool.GetCriticalSkus? && !r.tool.GetStockRisks?
    requires !r.tool.GetAdvertisingAnalytics? && !r.tool.GetSkuMetrics? && !r.tool.RunAbcAnalysis?
    requires !r.tool.UnknownTool?
    modifies ctx`facts, ctx`relatedAlerts, ctx`relatedRecommendations, alertSeen, recommendSeen
    ensures RoutedTo(ctx, r)
    ensures alertSeen.ids == Ids(ctx.relatedAlerts) && recommendSeen.ids == Ids(ctx.relatedRecommendations)
  {
    var asMap, f := MapOf(r.data), ctx.facts;
    match r.tool
    case GetOpenRecommendations =>
      ctx.facts := f.(recommendations := f.recommendations + Items(asMap));
      AddRecommendationRefs(ctx, Items(asMap), recommendSeen);
    case GetRecommendationDetail =>
      ctx.facts := f.(recommendationDetails := f.recommendationDetails + [asMap]);
      AddRecommendationRefs(ctx, MainRecommendation(asMap), recommendSeen);
      AddAlertRefs(ctx, AnyMaps(Field(asMap, "related_alerts")), alertSeen);
    case GetOpenAlerts | GetAlertsByGroup =>
      ctx.facts := f.(alerts := f.alerts + Items(asMap));
      AddAlertRefs(ctx, Items(asMap), alertSeen);
    case GetPriceEconomicsRisks =>
      ctx.facts := f.(priceEconomicsRisks := f.priceEconomicsRisks + Items(asMap));
      AddAlertRefs(ctx, Items(asMap), alertSeen);
    case GetSkuContext =>
      ctx.facts := f.(skuContexts := f.skuContexts + [asMap]);
      AddAlertRefs(ctx, AnyMaps(Field(asMap, "alerts")), alertSeen);
      AddRecommendationRefs(ctx, AnyMaps(Field(asMap, "recommendations")), recommendSeen);
    case GetCampaignContext =>
      ctx.facts := f.(campaignContexts := f.campaignContexts + [asMap]);
      AddAlertRefs(ctx, AnyMaps(Field(asMap, "alerts")), alertSeen);
      AddRecommendationRefs(ctx, AnyMaps(Field(asMap, "recommendations")), recommendSeen);
  }

  /** Go's loop: keep a trimmed item unless it is empty or already kept. */
  method DedupeStrings(items: seq<string>) returns (out: seq<string>)
    ensures out == Dedupe(items)
  {
    out := [];
    for i := 0 to |items|
      invariant out == Dedupe(items[..i])
    {
      assert items[..i + 1][..i] == items[..i];
      var item := TrimSpace(items[i]);
      if item == "" || item in out {
        continue;
      }
      out := out + [item];
    }
    assert items[..|items|] == items;
  }

  /** A map is cut where a section holds it, and so in the tool result it came from. */
  method ShrinkContext(ctx: FactContext)
    modifies ctx`facts, ctx`toolResults
    ensures ctx.facts == ShrinkFacts(old(ctx.facts))
    ensures ctx.toolResults == ShrinkResults(old(ctx.toolResults))
  {
    var f := ctx.facts;
    ctx.facts := ctx.facts.(recommendations := ShrinkSlice(f.recommendations, 5), alerts := ShrinkSlice(f.alerts, 10));
    ctx.facts := ctx.facts.(skuMetrics := ShrinkSlice(f.skuMetrics, 10),
                            criticalSkus := ShrinkSlice(f.criticalSkus, 10));
    ctx.facts := ctx.facts.(stockRisks := ShrinkSlice(f.stockRisks, 10),
                            priceEconomicsRisks := ShrinkSlice(f.priceEconomicsRisks, 10));
    ctx.facts := ctx.facts.(campaignContexts := ShrinkSlice(f.campaignContexts, 5),
                            skuContexts := ShrinkSlice(f.skuContexts, 5));
    var campaigns := Field(ctx.facts.advertising, "campaigns");
    ctx.toolResults := ShrinkLatest(ctx.toolResults, GetAdvertisingAnalytics, "campaigns", 10);
    if campaigns.List? && |campaigns.items| > 10 {
      ctx.facts :=
        ctx.facts.(advertising := Fields(ctx.facts.advertising.m["campaigns" := List(campaigns.items[..10])]));
    }
    var rows := Field(ctx.facts.abcAnalysis, "rows");
    ctx.toolResults := ShrinkLatest(ctx.toolResults, RunAbcAnalysis, "rows", 20);
    if rows.List? && |rows.items| > 20 {
      ctx.facts := ctx.facts.(abcAnalysis := Fields(ctx.facts.abcAnalysis.m["rows" := List(rows.items[..20])]));
    }
    ctx.toolResults := ShrinkSlice(ctx.toolResults, 10);
  }

  method MeasureContext(ctx: FactContext, estimate: ContextView -> nat)
    modifies ctx`stats
    ensures ctx.View() == Measured(old(ctx.View()), estimate)
  {
    ctx.stats := ctx.stats.(totalItems := CountFactItems(ctx.facts));
    ctx.stats := ctx.stats.(estimatedBytes := estimate(ctx.View()));
  }

  method AbsorbResult(ctx: FactContext, r: ToolResult, lim: Limits, alertSeen: IdSet, recommendSeen: IdSet)
    requires alertSeen != recommendSeen
    requires alertSeen.ids == Ids(ctx.relatedAlerts) && recommendSeen.ids == Ids(ctx.relatedRecommendations)
    modifies ctx, alertSeen, recommendSeen
    ensures ctx.View() == Absorb(old(ctx.View()), SanitizedResult(r, lim))
    ensures alertSeen.ids == Ids(ctx.relatedAlerts) && recommendSeen.ids == Ids(ctx.relatedRecommendations)
  {
    var limitations := DedupeStrings(r.limitations);
    var copyResult := ToolResult(r.tool, SanitizeFields(r.args, lim), Sanitize(r.data, lim), r.error, limitations);
    ctx.toolResults := ctx.toolResults + [copyResult];
    if copyResult.error.Some? && TrimSpace(copyResult.error.value) != "" {
      ctx.stats := ctx.stats.(failedTools := ctx.stats.failedTools + 1);
      ctx.limitations := ctx.limitations + [FailureNote(ToolName(copyResult.tool), copyResult.error.value)];
    }
    ctx.limitations := ctx.limitations + copyResult.limitations;
    RouteToolResult(ctx, copyResult, alertSeen, recommendSeen);
  }

  method Assemble(a: AssemblerLimits, question: string, intent: string, assumptions: seq<string>,
                  results: seq<ToolResult>, estimate: ContextView -> nat) returns (r: Result<FactContext,
                                                                                   AssembleError>)
    ensures TrimSpace(question) == "" ==> r == Err(QuestionRequired)
    ensures TrimSpace(question) != "" && TrimSpace(intent) == "" ==> r == Err(IntentRequired)
    ensures TrimSpace(question) != "" && TrimSpace(intent) != "" ==>
      r.Ok? && fresh(r.value) && r.value.View() == Assembled(a, intent, assumptions, results, estimate)
  {
    if TrimSpace(question) == "" {
      return Err(QuestionRequired);
    }
    if TrimSpace(intent) == "" {
      return Err(IntentRequired);
    }
    var maxBytes := OrDefault(a.maxContextBytes, DEFAULT_MAX_CONTEXT_BYTES);
    var lim := SanitizeLimitsOf(a);
    var ctx := new FactContext(intent, assumptions, |results|);
    var alertSeen := new IdSet();
    var recommendSeen := new IdSet();
    AbsorbResults(ctx, results, lim, alertSeen, recommendSeen);
    FinishContext(ctx, maxBytes, estimate);
    r := Ok(ctx);
  }

  method AbsorbResults(ctx: FactContext, results: seq<ToolResult>, lim: Limits, alertSeen: IdSet, recommendSeen: IdSet)
    requires alertSeen != recommendSeen
    requires alertSeen.ids == Ids(ctx.relatedAlerts) && recommendSeen.ids == Ids(ctx.relatedRecommendations)
    modifies ctx, alertSeen, recommendSeen
    ensures ctx.View() == AbsorbAll(old(ctx.View()), SanitizedResults(results, lim))
  {
    ghost var start := ctx.View();
    ghost var clean := SanitizedResults(results, lim);
    for i := 0 to |results|
      invariant ctx.View() == AbsorbAll(start, clean[..i])
      invariant alertSeen.ids == Ids(ctx.relatedAlerts) && recommendSeen.ids == Ids(ctx.relatedRecommendations)
    {
      assert clean[..i + 1][..i] == clean[..i];
      AbsorbResult(ctx, results[i], lim, alertSeen, recommendSeen);
    }
    assert clean[..|results|] == clean;
  }

  method FinishContext(ctx: FactContext, maxBytes: nat, estimate: ContextView -> nat)
    modifies ctx
    ensures ctx.View()
             == WithSortedReferences(Fitted(Measured(WithNoDataNote(old(ctx.View())), estimate), maxBytes, estimate))
  {
    NoteNoData(ctx);
    MeasureContext(ctx, estimate);
    FitContext(ctx, maxBytes, estimate);
    ctx.relatedAlerts := Sort(ctx.relatedAlerts, ById<AlertDetail>());
    ctx.relatedRecommendations := Sort(ctx.relatedRecommendations, ById<RecommendationDetail>());
  }

  method NoteNoData(ctx: FactContext)
    modifies ctx`limitations
    ensures ctx.View() == WithNoDataNote(old(ctx.View()))
  {
    ctx.limitations := DedupeStrings(ctx.limitations);
    if NoData(ctx.facts) {
      ctx.limitations := ctx.limitations + [NO_DATA_NOTE];
    }
    ctx.limitations := DedupeStrings(ctx.limitations);
  }

  method FitContext(ctx: FactContext, maxBytes: nat, estimate: ContextView -> nat)
    modifies ctx`facts, ctx`toolResults, ctx`stats, ctx`limitations
    ensures ctx.View() == Fitted(old(ctx.View()), maxBytes, estimate)
  {
    if ctx.stats.estimatedBytes > maxBytes {
      ShrinkContext(ctx);
      ctx.stats := ctx.stats.(truncated := true, truncationReason := TRUNCATION_REASON);
      ctx.limitations := DedupeStrings(ctx.limitations + [TRUNCATED_NOTE]);
      assert ctx.View() == MarkedTruncated(Shrunk(old(ctx.View())));
      MeasureContext(ctx, estimate);
    }
  }
}
