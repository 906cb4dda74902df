/** The fact context handed to the language model: its parts, and what one tool result adds to them. */
module FactContexts {
  import opened Wrappers
  import opened Text
  import opened ContextValue
  import opened References

  /** The read-only tools the planner may call; any other name is an unknown tool. */
  datatype Tool =
    | GetDashboardSummary
    | GetOpenRecommendations
    | GetRecommendationDetail
    | GetOpenAlerts
    | GetAlertsByGroup
    | GetCriticalSkus
    | GetStockRisks
    | GetAdvertisingAnalytics
    | GetPriceEconomicsRisks
    | GetSkuMetrics
    | GetSkuContext
    | GetCampaignContext
    | RunAbcAnalysis
    | UnknownTool(name: string)

  function ToolName(t: Tool): string {
    match t
    case GetDashboardSummary => "get_dashboard_summary"
    case GetOpenRecommendations => "get_open_recommendations"
    case GetRecommendationDetail => "get_recommendation_detail"
    case GetOpenAlerts => "get_open_alerts"
    case GetAlertsByGroup => "get_alerts_by_group"
    case GetCriticalSkus => "get_critical_skus"
    case GetStockRisks => "get_stock_risks"
    case GetAdvertisingAnalytics => "get_advertising_analytics"
    case GetPriceEconomicsRisks => "get_price_economics_risks"
    case GetSkuMetrics => "get_sku_metrics"
    case GetSkuContext => "get_sku_context"
    case GetCampaignContext => "get_campaign_context"
    case RunAbcAnalysis => "run_abc_analysis"
    case UnknownTool(name) => name
  }

  const FRESHNESS_KEYS: seq<string> := [
    "as_of_date", "as_of_date_source", "data_freshness", "last_successful_update", "generated_at",
    "date_from", "date_to", "period"
  ]

  const NO_DATA_NOTE := "No factual data" + " was available for this question" + "."
  const TRUNCATED_NOTE := "Context was truncated" + " to fit size limits" + "."
  const TRUNCATION_REASON := "max_context_bytes_exceeded"

  datatype ToolResult = ToolResult(tool: Tool, args: Fields, data: Value, error: Option<string>,
                                   limitations: seq<string>)

  datatype Facts = Facts(
    dashboard: Fields,
    recommendations: seq<Fields>,
    recommendationDetails: seq<Fields>,
    alerts: seq<Fields>,
    priceEconomicsRisks: seq<Fields>,
    criticalSkus: seq<Fields>,
    stockRisks: seq<Fields>,
    advertising: Fields,
    skuMetrics: seq<Fields>,
    skuContexts: seq<Fields>,
    campaignContexts: seq<Fields>,
    abcAnalysis: Fields,
    other: seq<Fields>)

  const NO_FACTS := Facts(EMPTY_FIELDS, [], [], [], [], [], [], EMPTY_FIELDS, [], [], [], EMPTY_FIELDS, [])

  datatype AlertDetail = AlertDetail(
    alertType: string, group: string, severity: string, urgency: string, entityType: string,
    entitySku: Option<int>, entityOfferId: Option<string>, title: string)

  datatype RecommendationDetail = RecommendationDetail(
    recommendationType: string, priorityLevel: string, urgency: string, confidenceLevel: string, entityType: string,
    entitySku: Option<int>, entityOfferId: Option<string>, title: string, recommendedAction: string)

  type AlertReference = Reference<AlertDetail>
  type RecommendationReference = Reference<RecommendationDetail>

  datatype Stats = Stats(
    toolResults: nat, failedTools: nat, totalItems: nat, estimatedBytes: nat, truncated: bool, truncationReason: string)

  /** The contents of a fact context. */
  datatype ContextView = ContextView(
    intent: string,
    toolResults: seq<ToolResult>,
    facts: Facts,
    relatedAlerts: seq<AlertReference>,
    relatedRecommendations: seq<RecommendationReference>,
    assumptions: seq<string>,
    limitations: seq<string>,
    freshness: map<string, Fields>,
    stats: Stats)

  function ReadString(v: Value): string {
    if v.Text? then TrimSpace(v.s) else ""
  }

  function NonEmpty(s: string): Option<string> {
    if s == "" then None else Some(s)
  }

  function AlertDetailOf(src: Fields): AlertDetail {
    var group, fallback := ReadString(Field(src, "alert_group")), ReadString(Field(src, "group"));
    AlertDetail(
      ReadString(Field(src, "alert_type")),
      if group != "" then group else fallback,
      ReadString(Field(src, "severity")),
      ReadString(Field(src, "urgency")),
      ReadString(Field(src, "entity_type")),
      ReadInt64(Field(src, "entity_sku")),
      NonEmpty(ReadString(Field(src, "entity_offer_id"))),
      ReadString(Field(src, "title")))
  }

  function RecommendationDetailOf(src: Fields): RecommendationDetail {
    RecommendationDetail(
      ReadString(Field(src, "recommendation_type")),
      ReadString(Field(src, "priority_level")),
      ReadString(Field(src, "urgency")),
      ReadString(Field(src, "confidence_level")),
      ReadString(Field(src, "entity_type")),
      ReadInt64(Field(src, "entity_sku")),
      NonEmpty(ReadString(Field(src, "entity_offer_id"))),
      ReadString(Field(src, "title")),
      ReadString(Field(src, "recommended_action")))
  }

  function MapOf(v: Value): Fields {
    if v.Object? then v.fields else EMPTY_FIELDS
  }

  function Objects(items: seq<Value>): seq<Fields> {
    if items == [] then []
    else (if items[0].Object? then [items[0].fields] else []) + Objects(items[1..])
  }

  function AnyMaps(v: Value): seq<Fields> {
    match v
    case Rows(rows) => rows
    case List(items) => Objects(items)
    case _ => []
  }

  function Items(f: Fields): seq<Fields> {
    AnyMaps(Field(f, "items"))
  }

  function PickFreshness(f: Fields): Fields {
    Fields(map k | k in FRESHNESS_KEYS && k in f.m :: f.m[k])
  }

  /** A list-valued section after one more result: extended by the result's items when the result feeds it. */
  function ItemsWhen(feeds: bool, before: seq<Fields>, r: ToolResult): seq<Fields> {
    if feeds then before + Items(MapOf(r.data)) else before
  }

  /** A section that collects whole results, after one more result. */
  function WholeWhen(feeds: bool, before: seq<Fields>, r: ToolResult): seq<Fields> {
    if feeds then before + [MapOf(r.data)] else before
  }

  /** A section that holds the latest result, after one more result. */
  function LatestWhen(feeds: bool, before: Fields, r: ToolResult): Fields {
    if feeds then MapOf(r.data) else before
  }

  /** The fact sections after one more result, section by section. */
  function FactsWith(f: Facts, r: ToolResult): Facts {
    Facts(
      LatestWhen(r.tool.GetDashboardSummary?, f.dashboard, r),
      ItemsWhen(r.tool.GetOpenRecommendations?, f.recommendations, r),
      WholeWhen(r.tool.GetRecommendationDetail?, f.recommendationDetails, r),
      ItemsWhen(r.tool.GetOpenAlerts? || r.tool.GetAlertsByGroup?, f.alerts, r),
      ItemsWhen(r.tool.GetPriceEconomicsRisks?, f.priceEconomicsRisks, r),
      ItemsWhen(r.tool.GetCriticalSkus?, f.criticalSkus, r),
      ItemsWhen(r.tool.GetStockRisks?, f.stockRisks, r),
      LatestWhen(r.tool.GetAdvertisingAnalytics?, f.advertising, r),
      ItemsWhen(r.tool.GetSkuMetrics?, f.skuMetrics, r),
      WholeWhen(r.tool.GetSkuContext?, f.skuContexts, r),
      WholeWhen(r.tool.GetCampaignContext?, f.campaignContexts, r),
      LatestWhen(r.tool.RunAbcAnalysis?, f.abcAnalysis, r),
      WholeWhen(r.tool.UnknownTool?, f.other, r))
  }

  /** The maps of a result from which alert references are taken. */
  function AlertSources(r: ToolResult): seq<Fields> {
    match r.tool
    case GetOpenAlerts | GetAlertsByGroup | GetPriceEconomicsRisks => Items(MapOf(r.data))
    case GetRecommendationDetail => AnyMaps(Field(MapOf(r.data), "related_alerts"))
    case GetSkuContext | GetCampaignContext => AnyMaps(Field(MapOf(r.data), "alerts"))
    case _ => []
  }

  /** The maps of a result from which recommendation references are taken. */
  function RecommendationSources(r: ToolResult): seq<Fields> {
    match r.tool
    case GetOpenRecommendations => Items(MapOf(r.data))
    case GetRecommendationDetail => MainRecommendation(MapOf(r.data))
    case GetSkuContext | GetCampaignContext => AnyMaps(Field(MapOf(r.data), "recommendations"))
    case _ => []
  }

  function MainRecommendation(f: Fields): seq<Fields> {
    var rec := Field(f, "recommendation");
    if rec.Object? then [rec.fields] else []
  }

  function FreshnessWith(freshness: map<string, Fields>, r: ToolResult): map<string, Fields> {
    match r.tool
    case GetDashboardSummary => freshness["dashboard" := PickFreshness(MapOf(r.data))]
    case GetAdvertisingAnalytics => freshness["advertising" := PickFreshness(MapOf(r.data))]
    case GetSkuMetrics => freshness["sku_metrics" := PickFreshness(MapOf(r.data))]
    case RunAbcAnalysis => freshness["abc_analysis" := PickFreshness(MapOf(r.data))]
    case _ => freshness
  }

  function UnknownToolNote(name: string): string {
    "Tool result from unknown tool was not included: " + name
  }

  function FailureNote(name: string, error: string): string {
    "Tool " + name + " failed: " + TrimSpace(error)
  }

  predicate Failed(r: ToolResult) {
    r.error.Some? && TrimSpace(r.error.value) != ""
  }

  function WithFailureNote(notes: seq<string>, r: ToolResult): seq<string> {
    if Failed(r) then notes + [FailureNote(ToolName(r.tool), r.error.value)] else notes
  }

  function WithUnknownToolNote(notes: seq<string>, r: ToolResult): seq<string> {
    if r.tool.UnknownTool? then notes + [UnknownToolNote(r.tool.name)] else notes
  }

  /** The limitations after one more sanitized result: its failure, its own limitations, and a note
      when the tool is unknown. */
  function WithNotes(notes: seq<string>, r: ToolResult): seq<string> {
    WithUnknownToolNote(WithFailureNote(notes, r) + r.limitations, r)
  }

  function SanitizedResult(r: ToolResult, lim: Limits): ToolResult {
    ToolResult(r.tool, SanitizeFields(r.args, lim), Sanitize(r.data, lim), r.error, Dedupe(r.limitations))
  }

  /** The context after one more sanitized result. */
  function Absorb(c: ContextView, r: ToolResult): ContextView {
    ContextView(
      c.intent,
      c.toolResults + [r],
      FactsWith(c.facts, r),
      WithReferences(c.relatedAlerts, AlertSources(r), AlertDetailOf),
      WithReferences(c.relatedRecommendations, RecommendationSources(r), RecommendationDetailOf),
      c.assumptions,
      WithNotes(c.limitations, r),
      FreshnessWith(c.freshness, r),
      if Failed(r) then c.stats.(failedTools := c.stats.failedTools + 1) else c.stats)
  }

  function AbsorbAll(c: ContextView, rs: seq<ToolResult>): ContextView {
    if rs == [] then c else Absorb(AbsorbAll(c, rs[..|rs| - 1]), rs[|rs| - 1])
  }

  function SanitizedResults(rs: seq<ToolResult>, lim: Limits): seq<ToolResult> {
    seq(|rs|, i requires 0 <= i < |rs| => SanitizedResult(rs[i], lim))
  }

  function EmptyContext(intent: string, assumptions: seq<string>, toolResults: nat): ContextView {
    ContextView(intent, [], NO_FACTS, [], [], Dedupe(assumptions), [], map[], Stats(toolResults, 0, 0, 0, false, ""))
  }

  /** No section the answer could draw on has anything in it. */
  predicate NoData(f: Facts) {
    && f.dashboard.m == map[] && f.recommendations == [] && f.alerts == [] && f.criticalSkus == []
    && f.stockRisks == [] && f.skuMetrics == [] && f.skuContexts == [] && f.campaignContexts == []
    && f.abcAnalysis.m == map[] && f.priceEconomicsRisks == [] && f.recommendationDetails == []
    && f.advertising.m == map[]
  }

  function CountFactItems(f: Facts): nat {
    (if f.dashboard.m != map[] then 1 else 0) + (if f.advertising.m != map[] then 1 else 0)
    + (if f.abcAnalysis.m != map[] then 1 else 0)
    + |f.recommendations| + |f.recommendationDetails| + |f.alerts| + |f.priceEconomicsRisks| + |f.criticalSkus|
    + |f.stockRisks| + |f.skuMetrics| + |f.skuContexts| + |f.campaignContexts| + |f.other|
  }

  function ShrinkSlice<T>(items: seq<T>, n: nat): seq<T> {
    if |items| <= n then items else items[..n]
  }

  function ShrinkField(f: Fields, key: string, n: nat): Fields {
    var v := Field(f, key);
    if v.List? && |v.items| > n then Fields(f.m[key := List(v.items[..n])]) else f
  }

  function ShrinkData(v: Value, key: string, n: nat): Value {
    if v.Object? then Object(ShrinkField(v.fields, key, n)) else v
  }

  /** A section that holds a tool's latest result is the map that result holds: cutting the one cuts the other. */
  function ShrinkLatest(rs: seq<ToolResult>, tool: Tool, key: string, n: nat): seq<ToolResult> {
    if rs == [] then []
    else
      var front, last := rs[..|rs| - 1], rs[|rs| - 1];
      if last.tool == tool then front + [last.(data := ShrinkData(last.data, key, n))]
      else ShrinkLatest(front, tool, key, n) + [last]
  }

  function ShrinkResults(rs: seq<ToolResult>): seq<ToolResult> {
    var cut := ShrinkLatest(rs, GetAdvertisingAnalytics, "campaigns", 10);
    ShrinkSlice(ShrinkLatest(cut, RunAbcAnalysis, "rows", 20), 10)
  }

  function ShrinkFacts(f: Facts): Facts {
    f.(recommendations := ShrinkSlice(f.recommendations, 5),
       alerts := ShrinkSlice(f.alerts, 10),
       skuMetrics := ShrinkSlice(f.skuMetrics, 10),
       criticalSkus := ShrinkSlice(f.criticalSkus, 10),
       stockRisks := ShrinkSlice(f.stockRisks, 10),
       priceEconomicsRisks := ShrinkSlice(f.priceEconomicsRisks, 10),
       campaignContexts := ShrinkSlice(f.campaignContexts, 5),
       skuContexts := ShrinkSlice(f.skuContexts, 5),
       advertising := ShrinkField(f.advertising, "campaigns", 10),
       abcAnalysis := ShrinkField(f.abcAnalysis, "rows", 20))
  }
}
