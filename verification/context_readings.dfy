/** What the fact context takes from tool output and how it measures itself, in the keys and sizes the tools and the
    limits use. */
module ContextReadings {
  import opened Wrappers
  import opened Text
  import opened ContextValue
  import opened ContextPaths
  import opened References
  import opened FactContexts
  import opened ContextAssemblers
  import opened ContextGuarantees

  // ---------------------------------------------------------------- details

  function NumberOrNull(n: Option<int>): Value {
    if n.Some? then Int(n.value) else Null
  }

  function TextOrNull(s: Option<string>): Value {
    if s.Some? then ContextValue.Value.Text(s.value) else Null
  }

  function AlertMap(id: int, d: AlertDetail): Fields {
    Fields(map["id" := Int(id), "alert_type" := Value.Text(d.alertType), "alert_group" := Value.Text(d.group),
               "severity" := Value.Text(d.severity), "urgency" := Value.Text(d.urgency),
               "entity_type" := Value.Text(d.entityType), "entity_sku" := NumberOrNull(d.entitySku),
               "entity_offer_id" := TextOrNull(d.entityOfferId), "title" := Value.Text(d.title)])
  }

  function RecommendationMap(id: int, d: RecommendationDetail): Fields {
    Fields(map["id" := Int(id), "recommendation_type" := Value.Text(d.recommendationType),
               "priority_level" := Value.Text(d.priorityLevel), "urgency" := Value.Text(d.urgency),
               "confidence_level" := Value.Text(d.confidenceLevel), "entity_type" := Value.Text(d.entityType),
               "entity_sku" := NumberOrNull(d.entitySku), "entity_offer_id" := TextOrNull(d.entityOfferId),
               "title" := Value.Text(d.title), "recommended_action" := Value.Text(d.recommendedAction)])
  }

  predicate Tidy(s: Option<string>) {
    s.Some? ==> s.value != "" && Trimmed(s.value)
  }

  lemma TidyReadsBack(s: string, o: Option<string>)
    requires Trimmed(s) && Tidy(o)
    ensures ReadString(Value.Text(s)) == s
    ensures NonEmpty(ReadString(TextOrNull(o))) == o
  {
    TrimOfTrimmed(s);
    if o.Some? {
      TrimOfTrimmed(o.value);
    }
  }

  /** An alert written under the keys the tools use is read back. */
  lemma AlertReadsBack(id: int, d: AlertDetail)
    requires Trimmed(d.alertType) && Trimmed(d.group) && Trimmed(d.severity) && Trimmed(d.urgency)
    requires Trimmed(d.entityType) && Trimmed(d.title) && Tidy(d.entityOfferId)
    ensures IdOf(AlertMap(id, d)) == Some(id) && AlertDetailOf(AlertMap(id, d)) == d
  {
    TidyReadsBack(d.alertType, d.entityOfferId);
    TidyReadsBack(d.group, d.entityOfferId);
    TidyReadsBack(d.severity, d.entityOfferId);
    TidyReadsBack(d.urgency, d.entityOfferId);
    TidyReadsBack(d.entityType, d.entityOfferId);
    TidyReadsBack(d.title, d.entityOfferId);
    hide ReadString, NonEmpty, Trimmed, TextOrNull, NumberOrNull;
    NumberReadsBack(d.entitySku);
  }

  lemma NumberReadsBack(n: Option<int>)
    ensures ReadInt64(NumberOrNull(n)) == n
  {
  }

  /** Only the group may come under another key, which is read where the first says nothing. */
  lemma GroupFallsBack(f: Fields)
    requires "alert_group" !in f.m && "group" in f.m
    ensures AlertDetailOf(f).group == ReadString(f.m["group"])
  {
    hide ReadInt64, NonEmpty;
  }

  lemma RecommendationFields(id: int, d: RecommendationDetail)
    ensures var f := RecommendationMap(id, d);
      && Field(f, "id") == Int(id) && Field(f, "recommendation_type") == Value.Text(d.recommendationType)
      && Field(f, "priority_level") == Value.Text(d.priorityLevel) && Field(f, "urgency") == Value.Text(d.urgency)
      && Field(f, "confidence_level") == Value.Text(d.confidenceLevel)
      && Field(f, "entity_type") == Value.Text(d.entityType) && Field(f, "entity_sku") == NumberOrNull(d.entitySku)
      && Field(f, "entity_offer_id") == TextOrNull(d.entityOfferId) && Field(f, "title") == Value.Text(d.title)
      && Field(f, "recommended_action") == Value.Text(d.recommendedAction)
  {
  }

  lemma RecommendationReadsBack(id: int, d: RecommendationDetail)
    requires Trimmed(d.recommendationType) && Trimmed(d.priorityLevel) && Trimmed(d.urgency) && Trimmed(d.title)
    requires Trimmed(d.confidenceLevel) && Trimmed(d.entityType) && Trimmed(d.recommendedAction)
    requires Tidy(d.entityOfferId)
    ensures IdOf(RecommendationMap(id, d)) == Some(id) && RecommendationDetailOf(RecommendationMap(id, d)) == d
  {
    TidyReadsBack(d.recommendationType, d.entityOfferId);
    TidyReadsBack(d.priorityLevel, d.entityOfferId);
    TidyReadsBack(d.urgency, d.entityOfferId);
    TidyReadsBack(d.confidenceLevel, d.entityOfferId);
    TidyReadsBack(d.entityType, d.entityOfferId);
    TidyReadsBack(d.title, d.entityOfferId);
    TidyReadsBack(d.recommendedAction, d.entityOfferId);
    RecommendationFields(id, d);
    hide ReadString, NonEmpty, Trimmed, TextOrNull, NumberOrNull, Field, RecommendationMap;
    NumberReadsBack(d.entitySku);
  }

  /** Surrounding blanks do not matter, and what is not a text reads as none. */
  lemma StringsRead(v: Value)
    ensures v.Text? ==> ReadString(v) == TrimSpace(v.s)
    ensures !v.Text? ==> ReadString(v) == "" && NonEmpty(ReadString(v)) == None
  {
  }

  /** Freshness is what a result says of its dates and periods, and nothing else. */
  lemma FreshnessIff(f: Fields, k: string)
    ensures k in PickFreshness(f).m <==>
      && k in f.m
      && (|| k == "as_of_date" || k == "as_of_date_source" || k == "data_freshness" || k == "last_successful_update"
          || k == "generated_at" || k == "date_from" || k == "date_to" || k == "period")
    ensures k in PickFreshness(f).m ==> PickFreshness(f).m[k] == f.m[k]
  {
    var keys := FRESHNESS_KEYS;
    assert keys[0] == "as_of_date" && keys[1] == "as_of_date_source" && keys[2] == "data_freshness";
    assert keys[3] == "last_successful_update" && keys[4] == "generated_at" && keys[5] == "date_from";
    assert keys[6] == "date_to" && keys[7] == "period" && |keys| == 8;
  }

  /** An id is a whole number, and one that comes as a double without a fraction. */
  lemma IdsRead(f: Fields, n: int)
    ensures IdOf(f) == Some(n) <==> "id" in f.m && (f.m["id"] == Int(n) || f.m["id"] == Float(n as real))
  {
  }

  lemma {:induction false} ObjectsRead(items: seq<Value>, m: Fields)
    ensures m in Objects(items) <==> Object(m) in items
  {
    if items == [] {
    } else {
      ObjectsRead(items[1..], m);
      assert items == [items[0]] + items[1..];
    }
  }

  /** The result lists the map under the key, as a row or among the entries. */
  ghost predicate Lists(f: Fields, key: string, m: Fields) {
    key in f.m && match f.m[key]
                  case Rows(rows) => m in rows
                  case List(list) => Object(m) in list
                  case _ => false
  }

  lemma ListsRead(f: Fields, key: string, m: Fields)
    ensures m in AnyMaps(Field(f, key)) <==> Lists(f, key, m)
  {
    if key in f.m && f.m[key].List? {
      ObjectsRead(f.m[key].items, m);
    }
  }

  /** Where each tool names alerts and recommendations. */
  lemma SourcesRead(r: ToolResult, m: Fields)
    ensures var f := MapOf(r.data);
      && (m in AlertSources(r) <==>
            match r.tool
            case GetOpenAlerts | GetAlertsByGroup | GetPriceEconomicsRisks => Lists(f, "items", m)
            case GetRecommendationDetail => Lists(f, "related_alerts", m)
            case GetSkuContext | GetCampaignContext => Lists(f, "alerts", m)
            case _ => false)
      && (m in RecommendationSources(r) <==>
            match r.tool
            case GetOpenRecommendations => Lists(f, "items", m)
            case GetRecommendationDetail => "recommendation" in f.m && f.m["recommendation"] == Object(m)
            case GetSkuContext | GetCampaignContext => Lists(f, "recommendations", m)
            case _ => false)
  {
    var f := MapOf(r.data);
    ListsRead(f, "items", m);
    ListsRead(f, "related_alerts", m);
    ListsRead(f, "alerts", m);
    ListsRead(f, "recommendations", m);
    hide AnyMaps, Lists, MapOf;
  }

  /** The note about an unknown tool names it. */
  lemma UnknownToolsNamed(name: string, other: string)
    ensures UnknownToolNote(name)[|"Tool result from unknown tool was not included: "|..] == name
    ensures "Tool result from unknown tool was not included: " <= UnknownToolNote(name)
    ensures UnknownToolNote(name) == UnknownToolNote(other) ==> name == other
  {
    assert UnknownToolNote(other)[|"Tool result from unknown tool was not included: "|..] == other;
  }

  // ---------------------------------------------------------------- items and sizes

  predicate ListsItems(tool: Tool) {
    || tool.GetOpenRecommendations? || tool.GetOpenAlerts? || tool.GetAlertsByGroup? || tool.GetPriceEconomicsRisks?
    || tool.GetCriticalSkus? || tool.GetStockRisks? || tool.GetSkuMetrics?
  }

  predicate KeepsLatest(tool: Tool) {
    tool.GetDashboardSummary? || tool.GetAdvertisingAnalytics? || tool.RunAbcAnalysis?
  }

  /** The count of items starts at nothing and grows with each result: by its items, or by one for a result kept
      whole. */
  lemma ItemsCounted(f: Facts, r: ToolResult)
    ensures CountFactItems(NO_FACTS) == 0
    ensures ListsItems(r.tool) ==> CountFactItems(FactsWith(f, r)) == CountFactItems(f) + |Items(MapOf(r.data))|
    ensures !ListsItems(r.tool) && !KeepsLatest(r.tool) ==> CountFactItems(FactsWith(f, r)) == CountFactItems(f) + 1
  {
    hide Items, MapOf;
  }

  /** The first filled result of those of which the latest is kept counts for one. */
  lemma LatestCounted(f: Facts, r: ToolResult)
    ensures KeepsLatest(r.tool) && MapOf(r.data).m != map[] ==>
      CountFactItems(f) <= CountFactItems(FactsWith(f, r)) <= CountFactItems(f) + 1
    ensures r.tool.GetDashboardSummary? && f.dashboard.m == map[] != MapOf(r.data).m ==>
      CountFactItems(FactsWith(f, r)) == CountFactItems(f) + 1
    ensures r.tool.GetAdvertisingAnalytics? && f.advertising.m == map[] != MapOf(r.data).m ==>
      CountFactItems(FactsWith(f, r)) == CountFactItems(f) + 1
    ensures r.tool.RunAbcAnalysis? && f.abcAnalysis.m == map[] != MapOf(r.data).m ==>
      CountFactItems(FactsWith(f, r)) == CountFactItems(f) + 1
  {
    hide Items, MapOf;
  }

  /** The first entries of a list, no more than `n`. */
  ghost predicate FirstOf<T>(cut: seq<T>, whole: seq<T>, n: nat) {
    cut <= whole && |cut| == if |whole| < n then |whole| else n
  }

  lemma AssembledParts(a: AssemblerLimits, intent: string, assumptions: seq<string>, results: seq<ToolResult>,
                       estimate: ContextView -> nat)
    ensures var v, g := Assembled(a, intent, assumptions, results, estimate), Gathered(a, intent, assumptions, results);
      && v.facts == (if v.stats.truncated then ShrinkFacts(g.facts) else g.facts)
      && v.toolResults == (if v.stats.truncated then ShrinkResults(g.toolResults) else g.toolResults)
      && |g.toolResults| == |results|
  {
    var rs, start := CleanResults(a, results), EmptyContext(intent, assumptions, |results|);
    GatheredStats(start, rs);
    AbsorbAllKeeps(start, rs);
    hide AbsorbAll, Dedupe, NoData, CountFactItems, ShrinkFacts, ShrinkResults;
  }

  lemma ResultsCut(rs: seq<ToolResult>)
    ensures |ShrinkResults(rs)| == if |rs| < 10 then |rs| else 10
  {
    var cut := ShrinkLatest(rs, GetAdvertisingAnalytics, "campaigns", 10);
    ShrinkLatestLength(rs, GetAdvertisingAnalytics, "campaigns", 10);
    ShrinkLatestLength(cut, RunAbcAnalysis, "rows", 20);
    hide ShrinkLatest;
  }

  /** What a cut leaves of the sections: the first five recommendations and contexts of either kind, the first ten
      of every other list. */
  ghost predicate CutFrom(cut: Facts, f: Facts) {
    && FirstOf(cut.recommendations, f.recommendations, 5)
    && FirstOf(cut.skuContexts, f.skuContexts, 5) && FirstOf(cut.campaignContexts, f.campaignContexts, 5)
    && FirstOf(cut.alerts, f.alerts, 10) && FirstOf(cut.priceEconomicsRisks, f.priceEconomicsRisks, 10)
    && FirstOf(cut.criticalSkus, f.criticalSkus, 10) && FirstOf(cut.stockRisks, f.stockRisks, 10)
    && FirstOf(cut.skuMetrics, f.skuMetrics, 10)
    && cut.dashboard == f.dashboard && cut.other == f.other && cut.recommendationDetails == f.recommendationDetails
  }

  lemma FactsCut(f: Facts)
    ensures CutFrom(ShrinkFacts(f), f)
  {
    hide ShrinkField;
  }

  /** A truncated context keeps the first entries of each section and ten tool results; any other keeps them all. */
  lemma SectionsKept(a: AssemblerLimits, intent: string, assumptions: seq<string>, results: seq<ToolResult>,
                     estimate: ContextView -> nat)
    ensures var v, g := Assembled(a, intent, assumptions, results, estimate), Gathered(a, intent, assumptions, results);
      && (!v.stats.truncated ==> v.facts == g.facts && v.toolResults == g.toolResults)
      && (v.stats.truncated ==> CutFrom(v.facts, g.facts))
      && (v.stats.truncated ==> |v.toolResults| == if |results| < 10 then |results| else 10)
  {
    AssembledParts(a, intent, assumptions, results, estimate);
    var g := Gathered(a, intent, assumptions, results);
    FactsCut(g.facts);
    ResultsCut(g.toolResults);
    hide Assembled, Gathered, CutFrom, ShrinkFacts, ShrinkResults;
  }

  /** The limits in force: those given where positive, otherwise fifty kilobytes, texts of fifteen hundred and
      twenty items. A context is truncated exactly when its estimate, before any cut, is above the limit. */
  lemma TruncatedIff(a: AssemblerLimits, intent: string, assumptions: seq<string>, results: seq<ToolResult>,
                     estimate: ContextView -> nat)
    ensures a.maxTextLength > 0 ==> SanitizeLimitsOf(a).text == a.maxTextLength
    ensures a.maxTextLength <= 0 ==> SanitizeLimitsOf(a).text == 1500
    ensures a.maxItemsPerSection > 0 ==> SanitizeLimitsOf(a).items == a.maxItemsPerSection
    ensures a.maxItemsPerSection <= 0 ==> SanitizeLimitsOf(a).items == 20
    ensures var noted := Measured(WithNoDataNote(Gathered(a, intent, assumptions, results)), estimate);
      Assembled(a, intent, assumptions, results, estimate).stats.truncated
      <==> noted.stats.estimatedBytes > if a.maxContextBytes > 0 then a.maxContextBytes else 51200
    ensures var stats := Assembled(a, intent, assumptions, results, estimate).stats;
      stats.toolResults == |results|
      && stats.truncationReason == if stats.truncated then "max_context_bytes_exceeded" else ""
  {
    GatheredStats(EmptyContext(intent, assumptions, |results|), CleanResults(a, results));
    hide AbsorbAll, Dedupe, NoData, CountFactItems;
  }

  // ---------------------------------------------------------------- nothing secret is shown

  /** What a cut list still holds was there before. */
  lemma CutShowsNoMore(v: Value, key: string, n: nat, path: seq<Step>)
    requires !v.Foreign?
    ensures At(ShrinkData(v, key, n), path).Some? ==> At(v, path).Some?
  {
    if v.Object? && path != [] && path[0] == Key(key) && key in v.fields.m {
      var list, rest := v.fields.m[key], path[1..];
      if list.List? && |list.items| > n {
        CutListShowsNoMore(list, n, rest);
      }
    }
  }

  lemma CutListShowsNoMore(v: Value, n: nat, path: seq<Step>)
    requires v.List? && n <= |v.items|
    ensures At(List(v.items[..n]), path).Some? ==> At(v, path).Some?
  {
    if path != [] && path[0].Place? && path[0].index < n {
      assert v.items[..n][path[0].index] == v.items[path[0].index];
    }
  }

  ghost predicate CutOf(data: Value, clean: Value) {
    data == clean || data == ShrinkData(clean, "campaigns", 10) || data == ShrinkData(clean, "rows", 20)
  }

  lemma KeptData(a: AssemblerLimits, intent: string, assumptions: seq<string>, results: seq<ToolResult>,
                 estimate: ContextView -> nat, k: nat)
    requires k < |Assembled(a, intent, assumptions, results, estimate).toolResults|
    ensures k < |results|
    ensures CutOf(Assembled(a, intent, assumptions, results, estimate).toolResults[k].data,
                  Sanitize(results[k].data, SanitizeLimitsOf(a)))
  {
    hide Assembled, ShrinkData, Sanitize, IsLatest, MapOf, Dedupe;
    AssembledSectionsAreResults(a, intent, assumptions, results, estimate, k);
    assert CleanResults(a, results)[k] == SanitizedResult(results[k], SanitizeLimitsOf(a));
  }

  lemma CutIsHarmless(v: Value, lim: Limits, data: Value, path: seq<Step>, i: nat)
    requires CutOf(data, Sanitize(v, lim)) && At(data, path).Some? && i < |path| && path[i].Key?
    ensures Harmless(path[i].key)
  {
    hide ShrinkData, Sanitize, At, Harmless;
    SanitizedIsNotForeign(v, lim);
    CutShowsNoMore(Sanitize(v, lim), "campaigns", 10, path);
    CutShowsNoMore(Sanitize(v, lim), "rows", 20, path);
    OnlyHarmlessKeysRemain(v, lim, path, i);
  }

  /** Whatever can be reached in a tool result of an assembled context, truncated or not, is reached by keys that
      contain none of the words that mark a secret. */
  lemma NoSecretIsShown(a: AssemblerLimits, intent: string, assumptions: seq<string>, results: seq<ToolResult>,
                        estimate: ContextView -> nat, k: nat, path: seq<Step>, i: nat)
    requires k < |Assembled(a, intent, assumptions, results, estimate).toolResults|
    requires At(Assembled(a, intent, assumptions, results, estimate).toolResults[k].data, path).Some?
    requires i < |path| && path[i].Key?
    ensures Harmless(path[i].key)
  {
    hide Assembled, CutOf, Sanitize, At, Harmless;
    KeptData(a, intent, assumptions, results, estimate, k);
    CutIsHarmless(results[k].data, SanitizeLimitsOf(a),
                  Assembled(a, intent, assumptions, results, estimate).toolResults[k].data, path, i);
  }
}
