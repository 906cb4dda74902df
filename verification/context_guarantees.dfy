/** What holds of every assembled context: which references it carries, which limitations it admits,
    and how its sections relate to both. */
module ContextGuarantees {
  import opened Wrappers
  import opened Text
  import opened ContextValue
  import opened Sorting
  import opened References
  import opened FactContexts
  import opened ContextAssemblers

  function AllAlertSources(rs: seq<ToolResult>): seq<Fields> {
    if rs == [] then [] else AllAlertSources(rs[..|rs| - 1]) + AlertSources(rs[|rs| - 1])
  }

  function AllRecommendationSources(rs: seq<ToolResult>): seq<Fields> {
    if rs == [] then [] else AllRecommendationSources(rs[..|rs| - 1]) + RecommendationSources(rs[|rs| - 1])
  }

  lemma {:induction false} AbsorbAllReferences(c: ContextView, rs: seq<ToolResult>)
    ensures AbsorbAll(c, rs).relatedAlerts == WithReferences(c.relatedAlerts, AllAlertSources(rs), AlertDetailOf)
    ensures AbsorbAll(c, rs).relatedRecommendations
         == WithReferences(c.relatedRecommendations, AllRecommendationSources(rs), RecommendationDetailOf)
  {
    if rs == [] {
    } else {
      var front, last := rs[..|rs| - 1], rs[|rs| - 1];
      AbsorbAllReferences(c, front);
      WithReferencesConcat(c.relatedAlerts, AllAlertSources(front), AlertSources(last), AlertDetailOf);
      WithReferencesConcat(c.relatedRecommendations, AllRecommendationSources(front), RecommendationSources(last),
                           RecommendationDetailOf);
    }
  }

  /** The sanitized results an assembly works on. */
  function CleanResults(a: AssemblerLimits, results: seq<ToolResult>): seq<ToolResult> {
    SanitizedResults(results, SanitizeLimitsOf(a))
  }

  /** The related alerts and recommendations of an assembled context are strictly increasing by id and
      hold exactly the ids readable from the alert- and recommendation-bearing results. */
  lemma AssembledReferencesExact(a: AssemblerLimits, intent: string, assumptions: seq<string>, results: seq<ToolResult>,
                                 estimate: ContextView -> nat)
    ensures var v := Assembled(a, intent, assumptions, results, estimate);
      && StrictlyIncreasing(v.relatedAlerts)
      && StrictlyIncreasing(v.relatedRecommendations)
      && Ids(v.relatedAlerts) == ReadableIds(AllAlertSources(CleanResults(a, results)))
      && Ids(v.relatedRecommendations) == ReadableIds(AllRecommendationSources(CleanResults(a, results)))
  {
    var rs, start := CleanResults(a, results), EmptyContext(intent, assumptions, |results|);
    AbsorbAllReferences(start, rs);
    WithReferencesIds([], AllAlertSources(rs), AlertDetailOf);
    WithReferencesIds([], AllRecommendationSources(rs), RecommendationDetailOf);
    var g := Gathered(a, intent, assumptions, results);
    SortByIdIncreases(g.relatedAlerts);
    SortByIdIncreases(g.relatedRecommendations);
  }

  /** The details of a related alert are those of the first result that mentions its id. */
  lemma AssembledAlertDetail(a: AssemblerLimits, intent: string, assumptions: seq<string>, results: seq<ToolResult>,
                             estimate: ContextView -> nat, k: nat)
    requires var srcs := AllAlertSources(CleanResults(a, results));
      k < |srcs| && IdOf(srcs[k]).Some? && IdOf(srcs[k]).value !in ReadableIds(srcs[..k])
    ensures var src := AllAlertSources(CleanResults(a, results))[k];
      Reference(IdOf(src).value, AlertDetailOf(src))
      in Assembled(a, intent, assumptions, results, estimate).relatedAlerts
  {
    var rs, start := CleanResults(a, results), EmptyContext(intent, assumptions, |results|);
    AbsorbAllReferences(start, rs);
    FirstSightingWins(AllAlertSources(rs), AlertDetailOf, k);
    var g := Gathered(a, intent, assumptions, results);
    SortPermutes(g.relatedAlerts, ById<AlertDetail>());
    var src := AllAlertSources(rs)[k];
    assert Reference(IdOf(src).value, AlertDetailOf(src)) in multiset(g.relatedAlerts);
  }

  /** And so are those of a related recommendation. */
  lemma AssembledRecommendationDetail(a: AssemblerLimits, intent: string, assumptions: seq<string>,
                                      results: seq<ToolResult>, estimate: ContextView -> nat, k: nat)
    requires var srcs := AllRecommendationSources(CleanResults(a, results));
      k < |srcs| && IdOf(srcs[k]).Some? && IdOf(srcs[k]).value !in ReadableIds(srcs[..k])
    ensures var src := AllRecommendationSources(CleanResults(a, results))[k];
      Reference(IdOf(src).value, RecommendationDetailOf(src))
      in Assembled(a, intent, assumptions, results, estimate).relatedRecommendations
  {
    var rs, start := CleanResults(a, results), EmptyContext(intent, assumptions, |results|);
    AbsorbAllReferences(start, rs);
    FirstSightingWins(AllRecommendationSources(rs), RecommendationDetailOf, k);
    var g := Gathered(a, intent, assumptions, results);
    SortPermutes(g.relatedRecommendations, ById<RecommendationDetail>());
    var src := AllRecommendationSources(rs)[k];
    assert Reference(IdOf(src).value, RecommendationDetailOf(src)) in multiset(g.relatedRecommendations);
  }

  /** A map presented as an alert somewhere in the fact sections. */
  ghost predicate AlertShown(f: Facts, m: Fields) {
    || m in f.alerts
    || m in f.priceEconomicsRisks
    || (exists d :: d in f.recommendationDetails && m in AnyMaps(Field(d, "related_alerts")))
    || (exists d :: d in f.skuContexts && m in AnyMaps(Field(d, "alerts")))
    || (exists d :: d in f.campaignContexts && m in AnyMaps(Field(d, "alerts")))
  }

  lemma AlertShownStep(f: Facts, r: ToolResult, m: Fields)
    ensures AlertShown(FactsWith(f, r), m) <==> AlertShown(f, m) || m in AlertSources(r)
  {
    var g, d := FactsWith(f, r), MapOf(r.data);
    assert forall e ::
      e in g.recommendationDetails <==> e in f.recommendationDetails || (r.tool.GetRecommendationDetail? && e == d);
    assert forall e :: e in g.skuContexts <==> e in f.skuContexts || (r.tool.GetSkuContext? && e == d);
    assert forall e :: e in g.campaignContexts <==> e in f.campaignContexts || (r.tool.GetCampaignContext? && e == d);
  }

  lemma {:induction false} AlertsShownAreSources(c: ContextView, rs: seq<ToolResult>, m: Fields)
    requires c.facts == NO_FACTS
    ensures AlertShown(AbsorbAll(c, rs).facts, m) <==> m in AllAlertSources(rs)
  {
    if rs == [] {
    } else {
      AlertsShownAreSources(c, rs[..|rs| - 1], m);
      AlertShownStep(AbsorbAll(c, rs[..|rs| - 1]).facts, rs[|rs| - 1], m);
    }
  }

  lemma ShrinkSliceSubset<T>(items: seq<T>, n: nat)
    ensures forall x :: x in ShrinkSlice(items, n) ==> x in items
  {
  }

  lemma ShrinkShowsNoMore(f: Facts, m: Fields)
    requires AlertShown(ShrinkFacts(f), m)
    ensures AlertShown(f, m)
  {
    ShrinkSliceSubset(f.alerts, 10);
    ShrinkSliceSubset(f.priceEconomicsRisks, 10);
    ShrinkSliceSubset(f.skuContexts, 5);
    ShrinkSliceSubset(f.campaignContexts, 5);
  }

  /** Every alert shown in the sections of an assembled context, shrunk or not, is in its related
      alerts; a context that was not truncated shows them all. */
  lemma AssembledAlertsReferenced(a: AssemblerLimits, intent: string, assumptions: seq<string>,
                                  results: seq<ToolResult>,
                                  estimate: ContextView -> nat)
    ensures var v := Assembled(a, intent, assumptions, results, estimate);
      && (forall m :: AlertShown(v.facts, m) && IdOf(m).Some? ==> IdOf(m).value in Ids(v.relatedAlerts))
      && (!v.stats.truncated ==> forall id :: id in Ids(v.relatedAlerts) ==>
          exists m :: AlertShown(v.facts, m) && IdOf(m) == Some(id))
  {
    var rs, start := CleanResults(a, results), EmptyContext(intent, assumptions, |results|);
    var g, v := Gathered(a, intent, assumptions, results), Assembled(a, intent, assumptions, results, estimate);
    var srcs := AllAlertSources(rs);
    AssembledReferencesExact(a, intent, assumptions, results, estimate);
    GatheredStats(start, rs);
    forall m | AlertShown(v.facts, m) && IdOf(m).Some?
      ensures IdOf(m).value in Ids(v.relatedAlerts)
    {
      if v.facts == ShrinkFacts(g.facts) {
        ShrinkShowsNoMore(g.facts, m);
      }
      AlertsShownAreSources(start, rs, m);
      var k :| 0 <= k < |srcs| && srcs[k] == m;
    }
    if !v.stats.truncated {
      forall id | id in Ids(v.relatedAlerts)
        ensures exists m :: AlertShown(v.facts, m) && IdOf(m) == Some(id)
      {
        var k :| 0 <= k < |srcs| && IdOf(srcs[k]).Some? && IdOf(srcs[k]).value == id;
        AlertsShownAreSources(start, rs, srcs[k]);
        assert AlertShown(v.facts, srcs[k]);
      }
    }
  }

  /** A map presented as a recommendation somewhere in the fact sections. */
  ghost predicate RecommendationShown(f: Facts, m: Fields) {
    || m in f.recommendations
    || (exists d :: d in f.recommendationDetails && m in MainRecommendation(d))
    || (exists d :: d in f.skuContexts && m in AnyMaps(Field(d, "recommendations")))
    || (exists d :: d in f.campaignContexts && m in AnyMaps(Field(d, "recommendations")))
  }

  lemma RecommendationShownStep(f: Facts, r: ToolResult, m: Fields)
    ensures RecommendationShown(FactsWith(f, r), m) <==> RecommendationShown(f, m) || m in RecommendationSources(r)
  {
    var g, d := FactsWith(f, r), MapOf(r.data);
    assert forall e ::
      e in g.recommendationDetails <==> e in f.recommendationDetails || (r.tool.GetRecommendationDetail? && e == d);
    assert forall e :: e in g.skuContexts <==> e in f.skuContexts || (r.tool.GetSkuContext? && e == d);
    assert forall e :: e in g.campaignContexts <==> e in f.campaignContexts || (r.tool.GetCampaignContext? && e == d);
  }

  lemma {:induction false} RecommendationsShownAreSources(c: ContextView, rs: seq<ToolResult>, m: Fields)
    requires c.facts == NO_FACTS
    ensures RecommendationShown(AbsorbAll(c, rs).facts, m) <==> m in AllRecommendationSources(rs)
  {
    if rs == [] {
    } else {
      RecommendationsShownAreSources(c, rs[..|rs| - 1], m);
      RecommendationShownStep(AbsorbAll(c, rs[..|rs| - 1]).facts, rs[|rs| - 1], m);
    }
  }

  lemma ShrinkShowsNoMoreRecommendations(f: Facts, m: Fields)
    requires RecommendationShown(ShrinkFacts(f), m)
    ensures RecommendationShown(f, m)
  {
    ShrinkSliceSubset(f.recommendations, 5);
    ShrinkSliceSubset(f.skuContexts, 5);
    ShrinkSliceSubset(f.campaignContexts, 5);
  }

  /** The same of recommendations: those shown are referenced, and without truncation those referenced are shown. */
  lemma AssembledRecommendationsReferenced(a: AssemblerLimits, intent: string, assumptions: seq<string>,
                                           results: seq<ToolResult>, estimate: ContextView -> nat)
    ensures var v := Assembled(a, intent, assumptions, results, estimate);
      && (forall m :: RecommendationShown(v.facts, m) && IdOf(m).Some? ==>
            IdOf(m).value in Ids(v.relatedRecommendations))
      && (!v.stats.truncated ==> forall id :: id in Ids(v.relatedRecommendations) ==>
            exists m :: RecommendationShown(v.facts, m) && IdOf(m) == Some(id))
  {
    var rs, start := CleanResults(a, results), EmptyContext(intent, assumptions, |results|);
    var g, v := Gathered(a, intent, assumptions, results), Assembled(a, intent, assumptions, results, estimate);
    var srcs := AllRecommendationSources(rs);
    AssembledReferencesExact(a, intent, assumptions, results, estimate);
    GatheredStats(start, rs);
    forall m | RecommendationShown(v.facts, m) && IdOf(m).Some?
      ensures IdOf(m).value in Ids(v.relatedRecommendations)
    {
      if v.facts == ShrinkFacts(g.facts) {
        ShrinkShowsNoMoreRecommendations(g.facts, m);
      }
      RecommendationsShownAreSources(start, rs, m);
      var k :| 0 <= k < |srcs| && srcs[k] == m;
    }
    if !v.stats.truncated {
      forall id | id in Ids(v.relatedRecommendations)
        ensures exists m :: RecommendationShown(v.facts, m) && IdOf(m) == Some(id)
      {
        var k :| 0 <= k < |srcs| && IdOf(srcs[k]).Some? && IdOf(srcs[k]).value == id;
        RecommendationsShownAreSources(start, rs, srcs[k]);
        assert RecommendationShown(v.facts, srcs[k]);
      }
    }
  }

  function CountFailed(rs: seq<ToolResult>): nat {
    if rs == [] then 0 else CountFailed(rs[..|rs| - 1]) + if Failed(rs[|rs| - 1]) then 1 else 0
  }

  lemma {:induction false} GatheredStats(c: ContextView, rs: seq<ToolResult>)
    ensures AbsorbAll(c, rs).stats == c.stats.(failedTools := c.stats.failedTools + CountFailed(rs))
  {
    if rs == [] {
    } else {
      GatheredStats(c, rs[..|rs| - 1]);
    }
  }

  /** A failing result leaves a note in the limitations, whatever else is absorbed. */
  lemma {:induction false} FailureIsNoted(c: ContextView, rs: seq<ToolResult>) returns (k: nat)
    requires CountFailed(rs) > 0
    ensures k < |rs| && Failed(rs[k])
    ensures FailureNote(ToolName(rs[k].tool), rs[k].error.value) in AbsorbAll(c, rs).limitations
  {
    k := |rs| - 1;
    if !Failed(rs[k]) {
      k := FailureIsNoted(c, rs[..|rs| - 1]);
    }
  }

  lemma FailureNoteReads(name: string, error: string)
    requires TrimSpace(error) != ""
    ensures Trimmed(FailureNote(name, error)) && FailureNote(name, error) != ""
    ensures Contains(ToLower(FailureNote(name, error)), "failed")
  {
    var note, rest := FailureNote(name, error), TrimSpace(error);
    TrimSpaceTrimmed(error);
    assert note[|note| - 1] == rest[|rest| - 1];
    assert note == ("Tool " + name + " ") + "failed" + (": " + rest);
    ToLowerConcat("Tool " + name + " " + "failed", ": " + rest);
    ToLowerConcat("Tool " + name + " ", "failed");
    assert ToLower("failed") == "failed";
    ContainsItself("failed");
    ContainsWithin(ToLower("Tool " + name + " "), "failed", ToLower(": " + rest), "failed");
    assert "Tool " + name + " " + "failed" + (": " + rest) == note;
  }

  lemma DedupeKeeps(items: seq<string>, item: string)
    requires item in items && item != "" && Trimmed(item)
    ensures item in Dedupe(items)
  {
    var k :| 0 <= k < |items| && items[k] == item;
    DedupeHas(items, k);
  }

  /** An assembled context counts its failed tools, and if there are any, some limitation says "failed". */
  lemma AssembledAdmitsFailures(a: AssemblerLimits, intent: string, assumptions: seq<string>, results: seq<ToolResult>,
                                estimate: ContextView -> nat)
    ensures var v := Assembled(a, intent, assumptions, results, estimate);
      && v.stats.failedTools == CountFailed(CleanResults(a, results))
      && (v.stats.failedTools > 0 ==> exists l :: l in v.limitations && Contains(ToLower(l), "failed"))
  {
    var rs, start := CleanResults(a, results), EmptyContext(intent, assumptions, |results|);
    GatheredStats(start, rs);
    if CountFailed(rs) > 0 {
      var k := FailureIsNoted(start, rs);
      var note := FailureNote(ToolName(rs[k].tool), rs[k].error.value);
      FailureNoteReads(ToolName(rs[k].tool), rs[k].error.value);
      DedupeKeeps(Gathered(a, intent, assumptions, results).limitations, note);
      NoteSurvives(a, intent, assumptions, results, estimate, note);
    }
  }

  /** A truncated context says so in its limitations. */
  lemma AssembledAdmitsTruncation(a: AssemblerLimits, intent: string, assumptions: seq<string>,
                                  results: seq<ToolResult>,
                                  estimate: ContextView -> nat)
    ensures var v := Assembled(a, intent, assumptions, results, estimate);
      v.stats.truncated ==> TRUNCATED_NOTE in v.limitations
  {
    GatheredStats(EmptyContext(intent, assumptions, |results|), CleanResults(a, results));
    DedupeKeeps(WithNoDataNote(Gathered(a, intent, assumptions, results)).limitations + [TRUNCATED_NOTE],
                TRUNCATED_NOTE);
  }

  lemma ShrinkKeepsNoData(f: Facts)
    ensures NoData(ShrinkFacts(f)) <==> NoData(f)
  {
  }

  /** Shrinking to fit never turns data into no data: a context lacks facts exactly when the tools gave none. */
  lemma AssembledNoData(a: AssemblerLimits, intent: string, assumptions: seq<string>, results: seq<ToolResult>,
                        estimate: ContextView -> nat)
    ensures NoData(Assembled(a, intent, assumptions, results, estimate).facts)
       <==> NoData(Gathered(a, intent, assumptions, results).facts)
  {
    ShrinkKeepsNoData(Gathered(a, intent, assumptions, results).facts);
  }

  /** A context without facts says so in its limitations. */
  lemma AssembledAdmitsNoData(a: AssemblerLimits, intent: string, assumptions: seq<string>, results: seq<ToolResult>,
                              estimate: ContextView -> nat)
    ensures var v := Assembled(a, intent, assumptions, results, estimate);
      NoData(v.facts) ==> NO_DATA_NOTE in v.limitations
  {
    AssembledNoData(a, intent, assumptions, results, estimate);
    if NoData(Gathered(a, intent, assumptions, results).facts) {
      NoDataIsNoted(Gathered(a, intent, assumptions, results));
      LimitationSurvives(a, intent, assumptions, results, estimate, NO_DATA_NOTE);
    }
  }

  lemma NoDataIsNoted(g: ContextView)
    requires NoData(g.facts)
    ensures NO_DATA_NOTE in WithNoDataNote(g).limitations
    ensures NO_DATA_NOTE != "" && Trimmed(NO_DATA_NOTE)
  {
    assert NO_DATA_NOTE[|NO_DATA_NOTE| - 1] == '.';
    DedupeKeeps(Dedupe(g.limitations) + [NO_DATA_NOTE], NO_DATA_NOTE);
  }

  lemma LimitationSurvives(a: AssemblerLimits, intent: string, assumptions: seq<string>, results: seq<ToolResult>,
                           estimate: ContextView -> nat, note: string)
    requires note in WithNoDataNote(Gathered(a, intent, assumptions, results)).limitations && note != ""
    requires Trimmed(note)
    ensures note in Assembled(a, intent, assumptions, results, estimate).limitations
  {
    DedupeKeeps(WithNoDataNote(Gathered(a, intent, assumptions, results)).limitations + [TRUNCATED_NOTE], note);
  }

  lemma NoteSurvives(a: AssemblerLimits, intent: string, assumptions: seq<string>, results: seq<ToolResult>,
                     estimate: ContextView -> nat, note: string)
    requires note in Dedupe(Gathered(a, intent, assumptions, results).limitations) && note != "" && Trimmed(note)
    ensures note in Assembled(a, intent, assumptions, results, estimate).limitations
  {
    var g := Gathered(a, intent, assumptions, results);
    DedupeKeeps(if NoData(g.facts) then Dedupe(g.limitations) + [NO_DATA_NOTE] else Dedupe(g.limitations), note);
    LimitationSurvives(a, intent, assumptions, results, estimate, note);
  }

  /** Sections that carry references, at least one of them filled. */
  predicate ReferencesHaveFacts(f: Facts) {
    || f.recommendations != [] || f.recommendationDetails != [] || f.alerts != []
    || f.priceEconomicsRisks != [] || f.skuContexts != [] || f.campaignContexts != []
  }

  lemma {:induction false} ReferencesComeWithFacts(c: ContextView, rs: seq<ToolResult>)
    requires c.relatedAlerts == [] && c.relatedRecommendations == []
    ensures var d := AbsorbAll(c, rs);
      d.relatedAlerts != [] || d.relatedRecommendations != [] ==> ReferencesHaveFacts(d.facts)
  {
    if rs == [] {
    } else {
      var front, last := AbsorbAll(c, rs[..|rs| - 1]), rs[|rs| - 1];
      ReferencesComeWithFacts(c, rs[..|rs| - 1]);
      if AlertSources(last) == [] && RecommendationSources(last) == [] {
        assert AbsorbAll(c, rs).relatedAlerts == front.relatedAlerts;
      }
    }
  }

  /** In an assembled context a reference never stands alone: where there are no facts, there are no
      related alerts and no related recommendations. */
  lemma AssembledReferencesNeedFacts(a: AssemblerLimits, intent: string, assumptions: seq<string>,
                                     results: seq<ToolResult>,
                                     estimate: ContextView -> nat)
    ensures var v := Assembled(a, intent, assumptions, results, estimate);
      NoData(v.facts) ==> v.relatedAlerts == [] && v.relatedRecommendations == []
  {
    var rs, start := CleanResults(a, results), EmptyContext(intent, assumptions, |results|);
    ReferencesComeWithFacts(start, rs);
    AssembledNoData(a, intent, assumptions, results, estimate);
  }

  // ---------------------------------------------------------------- sections that share a map with a result

  ghost predicate IsLatest(rs: seq<ToolResult>, tool: Tool, k: nat) {
    k < |rs| && rs[k].tool == tool && forall j | k < j < |rs| :: rs[j].tool != tool
  }

  lemma LatestStep(rs: seq<ToolResult>, tool: Tool, k: nat)
    requires k < |rs|
    ensures IsLatest(rs, tool, k) <==>
      if k == |rs| - 1 then rs[k].tool == tool
      else rs[|rs| - 1].tool != tool && IsLatest(rs[..|rs| - 1], tool, k)
  {
    var front := rs[..|rs| - 1];
    assert forall j | 0 <= j < |front| :: rs[j] == front[j];
  }

  lemma AbsorbSections(c: ContextView, r: ToolResult)
    ensures Absorb(c, r).toolResults == c.toolResults + [r]
    ensures Absorb(c, r).facts.advertising
         == if r.tool == GetAdvertisingAnalytics then MapOf(r.data) else c.facts.advertising
    ensures Absorb(c, r).facts.abcAnalysis == if r.tool == RunAbcAnalysis then MapOf(r.data) else c.facts.abcAnalysis
  {
    hide WithReferences, WithNotes, FreshnessWith;
  }

  lemma {:induction false} AbsorbAllKeeps(c: ContextView, rs: seq<ToolResult>)
    ensures AbsorbAll(c, rs).toolResults == c.toolResults + rs
  {
    hide Absorb;
    if rs == [] {
    } else {
      AbsorbAllKeeps(c, rs[..|rs| - 1]);
      AbsorbSections(AbsorbAll(c, rs[..|rs| - 1]), rs[|rs| - 1]);
      assert rs == rs[..|rs| - 1] + [rs[|rs| - 1]];
    }
  }

  lemma {:induction false} AbsorbAllLatest(c: ContextView, rs: seq<ToolResult>, k: nat)
    requires k < |rs|
    ensures IsLatest(rs, GetAdvertisingAnalytics, k) ==> AbsorbAll(c, rs).facts.advertising == MapOf(rs[k].data)
    ensures IsLatest(rs, RunAbcAnalysis, k) ==> AbsorbAll(c, rs).facts.abcAnalysis == MapOf(rs[k].data)
  {
    hide Absorb, IsLatest, MapOf;
    LatestStep(rs, GetAdvertisingAnalytics, k);
    LatestStep(rs, RunAbcAnalysis, k);
    AbsorbSections(AbsorbAll(c, rs[..|rs| - 1]), rs[|rs| - 1]);
    if k < |rs| - 1 {
      AbsorbAllLatest(c, rs[..|rs| - 1], k);
    }
  }

  lemma {:induction false} ShrinkLatestLength(rs: seq<ToolResult>, tool: Tool, key: string, n: nat)
    ensures |ShrinkLatest(rs, tool, key, n)| == |rs|
  {
    hide ShrinkData;
    if rs == [] {
    } else {
      ShrinkLatestLength(rs[..|rs| - 1], tool, key, n);
    }
  }

  lemma {:induction false} ShrinkLatestAt(rs: seq<ToolResult>, tool: Tool, key: string, n: nat, k: nat)
    requires k < |rs|
    ensures |ShrinkLatest(rs, tool, key, n)| == |rs|
    ensures ShrinkLatest(rs, tool, key, n)[k]
         == if IsLatest(rs, tool, k) then rs[k].(data := ShrinkData(rs[k].data, key, n)) else rs[k]
  {
    hide ShrinkData, IsLatest;
    ShrinkLatestLength(rs, tool, key, n);
    ShrinkLatestLength(rs[..|rs| - 1], tool, key, n);
    LatestStep(rs, tool, k);
    if rs[|rs| - 1].tool != tool && k < |rs| - 1 {
      ShrinkLatestAt(rs[..|rs| - 1], tool, key, n, k);
    }
  }

  /** The k-th result of a shrunk context. */
  function ResultCut(r: ToolResult, latestAds: bool, latestAbc: bool): ToolResult {
    if latestAds then r.(data := ShrinkData(r.data, "campaigns", 10))
    else if latestAbc then r.(data := ShrinkData(r.data, "rows", 20))
    else r
  }

  lemma ShrinkResultsAt(rs: seq<ToolResult>, k: nat)
    requires k < |ShrinkResults(rs)|
    ensures k < |rs|
    ensures ShrinkResults(rs)[k]
         == ResultCut(rs[k], IsLatest(rs, GetAdvertisingAnalytics, k), IsLatest(rs, RunAbcAnalysis, k))
  {
    hide ShrinkData, ShrinkLatest;
    var cut := ShrinkLatest(rs, GetAdvertisingAnalytics, "campaigns", 10);
    ShrinkLatestLength(rs, GetAdvertisingAnalytics, "campaigns", 10);
    ShrinkLatestLength(cut, RunAbcAnalysis, "rows", 20);
    forall j: nat | j < |rs|
      ensures cut[j].tool == rs[j].tool
    {
      ShrinkLatestAt(rs, GetAdvertisingAnalytics, "campaigns", 10, j);
    }
    ShrinkLatestAt(rs, GetAdvertisingAnalytics, "campaigns", 10, k);
    ShrinkLatestAt(cut, RunAbcAnalysis, "rows", 20, k);
  }

  lemma SectionsCut(f: Facts, r: ToolResult)
    ensures MapOf(ResultCut(r, true, false).data) == ShrinkField(MapOf(r.data), "campaigns", 10)
    ensures MapOf(ResultCut(r, false, true).data) == ShrinkField(MapOf(r.data), "rows", 20)
    ensures ShrinkFacts(f).advertising == ShrinkField(f.advertising, "campaigns", 10)
    ensures ShrinkFacts(f).abcAnalysis == ShrinkField(f.abcAnalysis, "rows", 20)
  {
  }

  /** Each tool result of an assembled context is the sanitized one, cut only where a shrunk section shares its
      map; so the latest advertising and ABC results, where kept, hold exactly what the sections show. */
  lemma AssembledSectionsAreResults(a: AssemblerLimits, intent: string, assumptions: seq<string>,
                                    results: seq<ToolResult>, estimate: ContextView -> nat, k: nat)
    requires k < |Assembled(a, intent, assumptions, results, estimate).toolResults|
    ensures var v, rs := Assembled(a, intent, assumptions, results, estimate), CleanResults(a, results);
      var ads, abc := IsLatest(rs, GetAdvertisingAnalytics, k), IsLatest(rs, RunAbcAnalysis, k);
      && k < |rs|
      && v.toolResults[k] == (if v.stats.truncated then ResultCut(rs[k], ads, abc) else rs[k])
      && (ads ==> MapOf(v.toolResults[k].data) == v.facts.advertising)
      && (abc ==> MapOf(v.toolResults[k].data) == v.facts.abcAnalysis)
  {
    var rs, start := CleanResults(a, results), EmptyContext(intent, assumptions, |results|);
    var g, v := Gathered(a, intent, assumptions, results), Assembled(a, intent, assumptions, results, estimate);
    AbsorbAllKeeps(start, rs);
    GatheredStats(start, rs);
    assert g.toolResults == rs;
    hide AbsorbAll, Dedupe, Sort, NoData, CountFactItems, IsLatest, ShrinkResults, ShrinkFacts, MapOf, ResultCut;
    if v.stats.truncated {
      ShrinkResultsAt(rs, k);
      SectionsCut(g.facts, rs[k]);
    }
    AbsorbAllLatest(start, rs, k);
    LatestIsOne(rs, k);
  }

  lemma LatestIsOne(rs: seq<ToolResult>, k: nat)
    ensures !(IsLatest(rs, GetAdvertisingAnalytics, k) && IsLatest(rs, RunAbcAnalysis, k))
  {
  }
}
