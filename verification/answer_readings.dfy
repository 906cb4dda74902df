/** The validator's rules in the fields of an answer and of its context. */
module AnswerReadings {
  import opened Wrappers
  import opened Text
  import opened ContextValue
  import opened References
  import opened FactContexts
  import opened AnswerValidators

  lemma LowerKeepsVisible(s: string)
    ensures HasVisible(ToLower(s)) <==> HasVisible(s)
  {
    assert forall i | 0 <= i < |s| :: IsSpace(ToLower(s)[i]) <==> IsSpace(s[i]);
    if i :| 0 <= i < |s| && !IsSpace(s[i]) {
      assert !IsSpace(ToLower(s)[i]);
    }
  }

  /** The ids an answer may name are those of the references, and none without a context. */
  lemma KnownIdsRead(v: ContextView, id: int)
    ensures id in KnownAlerts(Some(v)) <==> exists k | 0 <= k < |v.relatedAlerts| :: v.relatedAlerts[k].id == id
    ensures id in KnownRecommendations(Some(v)) <==>
      exists k | 0 <= k < |v.relatedRecommendations| :: v.relatedRecommendations[k].id == id
    ensures KnownAlerts(None) == {} == KnownRecommendations(None)
  {
    if k :| 0 <= k < |v.relatedAlerts| && v.relatedAlerts[k].id == id {
      assert RefId<AlertDetail>()(v.relatedAlerts[k]) == id;
    }
    if k :| 0 <= k < |v.relatedRecommendations| && v.relatedRecommendations[k].id == id {
      assert RefId<RecommendationDetail>()(v.relatedRecommendations[k]) == id;
    }
  }

  /** There are facts exactly when some section but the one for unknown tools is filled, or some reference is known. */
  lemma FactsIff(v: ContextView)
    ensures HasFacts(Some(v)) <==>
      || v.facts.dashboard != EMPTY_FIELDS || v.facts.advertising != EMPTY_FIELDS || v.facts.abcAnalysis != EMPTY_FIELDS
      || |v.facts.recommendations| > 0 || |v.facts.recommendationDetails| > 0 || |v.facts.alerts| > 0
      || |v.facts.priceEconomicsRisks| > 0 || |v.facts.criticalSkus| > 0 || |v.facts.stockRisks| > 0
      || |v.facts.skuMetrics| > 0 || |v.facts.skuContexts| > 0 || |v.facts.campaignContexts| > 0
      || |v.relatedAlerts| > 0 || |v.relatedRecommendations| > 0
    ensures !HasFacts(None) && !IsUnsupported(None)
    ensures IsUnsupported(Some(v)) <==> v.intent == "unsupported"
  {
    assert v.facts.dashboard.m == map[] <==> v.facts.dashboard == EMPTY_FIELDS;
    assert v.facts.advertising.m == map[] <==> v.facts.advertising == EMPTY_FIELDS;
    assert v.facts.abcAnalysis.m == map[] <==> v.facts.abcAnalysis == EMPTY_FIELDS;
  }

  /** What a supporting fact has to be: visible, with a visible source, and about an alert or a recommendation the
      context knows when its source is one of them, in any case and with any blanks around. */
  lemma SupportIff(sf: SupportingFact, v: ContextView)
    ensures SupportAcceptable(sf, Some(v)) <==>
      && HasVisible(sf.fact) && HasVisible(sf.source)
      && (sf.id.Some? && TrimSpace(ToLower(sf.source)) == "alert" ==> sf.id.value in Ids(v.relatedAlerts))
      && (sf.id.Some? && TrimSpace(ToLower(sf.source)) == "recommendation" ==>
            sf.id.value in Ids(v.relatedRecommendations))
  {
    TrimLeavesVisible(sf.fact);
    TrimLeavesVisible(ToLower(sf.source));
    LowerKeepsVisible(sf.source);
    hide HasVisible, TrimSpace, ToLower;
  }

  /** A valid answer says something, sums it up, is as sure as one of the three levels and is supported; without facts
      its confidence is low and it names its limitations. */
  lemma ValidAnswersReadable(a: ChatAnswer, v: ContextView)
    requires Acceptable(a, Some(v))
    ensures HasVisible(a.answer) && HasVisible(a.summary) && |a.supportingFacts| > 0
    ensures a.confidence == Low || a.confidence == Medium || a.confidence == High
    ensures forall k | 0 <= k < |a.alertIds| :: a.alertIds[k] > 0 && a.alertIds[k] in Ids(v.relatedAlerts)
    ensures forall k | 0 <= k < |a.recommendationIds| ::
      a.recommendationIds[k] > 0 && a.recommendationIds[k] in Ids(v.relatedRecommendations)
    ensures !HasFacts(Some(v)) && v.intent != "unsupported" ==> a.confidence == Low
    ensures !HasFacts(Some(v)) || v.intent == "unsupported" ==>
      |a.limitations| > 0 && exists k | 0 <= k < |a.supportingFacts| ::
        ToLower(TrimSpace(a.supportingFacts[k].source)) == "limitation"
  {
    TrimLeavesVisible(a.answer);
    TrimLeavesVisible(a.summary);
    hide HasFacts, TextAcceptable, SupportAcceptable, HasVisible, TrimSpace;
    if CitesLimitation(a) {
      var k :| 0 <= k < |a.supportingFacts| && IsLimitationSource(a.supportingFacts[k]);
      assert ToLower(TrimSpace(a.supportingFacts[k].source)) == "limitation";
    }
  }

  /** Sources that draw no warning. */
  lemma AllowedSourcesIff(source: string)
    ensures IsAllowedSource(source) <==>
      || source == "dashboard" || source == "recommendation" || source == "alert" || source == "critical_sku"
      || source == "stock_risk" || source == "advertising" || source == "price_economics" || source == "sku_metrics"
      || source == "sku_context" || source == "campaign_context" || source == "abc_analysis" || source == "tool_result"
      || source == "freshness" || source == "limitation"
  {
  }

  /** How sure an answer may stay: two steps for high, one for medium, none for low. */
  lemma StepsOfConfidence(a: ChatAnswer, v: ContextView)
    requires !ForcedLow(v)
    ensures a.confidence == High && Demotions(a, v) == 0 ==> RemainingRank(a, Some(v)) == 2
    ensures a.confidence == High && Demotions(a, v) == 1 ==> RemainingRank(a, Some(v)) == 1
    ensures a.confidence == Medium && Demotions(a, v) == 0 ==> RemainingRank(a, Some(v)) == 1
    ensures a.confidence == Medium && Demotions(a, v) >= 1 ==> RemainingRank(a, Some(v)) == 0
    ensures a.confidence == Low || Demotions(a, v) >= 2 ==> RemainingRank(a, Some(v)) == 0
  {
    hide Demotions, ForcedLow;
  }
}
