/** What the assembler and the validator guarantee together: an assembled context with a known defect
    leaves no confidence, and a valid answer cites only what some tool returned. */
module AnswerGuarantees {
  import opened Wrappers
  import opened Text
  import opened Batches
  import opened MentionPatterns
  import opened References
  import opened FactContexts
  import opened ContextAssemblers
  import opened ContextGuarantees
  import opened AnswerValidators

  lemma MentionedSomewhere(limitations: seq<string>, k: nat, phrases: seq<string>, p: nat)
    requires k < |limitations| && p < |phrases| && Contains(ToLower(limitations[k]), phrases[p])
    ensures AnyMentions(limitations, phrases)
  {
    assert ContainsAny(ToLower(limitations[k]), phrases);
  }

  lemma LowerNoteReads(head: string, middle: string, tail: string)
    ensures Contains(ToLower(head + middle + tail), ToLower(head))
  {
    ToLowerConcat(head + middle, tail);
    ToLowerConcat(head, middle);
    ContainsItself(ToLower(head));
    ContainsWithin("", ToLower(head), ToLower(middle) + ToLower(tail), ToLower(head));
    assert "" + ToLower(head) + (ToLower(middle) + ToLower(tail)) == ToLower(head + middle + tail);
  }

  lemma LowerHeads()
    ensures ToLower("No factual data") == "no factual data"
    ensures ToLower("Context was truncated") == "context was truncated"
  {
  }

  lemma CriticalPhrases()
    ensures |CRITICAL_LIMITATIONS| > 2
    ensures CRITICAL_LIMITATIONS[0] == "no factual data"
    ensures CRITICAL_LIMITATIONS[1] == "context was truncated"
    ensures CRITICAL_LIMITATIONS[2] == "failed"
  {
  }

  lemma NotesRead()
    ensures Contains(ToLower(NO_DATA_NOTE), "no factual data")
    ensures Contains(ToLower(TRUNCATED_NOTE), "context was truncated")
  {
    LowerHeads();
    LowerNoteReads("No factual data", " was available for this question", ".");
    LowerNoteReads("Context was truncated", " to fit size limits", ".");
  }

  /** The note the assembler leaves when nothing was found is the one the validator searches for. */
  lemma NoDataNoteForcesLow(v: ContextView)
    requires NO_DATA_NOTE in v.limitations
    ensures ForcedLow(v)
  {
    var k :| 0 <= k < |v.limitations| && v.limitations[k] == NO_DATA_NOTE;
    NotesRead();
    CriticalPhrases();
    MentionedSomewhere(v.limitations, k, CRITICAL_LIMITATIONS, 0);
    JoinShowsPart(v.limitations, " ", k, "no factual data");
  }

  /** The note the assembler leaves when it truncates counts as critical for the validator. */
  lemma TruncatedNoteIsCritical(v: ContextView)
    requires TRUNCATED_NOTE in v.limitations
    ensures HasCriticalLimitation(v)
  {
    var k :| 0 <= k < |v.limitations| && v.limitations[k] == TRUNCATED_NOTE;
    NotesRead();
    CriticalPhrases();
    MentionedSomewhere(v.limitations, k, CRITICAL_LIMITATIONS, 1);
  }

  /** A context that admits its defects in its limitations. */
  ghost predicate AdmitsDefects(v: ContextView) {
    && (v.stats.truncated ==> TRUNCATED_NOTE in v.limitations)
    && (v.stats.failedTools > 0 ==> exists l :: l in v.limitations && Contains(ToLower(l), "failed"))
    && (NoData(v.facts) ==> NO_DATA_NOTE in v.limitations)
  }

  lemma FailureIsCritical(v: ContextView)
    requires exists l :: l in v.limitations && Contains(ToLower(l), "failed")
    ensures HasCriticalLimitation(v)
  {
    var l :| l in v.limitations && Contains(ToLower(l), "failed");
    var k :| 0 <= k < |v.limitations| && v.limitations[k] == l;
    CriticalPhrases();
    MentionedSomewhere(v.limitations, k, CRITICAL_LIMITATIONS, 2);
  }

  /** An admitted defect costs at least two levels: once for the limitation, once for the defect. */
  lemma AdmittedDefectsLeaveNoConfidence(answer: ChatAnswer, v: ContextView)
    requires AdmitsDefects(v)
    requires v.stats.truncated || v.stats.failedTools > 0 || NoData(v.facts)
    ensures RemainingRank(answer, Some(v)) == 0
  {
    if NoData(v.facts) {
      NoDataNoteForcesLow(v);
    } else {
      assert HasCriticalLimitation(v) by {
        if v.stats.truncated {
          TruncatedNoteIsCritical(v);
        } else {
          FailureIsCritical(v);
        }
      }
      assert Demotions(answer, v) >= 2;
    }
  }

  /** An answer keeps confidence above low only on a context that was not truncated, that no tool
      failed to contribute to, and that has facts. */
  lemma ConfidenceNeedsSoundContext(a: AssemblerLimits, intent: string, assumptions: seq<string>,
                                    results: seq<ToolResult>,
                                    estimate: ContextView -> nat, answer: ChatAnswer)
    requires RemainingRank(answer, Some(Assembled(a, intent, assumptions, results, estimate))) > 0
    ensures var v := Assembled(a, intent, assumptions, results, estimate);
      && !v.stats.truncated
      && (forall k | 0 <= k < |results| :: !Failed(results[k]))
      && !NoData(v.facts)
  {
    var v := Assembled(a, intent, assumptions, results, estimate);
    AssembledAdmitsTruncation(a, intent, assumptions, results, estimate);
    AssembledAdmitsFailures(a, intent, assumptions, results, estimate);
    AssembledAdmitsNoData(a, intent, assumptions, results, estimate);
    if v.stats.truncated || v.stats.failedTools > 0 || NoData(v.facts) {
      AdmittedDefectsLeaveNoConfidence(answer, v);
    }
    forall k | 0 <= k < |results|
      ensures !Failed(results[k])
    {
      NoFailuresCounted(CleanResults(a, results), k);
      assert Failed(CleanResults(a, results)[k]) == Failed(results[k]);
    }
  }

  lemma {:induction false} NoFailuresCounted(rs: seq<ToolResult>, k: nat)
    requires k < |rs| && CountFailed(rs) == 0
    ensures !Failed(rs[k])
  {
    if k < |rs| - 1 {
      NoFailuresCounted(rs[..|rs| - 1], k);
    }
  }

  /** On an assembled context, the validator sees facts exactly where the assembler recorded some. */
  lemma FactsAgree(a: AssemblerLimits, intent: string, assumptions: seq<string>, results: seq<ToolResult>,
                   estimate: ContextView -> nat)
    ensures var v := Assembled(a, intent, assumptions, results, estimate);
      HasFacts(Some(v)) <==> !NoData(v.facts)
  {
    AssembledReferencesNeedFacts(a, intent, assumptions, results, estimate);
  }

  /** An id some tool result gives for an alert. */
  ghost predicate AlertFromTools(rs: seq<ToolResult>, id: int) {
    exists k, j :: 0 <= k < |rs| && 0 <= j < |AlertSources(rs[k])| && IdOf(AlertSources(rs[k])[j]) == Some(id)
  }

  ghost predicate RecommendationFromTools(rs: seq<ToolResult>, id: int) {
    exists k, j :: 0 <= k < |rs| && 0 <= j < |RecommendationSources(rs[k])|
      && IdOf(RecommendationSources(rs[k])[j]) == Some(id)
  }

  lemma {:induction false} ReadableAlertFromTools(rs: seq<ToolResult>, id: int)
    requires id in ReadableIds(AllAlertSources(rs))
    ensures AlertFromTools(rs, id)
  {
    var front, last := rs[..|rs| - 1], rs[|rs| - 1];
    var srcs := AllAlertSources(rs);
    var k :| 0 <= k < |srcs| && IdOf(srcs[k]) == Some(id);
    var n := |AllAlertSources(front)|;
    if k < n {
      assert AllAlertSources(front)[k] == srcs[k];
      ReadableAlertFromTools(front, id);
      var i, j :| 0 <= i < |front| && 0 <= j < |AlertSources(front[i])| && IdOf(AlertSources(front[i])[j]) == Some(id);
      assert rs[i] == front[i];
    } else {
      assert IdOf(AlertSources(rs[|rs| - 1])[k - n]) == Some(id);
    }
  }

  lemma {:induction false} ReadableRecommendationFromTools(rs: seq<ToolResult>, id: int)
    requires id in ReadableIds(AllRecommendationSources(rs))
    ensures RecommendationFromTools(rs, id)
  {
    var front, last := rs[..|rs| - 1], rs[|rs| - 1];
    var srcs := AllRecommendationSources(rs);
    var k :| 0 <= k < |srcs| && IdOf(srcs[k]) == Some(id);
    var n := |AllRecommendationSources(front)|;
    if k < n {
      assert AllRecommendationSources(front)[k] == srcs[k];
      ReadableRecommendationFromTools(front, id);
      var i, j :| 0 <= i < |front| && 0 <= j < |RecommendationSources(front[i])|
                  && IdOf(RecommendationSources(front[i])[j]) == Some(id);
      assert rs[i] == front[i];
    } else {
      assert IdOf(RecommendationSources(rs[|rs| - 1])[k - n]) == Some(id);
    }
  }

  /** An answer refers to an alert: in its list of ids, in a supporting fact, or in its wording. */
  ghost predicate CitesAlert(answer: ChatAnswer, id: int) {
    || id in answer.alertIds
    || (exists sf :: sf in answer.supportingFacts && sf.id == Some(id) && SourceOf(sf) == "alert")
    || Mentions(AnswerTexts(answer), AlertNumbers(), id)
  }

  ghost predicate CitesRecommendation(answer: ChatAnswer, id: int) {
    || id in answer.recommendationIds
    || (exists sf :: sf in answer.supportingFacts && sf.id == Some(id) && SourceOf(sf) == "recommendation")
    || Mentions(AnswerTexts(answer), RecommendationNumbers(), id)
  }

  /** Every alert and every recommendation a valid answer cites, in whatever way, comes from a tool result. */
  lemma ValidAnswersCiteToolResults(a: AssemblerLimits, intent: string, assumptions: seq<string>,
                                    results: seq<ToolResult>,
                                    estimate: ContextView -> nat, answer: ChatAnswer)
    requires Acceptable(answer, Some(Assembled(a, intent, assumptions, results, estimate)))
    ensures forall id :: CitesAlert(answer, id) ==> AlertFromTools(CleanResults(a, results), id)
    ensures forall id :: CitesRecommendation(answer, id) ==> RecommendationFromTools(CleanResults(a, results), id)
  {
    var v := Assembled(a, intent, assumptions, results, estimate);
    var rs := CleanResults(a, results);
    AssembledReferencesExact(a, intent, assumptions, results, estimate);
    hide Acceptable, CitesAlert, CitesRecommendation, Assembled;
    forall id | CitesAlert(answer, id)
      ensures AlertFromTools(rs, id)
    {
      CitedAlertKnown(answer, v, id);
      ReadableAlertFromTools(rs, id);
    }
    forall id | CitesRecommendation(answer, id)
      ensures RecommendationFromTools(rs, id)
    {
      CitedRecommendationKnown(answer, v, id);
      ReadableRecommendationFromTools(rs, id);
    }
  }

  lemma CitedAlertKnown(answer: ChatAnswer, v: ContextView, id: int)
    requires Acceptable(answer, Some(v)) && CitesAlert(answer, id)
    ensures id in Ids(v.relatedAlerts)
  {
    assert id in KnownAlerts(Some(v));
  }

  lemma CitedRecommendationKnown(answer: ChatAnswer, v: ContextView, id: int)
    requires Acceptable(answer, Some(v)) && CitesRecommendation(answer, id)
    ensures id in Ids(v.relatedRecommendations)
  {
    assert id in KnownRecommendations(Some(v));
  }

  /** The four places of an answer where text is read. */
  ghost predicate IsText(answer: ChatAnswer, text: string) {
    || text == answer.answer || text == answer.summary
    || (exists k | 0 <= k < |answer.supportingFacts| :: answer.supportingFacts[k].fact == text)
    || (exists k | 0 <= k < |answer.limitations| :: answer.limitations[k] == text)
  }

  lemma TextsRead(answer: ChatAnswer, text: string)
    ensures text in AnswerTexts(answer) <==> IsText(answer, text)
  {
    var facts := FactTexts(answer.supportingFacts);
    if k :| 0 <= k < |answer.supportingFacts| && answer.supportingFacts[k].fact == text {
      assert facts[k] == text;
    }
    if text in facts {
      var k :| 0 <= k < |facts| && facts[k] == text;
      assert answer.supportingFacts[k].fact == text;
    }
    assert text in AnswerTexts(answer) <==>
      text == answer.answer || text == answer.summary || text in facts || text in answer.limitations;
  }

  /** In a valid answer every text is free of forbidden claims, the supporting facts' and the limitations' included. */
  lemma ValidTextsAreAcceptable(answer: ChatAnswer, view: Option<ContextView>)
    requires Acceptable(answer, view)
    ensures TextAcceptable(answer.answer) && TextAcceptable(answer.summary)
    ensures forall k | 0 <= k < |answer.supportingFacts| :: TextAcceptable(answer.supportingFacts[k].fact)
    ensures forall k | 0 <= k < |answer.limitations| :: TextAcceptable(answer.limitations[k])
  {
    hide TextAcceptable;
    forall text | IsText(answer, text)
      ensures TextAcceptable(text)
    {
      TextsRead(answer, text);
      var k :| 0 <= k < |AnswerTexts(answer)| && AnswerTexts(answer)[k] == text;
    }
    forall k | 0 <= k < |answer.supportingFacts|
      ensures TextAcceptable(answer.supportingFacts[k].fact)
    {
      assert IsText(answer, answer.supportingFacts[k].fact);
    }
    forall k | 0 <= k < |answer.limitations|
      ensures TextAcceptable(answer.limitations[k])
    {
      assert IsText(answer, answer.limitations[k]);
    }
  }

  /** The id is written out in the text after the word and a number sign. */
  ghost predicate WritesOut(text: string, before: string, word: string, id: nat, after: string) {
    text == before + (word + " #" + Decimal(id) + after) && (after != "" ==> !IsDigit(after[0]))
  }

  /** An id written out in any of an answer's texts, in English or in Russian, is cited, whatever surrounds it. */
  lemma WrittenIdsAreCited(answer: ChatAnswer, text: string, before: string, word: string, id: nat, after: string)
    requires IsText(answer, text) && 0 < id <= MAX_INT64 && WritesOut(text, before, word, id, after)
    ensures word == "alert" || word == "алерт" ==> CitesAlert(answer, id)
    ensures word == "recommendation" || word == "рекомендация" || word == "рекомендации" ==>
      CitesRecommendation(answer, id)
  {
    AlertWordsDistinctive();
    RecommendationWordsDistinctive();
    AlertWordsPrefixless();
    RecommendationWordsPrefixless();
    TextsRead(answer, text);
    hide Distinctive, Prefixless, FindAll, IsText, AnswerTexts, Decimal;
    assert ALERT_WORDS[0] == "alert" && ALERT_WORDS[1] == "алерт";
    assert RECOMMENDATION_WORDS[0] == "recommendation" && RECOMMENDATION_WORDS[1] == "рекомендация";
    assert RECOMMENDATION_WORDS[2] == "рекомендации";
    if word in ALERT_WORDS {
      WrittenIsRead(before, word, id, after, ALERT_WORDS);
    }
    if word in RECOMMENDATION_WORDS {
      WrittenIsRead(before, word, id, after, RECOMMENDATION_WORDS);
    }
  }

  /** So a valid answer names, wherever it writes one, only ids the context knows. */
  lemma WrittenIdsAreKnown(answer: ChatAnswer, v: ContextView, text: string, before: string, word: string, id: nat,
                           after: string)
    requires Acceptable(answer, Some(v)) && IsText(answer, text)
    requires 0 < id <= MAX_INT64 && WritesOut(text, before, word, id, after)
    ensures word == "alert" || word == "алерт" ==> id in Ids(v.relatedAlerts)
    ensures word == "recommendation" || word == "рекомендация" || word == "рекомендации" ==>
      id in Ids(v.relatedRecommendations)
  {
    WrittenIdsAreCited(answer, text, before, word, id, after);
    hide IsText, WritesOut, CitesAlert, CitesRecommendation, Acceptable;
    if CitesAlert(answer, id) {
      CitedAlertKnown(answer, v, id);
    }
    if CitesRecommendation(answer, id) {
      CitedRecommendationKnown(answer, v, id);
    }
  }

  // ---------------------------------------------------------------- lowered without a warning

  /** The one reason to lower an answer for which no warning is given, with none of the others beside it. */
  predicate OnlyCritical(a: ChatAnswer, v: ContextView) {
    && HasCriticalLimitation(v) && !SaysNoData(v.limitations)
    && !IgnoresLimitations(a, v) && !OverstatesAdvertising(a, v) && !OverstatesCategory(a, v)
    && !v.stats.truncated && v.stats.failedTools == 0
  }

  lemma NoneUnknown(facts: seq<SupportingFact>)
    ensures FlatMap(facts, UnknownSource()) == [] <==> forall k | 0 <= k < |facts| :: !HasUnknownSource(facts[k])
  {
    hide HasUnknownSource;
    if k :| 0 <= k < |facts| && HasUnknownSource(facts[k]) {
      FlatMapHas(facts, UnknownSource(), k, "unknown supporting fact source: " + facts[k].source);
    } else {
      FlatMapEmpty(facts, UnknownSource());
    }
  }

  lemma UnwarnedIff(a: ChatAnswer, v: ContextView)
    ensures ConfidenceWarnings(a, v) == [] <==> Demotions(a, v) == Count(HasCriticalLimitation(v)) && !ForcedLow(v)
  {
    hide AnyMentions, IgnoresLimitations, SaysNoData, WarningText, HasCriticalLimitation, OverstatesAdvertising;
    hide OverstatesCategory;
  }

  lemma WarningTextsVisible(doubt: Doubt)
    ensures Visible(WarningText(doubt))
  {
    TrimKeepsVisible(WarningText(doubt), 0);
  }

  lemma SourceWarningsVisible(facts: seq<SupportingFact>)
    ensures AllVisible(FlatMap(facts, UnknownSource()))
  {
    hide HasUnknownSource, Visible;
    var ws := FlatMap(facts, UnknownSource());
    forall i | 0 <= i < |ws|
      ensures Visible(ws[i])
    {
      var k := FlatMapFrom(facts, UnknownSource(), ws[i]);
      TrimKeepsVisible("unknown supporting fact source: " + facts[k].source, 0);
    }
  }

  lemma ConfidenceWarningsVisible(a: ChatAnswer, v: ContextView)
    ensures AllVisible(ConfidenceWarnings(a, v))
  {
    hide AnyMentions, IgnoresLimitations, ForcedLow, WarningText, HasCriticalLimitation, OverstatesAdvertising;
    hide OverstatesCategory, Visible;
    forall doubt
      ensures Visible(WarningText(doubt))
    {
      WarningTextsVisible(doubt);
    }
  }

  /** De-duplication of an answer's warnings never leaves none of some. */
  lemma WarningsStay(a: ChatAnswer, v: ContextView)
    ensures Dedupe(WarningsOf(a, Some(v))) == [] <==> WarningsOf(a, Some(v)) == []
  {
    var ws := WarningsOf(a, Some(v));
    SourceWarningsVisible(a.supportingFacts);
    ConfidenceWarningsVisible(a, v);
    hide FlatMap, ConfidenceWarnings, Visible, Dedupe;
    assert AllVisible(ws);
    DedupeNeverEmpties(ws);
  }

  /** An answer is lowered without any warning exactly when a critical limitation other than missing data is the
      only thing held against it. */
  lemma LoweredUnwarnedIff(a: ChatAnswer, v: ContextView)
    ensures RemainingRank(a, Some(v)) < Rank(a.confidence) && Dedupe(WarningsOf(a, Some(v))) == [] <==>
      && Rank(a.confidence) > 0 && OnlyCritical(a, v)
      && forall k | 0 <= k < |a.supportingFacts| :: !HasUnknownSource(a.supportingFacts[k])
  {
    WarningsStay(a, v);
    NoneUnknown(a.supportingFacts);
    UnwarnedIff(a, v);
    hide FlatMap, ConfidenceWarnings, Dedupe, HasUnknownSource, AnyMentions, IgnoresLimitations, SaysNoData;
    hide HasCriticalLimitation, OverstatesAdvertising, OverstatesCategory;
  }

  lemma ContainsFirst(s: string, p: string)
    requires Contains(s, p) && p != ""
    ensures |p| <= |s| && p[0] in s
  {
    var i: nat :| i <= |s| && ContainsAt(s, p, i);
    assert s[i..i + |p|][0] == s[i];
  }

  /** So an answer that reflects the limitation of a context with unavailable data is lowered and not told why. */
  lemma LoweredUnwarned(a: ChatAnswer, v: ContextView)
    requires a.confidence == High && a.supportingFacts == [] && a.limitations != []
    requires v.limitations == ["unavailable"] && !v.stats.truncated && v.stats.failedTools == 0
    ensures RemainingRank(a, Some(v)) == 1 && Dedupe(WarningsOf(a, Some(v))) == []
  {
    OnlyUnavailable(v);
    hide AnyMentions, Dedupe, WarningsOf, SaysNoData;
    assert OnlyCritical(a, v);
    LoweredUnwarnedIff(a, v);
  }

  lemma OnlyUnavailable(v: ContextView)
    requires v.limitations == ["unavailable"]
    ensures HasCriticalLimitation(v) && !SaysNoData(v.limitations)
    ensures !AnyMentions(v.limitations, ADS_UNAVAILABLE) && !AnyMentions(v.limitations, APPROXIMATE_CATEGORY)
  {
    assert ToLower("unavailable") == "unavailable";
    ContainsItself("unavailable");
    MentionedSomewhere(v.limitations, 0, CRITICAL_LIMITATIONS, 3);
    assert Join(v.limitations, " ") == "unavailable";
    if Contains("unavailable", "no factual data") {
      ContainsFirst("unavailable", "no factual data");
    }
    forall p | p in ADS_UNAVAILABLE + APPROXIMATE_CATEGORY
      ensures !Contains("unavailable", p)
    {
      if Contains("unavailable", p) {
        ContainsFirst("unavailable", p);
      }
    }
  }
}
