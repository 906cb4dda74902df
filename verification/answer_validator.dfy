/** Checking a model-written answer against the fact context it was given. */
module AnswerValidators {
  import opened Wrappers
  import opened Text
  import opened Uniques
  import opened Batches
  import opened MentionPatterns
  import opened References
  import opened FactContexts
  import opened ContextAssemblers

  datatype Confidence = Low | Medium | High | UnknownLevel(name: string)

  datatype SupportingFact = SupportingFact(source: string, id: Option<int>, fact: string)

  datatype ChatAnswer = ChatAnswer(
    answer: string,
    summary: string,
    confidence: Confidence,
    alertIds: seq<int>,
    recommendationIds: seq<int>,
    supportingFacts: seq<SupportingFact>,
    limitations: seq<string>)

  datatype Validation = Validation(isValid: bool, errors: seq<string>, warnings: seq<string>,
                                   finalConfidence: Confidence)

  datatype ValidateError = AnswerRequired

  const INTENT_UNSUPPORTED := "unsupported"

  const AUTO_ACTION_CLAIMS: seq<string> := [
    "я изменил цену", "цена изменена", "я снизил цену", "я повысил цену", "я остановил кампанию",
    "кампания остановлена",
    "я запустил кампанию", "я изменил бюджет", "бюджет изменён", "я создал поставку", "поставка создана",
    "я закрыл alert",
    "alert закрыт", "я принял рекомендацию", "рекомендация принята", "я обновил данные в ozon",
    "я отправил запрос в ozon",
    "i changed the price", "price has been changed", "i lowered the price", "i increased the price",
    "i stopped the campaign",
    "campaign has been stopped", "i launched the campaign", "i changed the budget", "budget has been changed",
    "i created a replenishment", "i closed the alert", "i accepted the recommendation", "i updated ozon"
  ]

  const DIRECT_ACCESS_CLAIMS: seq<string> := [
    "я сходил в базу", "я запросил базу данных", "я выполнил sql", "select *", "я проверил ozon напрямую",
    "я обратился в ozon",
    "i queried the database", "i ran sql", "i checked ozon directly"
  ]

  const SECRET_MARKERS: seq<string> := [
    "sk-", "openai_api_key", "api_key", "authorization: bearer", "password", "secret", "raw_payload", "raw_ai_response",
    "sql query"
  ]

  const LIMITATION_WORDING: seq<string> := ["огранич", "недостаточно данных", "limited", "limitation", "недоступ"]

  const CRITICAL_LIMITATIONS: seq<string> := [
    "no factual data", "context was truncated", "failed", "unavailable", "not available", "недоступ"
  ]

  const ADS_UNAVAILABLE: seq<string> := [
    "advertising unavailable", "no advertising data", "advertising data is not available", "реклам", "недоступ"
  ]

  const APPROXIMATE_CATEGORY: seq<string> := [
    "category filtering may be approximate", "category filtering depends", "приблиз", "категор"
  ]

  const AD_SPECIFICS: seq<string> := ["roas", "spend", "campaign", "кампан", "расход"]

  const EXACT_CATEGORY_CLAIMS: seq<string> := ["точно по катег", "exactly by category", "exact category"]

  predicate AnyMentions(texts: seq<string>, phrases: seq<string>) {
    exists k | 0 <= k < |texts| :: ContainsAny(ToLower(texts[k]), phrases)
  }

  function FactTexts(facts: seq<SupportingFact>): seq<string> {
    seq(|facts|, i requires 0 <= i < |facts| => facts[i].fact)
  }

  function AnswerTexts(a: ChatAnswer): seq<string> {
    [a.answer, a.summary] + FactTexts(a.supportingFacts) + a.limitations
  }

  function SourceOf(sf: SupportingFact): string {
    TrimSpace(ToLower(sf.source))
  }

  predicate IsAllowedSource(source: string) {
    source in [
      "dashboard", "recommendation", "alert", "critical_sku", "stock_risk", "advertising", "price_economics",
      "sku_metrics", "sku_context", "campaign_context", "abc_analysis", "tool_result", "freshness", "limitation"
    ]
  }

  /** A source that is named but not one of the allowed ones draws a warning. */
  predicate HasUnknownSource(sf: SupportingFact) {
    SourceOf(sf) != "" && !IsAllowedSource(SourceOf(sf))
  }

  function UnknownSource(): SupportingFact -> seq<string> {
    (sf: SupportingFact) => if HasUnknownSource(sf) then ["unknown supporting fact source: " + sf.source] else []
  }

  predicate IsLimitationSource(sf: SupportingFact) {
    ToLower(TrimSpace(sf.source)) == "limitation"
  }

  predicate CitesLimitation(a: ChatAnswer) {
    exists k | 0 <= k < |a.supportingFacts| :: IsLimitationSource(a.supportingFacts[k])
  }

  function KnownAlerts(view: Option<ContextView>): set<int> {
    if view.Some? then Ids(view.value.relatedAlerts) else {}
  }

  function KnownRecommendations(view: Option<ContextView>): set<int> {
    if view.Some? then Ids(view.value.relatedRecommendations) else {}
  }

  predicate HasFacts(view: Option<ContextView>) {
    && view.Some?
    && (!NoData(view.value.facts) || view.value.relatedAlerts != [] || view.value.relatedRecommendations != [])
  }

  predicate IsUnsupported(view: Option<ContextView>) {
    view.Some? && view.value.intent == INTENT_UNSUPPORTED
  }

  /** Positive numbers captured in the texts, in order, each once. */
  function Captured(texts: seq<string>, scan: string -> seq<int>): seq<int> {
    if texts == [] then [] else Captured(texts[..|texts| - 1], scan) + Positive(scan(texts[|texts| - 1]))
  }

  function Positive(ids: seq<int>): seq<int> {
    if ids == [] then []
    else Positive(ids[..|ids| - 1]) + (if ids[|ids| - 1] > 0 then [ids[|ids| - 1]] else [])
  }

  function NoId(): int -> bool {
    (id: int) => false
  }

  function Unique(ids: seq<int>): seq<int> {
    Uniq(ids, Itself<int>(), NoId())
  }

  /** A text mentions an id: a pattern captures it, and it is a possible id. */
  predicate Mentions(texts: seq<string>, scan: string -> seq<int>, id: int) {
    id > 0 && exists k | 0 <= k < |texts| :: id in scan(texts[k])
  }

  // ---------------------------------------------------------------- what makes an answer acceptable

  predicate CitesOnly(ids: seq<int>, known: set<int>, hasContext: bool) {
    forall k | 0 <= k < |ids| :: ids[k] > 0 && hasContext && ids[k] in known
  }

  /** An id given with an alert or a recommendation as source is known to the context. */
  predicate KnownSubject(sf: SupportingFact, view: Option<ContextView>) {
    && (sf.id.Some? && view.Some? && SourceOf(sf) == "alert" ==> sf.id.value in KnownAlerts(view))
    && (sf.id.Some? && view.Some? && SourceOf(sf) == "recommendation" ==> sf.id.value in KnownRecommendations(view))
  }

  predicate SupportAcceptable(sf: SupportingFact, view: Option<ContextView>) {
    TrimSpace(sf.fact) != "" && SourceOf(sf) != "" && KnownSubject(sf, view)
  }

  predicate TextAcceptable(text: string) {
    && !ContainsAny(ToLower(text), AUTO_ACTION_CLAIMS)
    && !ContainsAny(ToLower(text), DIRECT_ACCESS_CLAIMS)
    && !ContainsAny(ToLower(text), SECRET_MARKERS)
  }

  predicate HonestWithoutFacts(a: ChatAnswer, view: Option<ContextView>) {
    && (!HasFacts(view) ==> (IsUnsupported(view) || a.confidence == Low) && a.limitations != [] && CitesLimitation(a))
    && (IsUnsupported(view) ==> a.limitations != [] && CitesLimitation(a))
  }

  /** The rules an answer has to keep, stated one by one. */
  ghost predicate Acceptable(a: ChatAnswer, view: Option<ContextView>) {
    && TrimSpace(a.answer) != "" && TrimSpace(a.summary) != ""
    && !a.confidence.UnknownLevel?
    && a.supportingFacts != []
    && (forall k | 0 <= k < |AnswerTexts(a)| :: TextAcceptable(AnswerTexts(a)[k]))
    && CitesOnly(a.alertIds, KnownAlerts(view), view.Some?)
    && CitesOnly(a.recommendationIds, KnownRecommendations(view), view.Some?)
    && (forall k | 0 <= k < |a.supportingFacts| :: SupportAcceptable(a.supportingFacts[k], view))
    && (view.Some? ==> forall id :: Mentions(AnswerTexts(a), AlertNumbers(), id) ==> id in KnownAlerts(view))
    && (view.Some? ==> forall id ::
          Mentions(AnswerTexts(a), RecommendationNumbers(), id) ==> id in KnownRecommendations(view))
    && HonestWithoutFacts(a, view)
  }

  // ---------------------------------------------------------------- the loops and their meaning

  lemma {:induction false} PositiveMembers(ids: seq<int>)
    ensures forall id :: id in Positive(ids) <==> id > 0 && id in ids
  {
    if ids == [] {
    } else {
      PositiveMembers(ids[..|ids| - 1]);
      assert ids == ids[..|ids| - 1] + [ids[|ids| - 1]];
    }
  }

  lemma MentionsLast(texts: seq<string>, scan: string -> seq<int>, id: int)
    requires texts != []
    ensures Mentions(texts, scan, id)
       <==> Mentions(texts[..|texts| - 1], scan, id) || (id > 0 && id in scan(texts[|texts| - 1]))
  {
    var front := texts[..|texts| - 1];
    if id > 0 {
      if k :| 0 <= k < |front| && id in scan(front[k]) {
        assert id in scan(texts[k]);
      }
      if k :| 0 <= k < |texts| && id in scan(texts[k]) {
        assert k < |front| ==> front[k] == texts[k];
      }
    }
  }

  lemma {:induction false} CapturedMembers(texts: seq<string>, scan: string -> seq<int>)
    ensures forall id :: id in Captured(texts, scan) <==> Mentions(texts, scan, id)
  {
    if texts == [] {
    } else {
      var front, last := texts[..|texts| - 1], texts[|texts| - 1];
      CapturedMembers(front, scan);
      PositiveMembers(scan(last));
      forall id
        ensures id in Captured(texts, scan) <==> Mentions(texts, scan, id)
      {
        hide Mentions;
        MentionsLast(texts, scan, id);
      }
    }
  }

  lemma UniqueMembers(ids: seq<int>)
    ensures NoRepeats(Unique(ids))
    ensures forall id :: id in Unique(ids) <==> id in ids
  {
    UniqMembers(ids, Itself<int>(), NoId());
    ShowsItself(ids);
  }

  method UniqueInt64(ids: seq<int>) returns (out: seq<int>)
    ensures out == Unique(ids)
  {
    var seen: set<int> := {};
    out := [];
    for i := 0 to |ids|
      invariant out == Unique(ids[..i])
      invariant forall id :: id in seen <==> id in out
    {
      assert ids[..i + 1][..i] == ids[..i];
      assert Itself<int>()(ids[i]) == ids[i] && !NoId()(ids[i]);
      if ids[i] in seen {
        continue;
      }
      seen := seen + {ids[i]};
      out := out + [ids[i]];
    }
    assert ids[..|ids|] == ids;
  }

  method AppendPositive(out: seq<int>, ids: seq<int>) returns (r: seq<int>)
    ensures r == out + Positive(ids)
  {
    r := out;
    for i := 0 to |ids|
      invariant r == out + Positive(ids[..i])
    {
      assert ids[..i + 1][..i] == ids[..i];
      if ids[i] > 0 {
        r := r + [ids[i]];
      }
    }
    assert ids[..|ids|] == ids;
  }

  method ExtractMentionedEntityIds(texts: seq<string>)
      returns (alerts: seq<int>, recommendations: seq<int>)
    ensures NoRepeats(alerts) && NoRepeats(recommendations)
    ensures forall id :: id in alerts <==> Mentions(texts, AlertNumbers(), id)
    ensures forall id :: id in recommendations <==> Mentions(texts, RecommendationNumbers(), id)
  {
    var alertIds, recIds := [], [];
    for i := 0 to |texts|
      invariant alertIds == Captured(texts[..i], AlertNumbers())
      invariant recIds == Captured(texts[..i], RecommendationNumbers())
    {
      assert texts[..i + 1][..i] == texts[..i];
      alertIds := AppendPositive(alertIds, AlertNumbers()(texts[i]));
      recIds := AppendPositive(recIds, RecommendationNumbers()(texts[i]));
    }
    assert texts[..|texts|] == texts;
    CapturedMembers(texts, AlertNumbers());
    CapturedMembers(texts, RecommendationNumbers());
    UniqueMembers(alertIds);
    UniqueMembers(recIds);
    alerts := UniqueInt64(alertIds);
    recommendations := UniqueInt64(recIds);
  }

  /** A message that survives de-duplication. */
  predicate Visible(message: string) {
    TrimSpace(message) != ""
  }

  ghost predicate AllVisible(messages: seq<string>) {
    forall k | 0 <= k < |messages| :: Visible(messages[k])
  }

  lemma DedupeNeverEmpties(messages: seq<string>)
    ensures AllVisible(messages) ==> (Dedupe(messages) == [] <==> messages == [])
  {
    DedupeMembers(messages);
    if messages != [] && AllVisible(messages) {
      assert Visible(messages[0]) && TrimSpace(messages[0]) in Dedupe(messages);
    }
  }

  /** De-duplication never empties a non-empty list of visible messages. */
  method DedupeValidationMessages(messages: seq<string>) returns (out: seq<string>)
    ensures out == Dedupe(messages)
    ensures AllVisible(messages) ==> (out == [] <==> messages == [])
  {
    var seen: set<string> := {};
    out := [];
    for i := 0 to |messages|
      invariant out == Dedupe(messages[..i])
      invariant forall m :: m in seen <==> m in out
    {
      assert messages[..i + 1][..i] == messages[..i];
      var m := TrimSpace(messages[i]);
      if m == "" || m in seen {
        continue;
      }
      seen := seen + {m};
      out := out + [m];
    }
    assert messages[..|messages|] == messages;
    DedupeNeverEmpties(messages);
  }

  lemma {:induction false} TrimKeepsVisible(s: string, i: nat)
    requires i < |s| && !IsSpace(s[i])
    ensures Visible(s)
  {
    TrimLeftKeeps(s, i);
  }

  lemma {:induction false} TrimLeftKeeps(s: string, i: nat)
    requires i < |s| && !IsSpace(s[i])
    ensures TrimRight(TrimLeft(s)) != ""
  {
    if IsSpace(s[0]) {
      TrimLeftKeeps(s[1..], i - 1);
    } else {
      TrimRightKeeps(s, i);
    }
  }

  lemma {:induction false} TrimRightKeeps(s: string, i: nat)
    requires i < |s| && !IsSpace(s[i])
    ensures TrimRight(s) != ""
  {
    if IsSpace(s[|s| - 1]) {
      TrimRightKeeps(s[..|s| - 1], i);
    }
  }

  // ---------------------------------------------------------------- the checks

  method Report(errors: seq<string>, subject: string, complaint: string) returns (out: seq<string>)
    requires AllVisible(errors) && subject != "" && !IsSpace(subject[0])
    ensures out == errors + [subject + complaint] && AllVisible(out)
  {
    TrimKeepsVisible(subject + complaint, 0);
    out := errors + [subject + complaint];
  }

  method CheckBasics(a: ChatAnswer) returns (out: seq<string>, confidence: Confidence)
    ensures AllVisible(out)
    ensures out == []
           <==> TrimSpace(a.answer) != "" && TrimSpace(a.summary) != "" && !a.confidence.UnknownLevel?
                && a.supportingFacts != []
    ensures confidence == if a.confidence.UnknownLevel? then Low else a.confidence
  {
    out, confidence := [], a.confidence;
    if TrimSpace(a.answer) == "" {
      out := Report(out, "answer", " text is empty");
    }
    if TrimSpace(a.summary) == "" {
      out := Report(out, "summary", " is empty");
    }
    match confidence {
      case UnknownLevel(_) =>
        out := Report(out, "invalid", " confidence level");
        confidence := Low;
      case _ =>
    }
    if a.supportingFacts == [] {
      out := Report(out, "supporting", " facts are required");
    }
  }

  method CheckTexts(errors: seq<string>, texts: seq<string>) returns (out: seq<string>)
    requires AllVisible(errors)
    ensures AllVisible(out)
    ensures out == [] <==> errors == [] && forall k | 0 <= k < |texts| :: TextAcceptable(texts[k])
  {
    out := errors;
    for i := 0 to |texts|
      invariant AllVisible(out)
      invariant out == [] <==> errors == [] && forall k | 0 <= k < i :: TextAcceptable(texts[k])
    {
      var lower := ToLower(texts[i]);
      if ContainsAny(lower, AUTO_ACTION_CLAIMS) {
        out := Report(out, "answer", " contains forbidden auto-action claim");
      }
      if ContainsAny(lower, DIRECT_ACCESS_CLAIMS) {
        out := Report(out, "answer", " contains forbidden direct database/ozon access claim");
      }
      if ContainsAny(lower, SECRET_MARKERS) {
        out := Report(out, "answer", " contains forbidden secret/raw marker");
      }
    }
  }

  method CheckCitedIds(errors: seq<string>, ids: seq<int>, known: set<int>, hasContext: bool, kind: string)
      returns (out: seq<string>)
    requires AllVisible(errors)
    ensures AllVisible(out)
    ensures out == [] <==> errors == [] && CitesOnly(ids, known, hasContext)
  {
    out := errors;
    for i := 0 to |ids|
      invariant AllVisible(out)
      invariant out == [] <==> errors == [] && CitesOnly(ids[..i], known, hasContext)
    {
      if ids[i] <= 0 {
        out := Report(out, "related", " " + kind + " id must be > 0");
        continue;
      }
      if !hasContext {
        out := Report(out, "related", " " + kind + " id not found in context: " + Decimal(ids[i]));
        continue;
      }
      if ids[i] !in known {
        out := Report(out, "related", " " + kind + " id not found in context: " + Decimal(ids[i]));
      }
    }
    assert ids[..|ids|] == ids;
  }

  method CheckSupportId(errors: seq<string>, sf: SupportingFact, source: string, ghost view: Option<ContextView>,
                        hasContext: bool, alerts: set<int>, recommendations: set<int>)
      returns (out: seq<string>)
    requires AllVisible(errors) && source == SourceOf(sf)
    requires hasContext == view.Some? && alerts == KnownAlerts(view) && recommendations == KnownRecommendations(view)
    ensures AllVisible(out)
    ensures out == [] <==> errors == [] && KnownSubject(sf, view)
  {
    out := errors;
    if sf.id.Some? && hasContext {
      if source == "alert" {
        if sf.id.value !in alerts {
          out := Report(out, "supporting", " fact alert id not found in context: " + Decimal(sf.id.value));
        }
      }
      if source == "recommendation" {
        if sf.id.value !in recommendations {
          out := Report(out, "supporting", " fact recommendation id not found in context: " + Decimal(sf.id.value));
        }
      }
    }
  }

  method CheckSupport(errors: seq<string>, facts: seq<SupportingFact>, ghost view: Option<ContextView>,
                      hasContext: bool,
                      alerts: set<int>, recommendations: set<int>)
      returns (out: seq<string>, warnings: seq<string>)
    requires AllVisible(errors)
    requires hasContext == view.Some? && alerts == KnownAlerts(view) && recommendations == KnownRecommendations(view)
    ensures AllVisible(out)
    ensures out == [] <==> errors == [] && forall k | 0 <= k < |facts| :: SupportAcceptable(facts[k], view)
    ensures warnings == FlatMap(facts, UnknownSource())
  {
    hide FlatMap, IsAllowedSource, KnownSubject;
    FlatMapNone(facts, UnknownSource());
    out, warnings := errors, [];
    for i := 0 to |facts|
      invariant AllVisible(out)
      invariant warnings == FlatMap(facts[..i], UnknownSource())
      invariant out == [] <==> errors == [] && forall k | 0 <= k < i :: SupportAcceptable(facts[k], view)
    {
      var sf := facts[i];
      FlatMapStep(facts, UnknownSource(), i);
      if TrimSpace(sf.fact) == "" {
        out := Report(out, "supporting", " fact " + Decimal(i + 1) + " is empty");
      }
      var source := TrimSpace(ToLower(sf.source));
      if source == "" {
        out := Report(out, "supporting", " fact " + Decimal(i + 1) + " source is empty");
        continue;
      }
      if !IsAllowedSource(source) {
        warnings := warnings + ["unknown supporting fact source: " + sf.source];
      }
      out := CheckSupportId(out, sf, source, view, hasContext, alerts, recommendations);
    }
    assert facts[..|facts|] == facts;
  }

  method CheckMentioned(errors: seq<string>, ids: seq<int>, known: set<int>, kind: string) returns (out: seq<string>)
    requires AllVisible(errors)
    ensures AllVisible(out)
    ensures out == [] <==> errors == [] && forall id | id in ids :: id in known
  {
    out := errors;
    for i := 0 to |ids|
      invariant AllVisible(out)
      invariant out == [] <==> errors == [] && forall id | id in ids[..i] :: id in known
    {
      assert ids[..i + 1] == ids[..i] + [ids[i]];
      if ids[i] !in known {
        out := Report(out, "text", " references " + kind + " id not found in context: " + Decimal(ids[i]));
      }
    }
    assert ids[..|ids|] == ids;
  }

  method FindLimitationSource(a: ChatAnswer) returns (found: bool)
    ensures found == CitesLimitation(a)
  {
    found := false;
    for i := 0 to |a.supportingFacts|
      invariant !found
      invariant forall k | 0 <= k < i :: !IsLimitationSource(a.supportingFacts[k])
    {
      if ToLower(TrimSpace(a.supportingFacts[i].source)) == "limitation" {
        return true;
      }
    }
  }

  method CheckWithoutFacts(errors: seq<string>, a: ChatAnswer, isUnsupported: bool, confidence: Confidence)
      returns (out: seq<string>)
    requires AllVisible(errors) && a.supportingFacts != []
    ensures AllVisible(out)
    ensures out == []
           <==> errors == [] && (isUnsupported || confidence == Low) && a.limitations != [] && CitesLimitation(a)
  {
    out := errors;
    if !isUnsupported && confidence != Low {
      out := Report(out, "answer", " confidence must be low when no facts are available");
    }
    if a.limitations == [] {
      out := Report(out, "answer", " must include limitations when no facts are available");
    }
    var hasLimitationSource := FindLimitationSource(a);
    if !hasLimitationSource {
      out := Report(out, "supporting", " facts must include limitation source when no facts are available");
    }
  }

  method CheckUnsupported(errors: seq<string>, a: ChatAnswer) returns (out: seq<string>)
    requires AllVisible(errors)
    ensures AllVisible(out)
    ensures out == [] <==> errors == [] && a.limitations != [] && CitesLimitation(a)
  {
    out := errors;
    if a.limitations == [] {
      out := Report(out, "unsupported", " answer must include limitations");
    }
    var hasLimitationSource := FindLimitationSource(a);
    if !hasLimitationSource {
      out := Report(out, "unsupported", " answer must include limitation supporting fact");
    }
  }

  /** Without facts: low confidence, stated limitations and, when facts are cited at all, a limitation
      among them. An answer that cites nothing has been rejected before. */
  method CheckHonesty(errors: seq<string>, a: ChatAnswer, view: Option<ContextView>, confidence: Confidence)
      returns (out: seq<string>)
    requires AllVisible(errors) && (a.supportingFacts == [] ==> errors != [])
    requires errors == [] ==> confidence == a.confidence
    ensures AllVisible(out)
    ensures out == [] <==> errors == [] && HonestWithoutFacts(a, view)
  {
    out := errors;
    if !HasFacts(view) {
      if a.supportingFacts != [] {
        out := CheckWithoutFacts(out, a, IsUnsupported(view), confidence);
      } else {
        if !IsUnsupported(view) && confidence != Low {
          out := Report(out, "answer", " confidence must be low when no facts are available");
        }
        if a.limitations == [] {
          out := Report(out, "answer", " must include limitations when no facts are available");
        }
      }
    }
    if IsUnsupported(view) {
      out := CheckUnsupported(out, a);
    }
  }

  // ---------------------------------------------------------------- confidence

  function DowngradeConfidence(level: Confidence): Confidence {
    match level
    case High => Medium
    case Medium => Low
    case _ => Low
  }

  function Rank(level: Confidence): nat {
    match level
    case High => 2
    case Medium => 1
    case _ => 0
  }

  predicate SaysNoData(limitations: seq<string>) {
    Contains(ToLower(Join(limitations, " ")), "no factual data")
  }

  function Count(b: bool): nat {
    if b then 1 else 0
  }

  /** The context has limitations the answer does not reflect. */
  predicate IgnoresLimitations(a: ChatAnswer, v: ContextView) {
    v.limitations != [] && a.limitations == [] && !ContainsAny(ToLower(TrimSpace(a.answer)), LIMITATION_WORDING)
  }

  predicate HasCriticalLimitation(v: ContextView) {
    AnyMentions(v.limitations, CRITICAL_LIMITATIONS)
  }

  predicate OverstatesAdvertising(a: ChatAnswer, v: ContextView) {
    AnyMentions(v.limitations, ADS_UNAVAILABLE) && AnyMentions(AnswerTexts(a), AD_SPECIFICS)
  }

  predicate OverstatesCategory(a: ChatAnswer, v: ContextView) {
    AnyMentions(v.limitations, APPROXIMATE_CATEGORY) && AnyMentions(AnswerTexts(a), EXACT_CATEGORY_CLAIMS)
  }

  /** The number of reasons to lower the confidence of an answer by one level. */
  function Demotions(a: ChatAnswer, v: ContextView): nat {
    Count(IgnoresLimitations(a, v)) + Count(HasCriticalLimitation(v)) + Count(OverstatesAdvertising(a, v))
    + Count(OverstatesCategory(a, v)) + Count(v.stats.truncated) + Count(v.stats.failedTools > 0)
  }

  /** Missing data leaves no confidence at all. */
  predicate ForcedLow(v: ContextView) {
    HasCriticalLimitation(v) && SaysNoData(v.limitations)
  }

  /** How much confidence is left: the stated level less one per demotion, never below low. */
  function RemainingRank(a: ChatAnswer, view: Option<ContextView>): nat {
    var stated := Rank(a.confidence);
    if view.None? then stated
    else if ForcedLow(view.value) || stated <= Demotions(a, view.value) then 0
    else stated - Demotions(a, view.value)
  }

  /** What a warning can be about. */
  datatype Doubt = Unreflected | NoFactualData | OverstatedAds | OverstatedCategory
    | TruncatedContext | FailedTools

  function WarningText(doubt: Doubt): string {
    match doubt
    case Unreflected => "context" + " limitations were not reflected in answer"
    case NoFactualData => "critical" + " no-data limitation forces low confidence"
    case OverstatedAds => "answer" + " may overstate advertising precision despite context limitations"
    case OverstatedCategory => "answer" + " claims exact category insight despite approximate category limitations"
    case TruncatedContext => "context" + " is truncated"
    case FailedTools => "some" + " tools failed while building context"
  }

  function Warn(b: bool, doubt: Doubt): seq<string> {
    if b then [WarningText(doubt)] else []
  }

  function LimitationWarnings(unreflected: bool, noData: bool, ads: bool, category: bool): seq<string> {
    Warn(unreflected, Unreflected) + Warn(noData, NoFactualData) + Warn(ads, OverstatedAds)
    + Warn(category, OverstatedCategory)
  }

  /** The warnings about confidence, in order. A critical limitation other than missing data has none. */
  function ConfidenceWarnings(a: ChatAnswer, v: ContextView): seq<string> {
    LimitationWarnings(IgnoresLimitations(a, v), ForcedLow(v), OverstatesAdvertising(a, v), OverstatesCategory(a, v))
    + Warn(v.stats.truncated, TruncatedContext)
    + Warn(v.stats.failedTools > 0, FailedTools)
  }

  function WarningsOf(a: ChatAnswer, view: Option<ContextView>): seq<string> {
    FlatMap(a.supportingFacts, UnknownSource()) + if view.Some? then ConfidenceWarnings(a, view.value) else []
  }

  method AnyTextMentions(texts: seq<string>, phrases: seq<string>) returns (found: bool)
    ensures found == AnyMentions(texts, phrases)
  {
    found := false;
    for i := 0 to |texts|
      invariant !found
      invariant forall k | 0 <= k < i :: !ContainsAny(ToLower(texts[k]), phrases)
    {
      if ContainsAny(ToLower(texts[i]), phrases) {
        return true;
      }
    }
  }

  function Lowered(rank: nat, steps: nat): nat {
    if rank <= steps then 0 else rank - steps
  }

  method LowerForLimitations(stated: Confidence, unreflected: bool, critical: bool, noData: bool, ads: bool,
                             category: bool)
      returns (level: Confidence, warnings: seq<string>)
    requires !stated.UnknownLevel?
    ensures !level.UnknownLevel?
    ensures warnings == LimitationWarnings(unreflected, critical && noData, ads, category)
    ensures critical && noData ==> Rank(level) == 0
    ensures !(critical && noData) ==>
      Rank(level) == Lowered(Rank(stated), Count(unreflected) + Count(critical) + Count(ads) + Count(category))
  {
    hide WarningText;
    level, warnings := stated, [];
    if unreflected {
      warnings := warnings + [WarningText(Unreflected)];
      level := DowngradeConfidence(level);
    }
    if critical {
      if noData {
        level := Low;
        warnings := warnings + [WarningText(NoFactualData)];
      } else {
        level := DowngradeConfidence(level);
      }
    }
    if ads {
      warnings := warnings + [WarningText(OverstatedAds)];
      level := DowngradeConfidence(level);
    }
    if category {
      warnings := warnings + [WarningText(OverstatedCategory)];
      level := DowngradeConfidence(level);
    }
  }

  method JudgeAdvertising(a: ChatAnswer, v: ContextView) returns (b: bool)
    ensures b == OverstatesAdvertising(a, v)
  {
    b := AnyTextMentions(v.limitations, ADS_UNAVAILABLE);
    if b {
      b := AnyTextMentions(AnswerTexts(a), AD_SPECIFICS);
    }
  }

  method JudgeCategory(a: ChatAnswer, v: ContextView) returns (b: bool)
    ensures b == OverstatesCategory(a, v)
  {
    b := AnyTextMentions(v.limitations, APPROXIMATE_CATEGORY);
    if b {
      b := AnyTextMentions(AnswerTexts(a), EXACT_CATEGORY_CLAIMS);
    }
  }

  method JudgeCritical(v: ContextView) returns (b: bool)
    ensures b == HasCriticalLimitation(v)
  {
    b := AnyTextMentions(v.limitations, CRITICAL_LIMITATIONS);
  }

  lemma NothingToReflect(a: ChatAnswer, v: ContextView)
    requires v.limitations == []
    ensures !IgnoresLimitations(a, v) && !HasCriticalLimitation(v)
    ensures !OverstatesAdvertising(a, v) && !OverstatesCategory(a, v)
    ensures LimitationWarnings(false, false, false, false) == []
  {
  }

  method SettleConfidence(stated: Confidence, a: ChatAnswer, v: ContextView)
      returns (level: Confidence, warnings: seq<string>)
    requires stated == if a.confidence.UnknownLevel? then Low else a.confidence
    ensures !level.UnknownLevel?
    ensures Rank(level) == RemainingRank(a, Some(v))
    ensures warnings == ConfidenceWarnings(a, v)
  {
    hide WarningText, LimitationWarnings, AnyMentions, IgnoresLimitations, SaysNoData;
    level, warnings := stated, [];
    var ads := JudgeAdvertising(a, v);
    var category := JudgeCategory(a, v);
    var critical := JudgeCritical(v);
    if v.limitations == [] {
      NothingToReflect(a, v);
    } else {
      level, warnings :=
        LowerForLimitations(stated, IgnoresLimitations(a, v), critical, SaysNoData(v.limitations), ads, category);
    }
    if v.stats.truncated {
      warnings := warnings + [WarningText(TruncatedContext)];
      level := DowngradeConfidence(level);
    }
    if v.stats.failedTools > 0 {
      warnings := warnings + [WarningText(FailedTools)];
      level := DowngradeConfidence(level);
    }
  }

  /** Every check in turn: no error exactly when the answer keeps every rule. */
  method CheckAnswer(a: ChatAnswer, view: Option<ContextView>)
      returns (errors: seq<string>, warnings: seq<string>, stated: Confidence)
    ensures AllVisible(errors) && (errors == [] <==> Acceptable(a, view))
    ensures warnings == FlatMap(a.supportingFacts, UnknownSource())
    ensures stated == if a.confidence.UnknownLevel? then Low else a.confidence
  {
    hide FlatMap, TextAcceptable, SupportAcceptable, AllVisible;
    var texts := AnswerTexts(a);
    var alerts, recommendations := KnownAlerts(view), KnownRecommendations(view);
    errors, stated := CheckBasics(a);
    errors := CheckTexts(errors, texts);
    errors := CheckCitedIds(errors, a.alertIds, alerts, view.Some?, "alert");
    errors := CheckCitedIds(errors, a.recommendationIds, recommendations, view.Some?, "recommendation");
    errors, warnings := CheckSupport(errors, a.supportingFacts, view, view.Some?, alerts, recommendations);
    if view.Some? {
      var mentionedAlerts, mentionedRecommendations := ExtractMentionedEntityIds(texts);
      errors := CheckMentioned(errors, mentionedAlerts, alerts, "alert");
      errors := CheckMentioned(errors, mentionedRecommendations, recommendations, "recommendation");
    }
    errors := CheckHonesty(errors, a, view, stated);
  }

  lemma WarningsAre(a: ChatAnswer, view: Option<ContextView>)
    ensures WarningsOf(a, view)
         == if view.None? then FlatMap(a.supportingFacts, UnknownSource())
            else FlatMap(a.supportingFacts, UnknownSource()) + ConfidenceWarnings(a, view.value)
    ensures view.None? ==> RemainingRank(a, view) == Rank(a.confidence)
  {
    hide FlatMap, ConfidenceWarnings;
  }

  method ValidateView(a: ChatAnswer, view: Option<ContextView>) returns (r: Validation)
    ensures r.isValid == (r.errors == []) && (r.isValid <==> Acceptable(a, view))
    ensures !r.finalConfidence.UnknownLevel? && Rank(r.finalConfidence) == RemainingRank(a, view)
    ensures r.warnings == Dedupe(WarningsOf(a, view))
  {
    hide Acceptable, AllVisible, Dedupe, FlatMap, WarningsOf, ConfidenceWarnings, RemainingRank;
    var errors, warnings, final := CheckAnswer(a, view);
    WarningsAre(a, view);
    if view.Some? {
      var more;
      final, more := SettleConfidence(final, a, view.value);
      warnings := warnings + more;
    }
    var reported := DedupeValidationMessages(errors);
    var warned := DedupeValidationMessages(warnings);
    r := Validation(reported == [], reported, warned, final);
  }

  /** Validation: valid exactly when the answer keeps every rule, with the confidence that remains. */
  method Validate(answer: Option<ChatAnswer>, ctx: FactContext?)
      returns (r: Result<Validation, ValidateError>)
    ensures answer.None? <==> r == Err(AnswerRequired)
    ensures answer.Some? ==>
      var view := if ctx == null then None else Some(ctx.View());
      && r.Ok?
      && r.value.isValid == (r.value.errors == [])
      && (r.value.isValid <==> Acceptable(answer.value, view))
      && !r.value.finalConfidence.UnknownLevel?
      && Rank(r.value.finalConfidence) == RemainingRank(answer.value, view)
      && r.value.warnings == Dedupe(WarningsOf(answer.value, view))
  {
    if answer.None? {
      return Err(AnswerRequired);
    }
    hide Acceptable, Dedupe, WarningsOf, RemainingRank;
    var validation := ValidateView(answer.value, if ctx == null then None else Some(ctx.View()));
    r := Ok(validation);
  }
}
