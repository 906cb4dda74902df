/** The phrases the validator looks for, each written out: what a lower-cased text must contain to be rejected, and what
    a limitation or an answer must contain to cost confidence. */
module AnswerPhrases {
  import opened Wrappers
  import opened Text
  import opened FactContexts
  import opened AnswerValidators

  /** The text claims, in Russian, that a price, a campaign or a budget was changed. */
  predicate ClaimsChange(text: string) {
    || Contains(text, "я изменил цену") || Contains(text, "цена изменена") || Contains(text, "я снизил цену")
    || Contains(text, "я повысил цену") || Contains(text, "я остановил кампанию")
    || Contains(text, "кампания остановлена") || Contains(text, "я запустил кампанию")
    || Contains(text, "я изменил бюджет") || Contains(text, "бюджет изменён")
  }

  lemma ClaimsChangeIff(text: string)
    ensures ClaimsChange(text) <==> exists i | 0 <= i < 9 :: Contains(text, AUTO_ACTION_CLAIMS[i])
  {
    hide Contains;
    var claims := AUTO_ACTION_CLAIMS;
    assert claims[0] == "я изменил цену" && claims[1] == "цена изменена" && claims[2] == "я снизил цену";
    assert claims[3] == "я повысил цену" && claims[4] == "я остановил кампанию";
    assert claims[5] == "кампания остановлена" && claims[6] == "я запустил кампанию";
    assert claims[7] == "я изменил бюджет" && claims[8] == "бюджет изменён";
  }

  /** The text claims, in Russian, that a record was made, closed or sent. */
  predicate ClaimsRecord(text: string) {
    || Contains(text, "я создал поставку") || Contains(text, "поставка создана") || Contains(text, "я закрыл alert")
    || Contains(text, "alert закрыт") || Contains(text, "я принял рекомендацию")
    || Contains(text, "рекомендация принята") || Contains(text, "я обновил данные в ozon")
    || Contains(text, "я отправил запрос в ozon")
  }

  lemma ClaimsRecordIff(text: string)
    ensures ClaimsRecord(text) <==> exists i | 9 <= i < 17 :: Contains(text, AUTO_ACTION_CLAIMS[i])
  {
    hide Contains;
    var claims := AUTO_ACTION_CLAIMS;
    assert claims[9] == "я создал поставку" && claims[10] == "поставка создана" && claims[11] == "я закрыл alert";
    assert claims[12] == "alert закрыт" && claims[13] == "я принял рекомендацию";
    assert claims[14] == "рекомендация принята" && claims[15] == "я обновил данные в ozon";
    assert claims[16] == "я отправил запрос в ozon";
  }

  /** The text claims either in English. */
  predicate ClaimsActionInEnglish(text: string) {
    || Contains(text, "i changed the price") || Contains(text, "price has been changed")
    || Contains(text, "i lowered the price") || Contains(text, "i increased the price")
    || Contains(text, "i stopped the campaign") || Contains(text, "campaign has been stopped")
    || Contains(text, "i launched the campaign") || Contains(text, "i changed the budget")
    || Contains(text, "budget has been changed") || Contains(text, "i created a replenishment")
    || Contains(text, "i closed the alert") || Contains(text, "i accepted the recommendation")
    || Contains(text, "i updated ozon")
  }

  lemma ClaimsActionInEnglishIff(text: string)
    ensures ClaimsActionInEnglish(text) <==> exists i | 17 <= i < 30 :: Contains(text, AUTO_ACTION_CLAIMS[i])
  {
    hide Contains;
    var claims := AUTO_ACTION_CLAIMS;
    assert claims[17] == "i changed the price" && claims[18] == "price has been changed";
    assert claims[19] == "i lowered the price" && claims[20] == "i increased the price";
    assert claims[21] == "i stopped the campaign" && claims[22] == "campaign has been stopped";
    assert claims[23] == "i launched the campaign" && claims[24] == "i changed the budget";
    assert claims[25] == "budget has been changed" && claims[26] == "i created a replenishment";
    assert claims[27] == "i closed the alert" && claims[28] == "i accepted the recommendation";
    assert claims[29] == "i updated ozon";
  }

  predicate ClaimsAction(text: string) {
    ClaimsChange(text) || ClaimsRecord(text) || ClaimsActionInEnglish(text)
  }

  lemma ClaimsActionIff(text: string)
    ensures ClaimsAction(text) <==> ContainsAny(text, AUTO_ACTION_CLAIMS)
  {
    hide Contains, ClaimsChange, ClaimsRecord, ClaimsActionInEnglish;
    assert |AUTO_ACTION_CLAIMS| == 30;
    ClaimsChangeIff(text);
    ClaimsRecordIff(text);
    ClaimsActionInEnglishIff(text);
  }

  /** The text claims that the database or the marketplace was asked directly. */
  predicate ClaimsAccess(text: string) {
    || Contains(text, "я сходил в базу") || Contains(text, "я запросил базу данных") || Contains(text, "я выполнил sql")
    || Contains(text, "select *") || Contains(text, "я проверил ozon напрямую") || Contains(text, "я обратился в ozon")
    || Contains(text, "i queried the database") || Contains(text, "i ran sql")
    || Contains(text, "i checked ozon directly")
  }

  lemma ClaimsAccessIff(text: string)
    ensures ClaimsAccess(text) <==> ContainsAny(text, DIRECT_ACCESS_CLAIMS)
  {
    hide Contains;
    var claims := DIRECT_ACCESS_CLAIMS;
    assert claims[0] == "я сходил в базу" && claims[1] == "я запросил базу данных" && claims[2] == "я выполнил sql";
    assert claims[3] == "select *" && claims[4] == "я проверил ozon напрямую" && claims[5] == "я обратился в ozon";
    assert claims[6] == "i queried the database" && claims[7] == "i ran sql";
    assert claims[8] == "i checked ozon directly" && |claims| == 9;
  }

  /** The text shows a secret or raw data. */
  predicate ShowsSecret(text: string) {
    || Contains(text, "sk-") || Contains(text, "openai_api_key") || Contains(text, "api_key")
    || Contains(text, "authorization: bearer") || Contains(text, "password") || Contains(text, "secret")
    || Contains(text, "raw_payload") || Contains(text, "raw_ai_response") || Contains(text, "sql query")
  }

  lemma ShowsSecretIff(text: string)
    ensures ShowsSecret(text) <==> ContainsAny(text, SECRET_MARKERS)
  {
    hide Contains;
    var markers := SECRET_MARKERS;
    assert markers[0] == "sk-" && markers[1] == "openai_api_key" && markers[2] == "api_key";
    assert markers[3] == "authorization: bearer" && markers[4] == "password" && markers[5] == "secret";
    assert markers[6] == "raw_payload" && markers[7] == "raw_ai_response" && markers[8] == "sql query";
    assert |markers| == 9;
  }

  /** The text speaks of a limitation. */
  predicate WordsLimitation(text: string) {
    || Contains(text, "огранич") || Contains(text, "недостаточно данных") || Contains(text, "limited")
    || Contains(text, "limitation") || Contains(text, "недоступ")
  }

  lemma WordsLimitationIff(text: string)
    ensures WordsLimitation(text) <==> ContainsAny(text, LIMITATION_WORDING)
  {
    hide Contains;
    var words := LIMITATION_WORDING;
    assert words[0] == "огранич" && words[1] == "недостаточно данных" && words[2] == "limited";
    assert words[3] == "limitation" && words[4] == "недоступ" && |words| == 5;
  }

  /** The limitation is a critical one. */
  predicate IsCritical(text: string) {
    || Contains(text, "no factual data") || Contains(text, "context was truncated") || Contains(text, "failed")
    || Contains(text, "unavailable") || Contains(text, "not available") || Contains(text, "недоступ")
  }

  lemma IsCriticalIff(text: string)
    ensures IsCritical(text) <==> ContainsAny(text, CRITICAL_LIMITATIONS)
  {
    hide Contains;
    var phrases := CRITICAL_LIMITATIONS;
    assert phrases[0] == "no factual data" && phrases[1] == "context was truncated" && phrases[2] == "failed";
    assert phrases[3] == "unavailable" && phrases[4] == "not available" && phrases[5] == "недоступ" && |phrases| == 6;
  }

  /** The limitation is about advertising data. */
  predicate LacksAds(text: string) {
    || Contains(text, "advertising unavailable") || Contains(text, "no advertising data")
    || Contains(text, "advertising data is not available") || Contains(text, "реклам") || Contains(text, "недоступ")
  }

  lemma LacksAdsIff(text: string)
    ensures LacksAds(text) <==> ContainsAny(text, ADS_UNAVAILABLE)
  {
    hide Contains;
    var phrases := ADS_UNAVAILABLE;
    assert phrases[0] == "advertising unavailable" && phrases[1] == "no advertising data";
    assert phrases[2] == "advertising data is not available" && phrases[3] == "реклам" && phrases[4] == "недоступ";
    assert |phrases| == 5;
  }

  /** The limitation is about categories. */
  predicate BlursCategories(text: string) {
    || Contains(text, "category filtering may be approximate") || Contains(text, "category filtering depends")
    || Contains(text, "приблиз") || Contains(text, "категор")
  }

  lemma BlursCategoriesIff(text: string)
    ensures BlursCategories(text) <==> ContainsAny(text, APPROXIMATE_CATEGORY)
  {
    hide Contains;
    var phrases := APPROXIMATE_CATEGORY;
    assert phrases[0] == "category filtering may be approximate" && phrases[1] == "category filtering depends";
    assert phrases[2] == "приблиз" && phrases[3] == "категор" && |phrases| == 4;
  }

  /** The text speaks of advertising figures. */
  predicate NamesAdFigures(text: string) {
    || Contains(text, "roas") || Contains(text, "spend") || Contains(text, "campaign") || Contains(text, "кампан")
    || Contains(text, "расход")
  }

  lemma NamesAdFiguresIff(text: string)
    ensures NamesAdFigures(text) <==> ContainsAny(text, AD_SPECIFICS)
  {
    hide Contains;
    var words := AD_SPECIFICS;
    assert words[0] == "roas" && words[1] == "spend" && words[2] == "campaign" && words[3] == "кампан";
    assert words[4] == "расход" && |words| == 5;
  }

  /** The text claims exactness by category. */
  predicate ClaimsExactCategory(text: string) {
    || Contains(text, "точно по катег") || Contains(text, "exactly by category") || Contains(text, "exact category")
  }

  lemma ClaimsExactCategoryIff(text: string)
    ensures ClaimsExactCategory(text) <==> ContainsAny(text, EXACT_CATEGORY_CLAIMS)
  {
    hide Contains;
    var claims := EXACT_CATEGORY_CLAIMS;
    assert claims[0] == "точно по катег" && claims[1] == "exactly by category" && claims[2] == "exact category";
    assert |claims| == 3;
  }

  /** A text is acceptable exactly when, in any case, it claims neither actions nor direct access and shows no
      secret. */
  lemma TextAcceptableIff(text: string)
    ensures TextAcceptable(text) <==>
      !ClaimsAction(ToLower(text)) && !ClaimsAccess(ToLower(text)) && !ShowsSecret(ToLower(text))
  {
    ClaimsActionIff(ToLower(text));
    ClaimsAccessIff(ToLower(text));
    ShowsSecretIff(ToLower(text));
    hide ClaimsAction, ClaimsAccess, ShowsSecret, ContainsAny, ToLower;
  }

  /** What costs an answer confidence, in its context's limitations and its own texts. */
  lemma DemotionsIff(a: ChatAnswer, v: ContextView)
    ensures IgnoresLimitations(a, v) <==>
      v.limitations != [] && a.limitations == [] && !WordsLimitation(ToLower(TrimSpace(a.answer)))
    ensures HasCriticalLimitation(v) <==> exists l :: l in v.limitations && IsCritical(ToLower(l))
    ensures OverstatesAdvertising(a, v) <==>
      && (exists l :: l in v.limitations && LacksAds(ToLower(l)))
      && (exists text :: text in AnswerTexts(a) && NamesAdFigures(ToLower(text)))
    ensures OverstatesCategory(a, v) <==>
      && (exists l :: l in v.limitations && BlursCategories(ToLower(l)))
      && (exists text :: text in AnswerTexts(a) && ClaimsExactCategory(ToLower(text)))
    ensures SaysNoData(v.limitations) <==> Contains(ToLower(Join(v.limitations, " ")), "no factual data")
  {
    WordsLimitationIff(ToLower(TrimSpace(a.answer)));
    forall text
      ensures IsCritical(text) <==> ContainsAny(text, CRITICAL_LIMITATIONS)
      ensures LacksAds(text) <==> ContainsAny(text, ADS_UNAVAILABLE)
      ensures BlursCategories(text) <==> ContainsAny(text, APPROXIMATE_CATEGORY)
      ensures NamesAdFigures(text) <==> ContainsAny(text, AD_SPECIFICS)
      ensures ClaimsExactCategory(text) <==> ContainsAny(text, EXACT_CATEGORY_CLAIMS)
    {
      IsCriticalIff(text);
      LacksAdsIff(text);
      BlursCategoriesIff(text);
      NamesAdFiguresIff(text);
      ClaimsExactCategoryIff(text);
    }
    hide IsCritical, LacksAds, BlursCategories, NamesAdFigures, ClaimsExactCategory, WordsLimitation, ContainsAny;
    hide Contains, ToLower, TrimSpace, AnswerTexts, Join;
    Mentioned(v.limitations, CRITICAL_LIMITATIONS);
    Mentioned(v.limitations, ADS_UNAVAILABLE);
    Mentioned(v.limitations, APPROXIMATE_CATEGORY);
    Mentioned(AnswerTexts(a), AD_SPECIFICS);
    Mentioned(AnswerTexts(a), EXACT_CATEGORY_CLAIMS);
  }

  lemma Mentioned(texts: seq<string>, phrases: seq<string>)
    ensures AnyMentions(texts, phrases) <==> exists text :: text in texts && ContainsAny(ToLower(text), phrases)
  {
    hide ContainsAny, ToLower;
    if text :| text in texts && ContainsAny(ToLower(text), phrases) {
      var k :| 0 <= k < |texts| && texts[k] == text;
    }
  }
}
