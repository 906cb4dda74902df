# Verified model of the marketplace backend

A Dafny model of the five backend components that carry logic rather than plumbing, with proofs of what they promise.
`dafny verify dfyconfig.toml` checks all of it.

**Chat** (`context_value`, `context_paths`, `references`, `fact_context`, `context_assembler`, `context_guarantees`,
`context_readings`, `mention_patterns`, `answer_validator`, `answer_phrases`, `answer_readings`, `answer_guarantees`).
Tool results are sanitized, folded into a fact context and possibly shrunk; a written answer is then checked against
that context and its confidence lowered. The main results span both halves: an answer keeps any confidence above low
only on a context without truncation, failures or missing facts, because the limitation texts one file writes are the
ones the other searches for, and whatever a valid answer cites comes from a tool result.

**Alerts** (`alert_types`, `alert_identity`, `alert_rules`, `alert_guards`, `alert_outcomes`, `alert_runs`,
`alert_sharing`, `alert_service`). Four rule groups produce results that are written to alerts keyed by a fingerprint,
inside a run record. The fingerprint identifies its subject, a whole run is idempotent, the only results that can
share an alert are named exactly, and run records and counts are right under every pattern of repository failures.

**Analytics** (`account_metrics`, `sku_metrics`, `critical_skus`, `replenishment`, `advertising_trends`,
`advertising`, `advertising_figures`). Rebuilds are all or nothing and compose; a partial rebuild agrees with a full
one where its window is full and errs in a known direction elsewhere; urgent items are few and come first however long
the list; spend is spread without loss beyond rounding; and lists depend on the set of rows, not on their order,
except where the code leaves ties undecided.

**Admin audit** (`audit_protocol`, `admin_audit`). The log-before, mark-after protocol as a state machine over
interleaved calls whose writes may fail or fail to be confirmed, and the two service calls as runs of it.

**Advertising sync** (`ad_sync`). Paging loops, counters, upserts without a transaction, and windows chained by a
cursor that each job captures when it is created.

`wrappers`, `text`, `sorting`, `batches`, `uniques`, `sums`, `tables`, `paging` and `units` are shared. Code that
changes state is modelled by methods and classes proved against specification functions; what those functions promise
is proved as lemmas about them, and what they mean is stated once more in the raw figures: `context_paths` and
`context_readings` for the context, `answer_phrases` and `answer_readings` for the validator, `alert_guards` and
`alert_outcomes` for the alert rules, `advertising_figures` for the advertising page.

Where the code does not do what one would expect, the model keeps the code's behaviour and says exactly when it
matters:

- `sanitizeContextValue` passes the printed form of a value JSON cannot encode through whole, so sanitizing twice can
  differ from sanitizing once (`ContextValue.PrintedFormEscapesTheCap`, and the exact condition in
  `ContextValue.SanitizeCompose`).
- Upserting one run's results can write fewer alerts than it counts, exactly when a low-stock product is advertised
  through two active links of spending campaigns (`AlertSharing.RunAlertsByCount`, with such metrics in
  `AlertSharing.RunCanShareAnAlert`).
- A range rebuild of SKU metrics sees only the orders of its range, so covers of its first six days can be missing
  (`SkuMetrics.MissingCover`) or too long (`SkuMetrics.TooLongCover`). Demand is right exactly when no hidden day has
  an order (`SkuMetrics.SameDemandIff`), and a cover is missing exactly as `SkuMetrics.MissingCoverIff` says.
- Risk rows of one product in two campaigns can tie, and then their order and their pages are up to the sort and the
  map iteration (`Advertising.SameProductTwoCampaigns`, and exactly when, in the links and campaigns, in
  `Advertising.RiskOrderDetermined`).
- A critical limitation other than missing data lowers an answer's confidence without a warning
  (`AnswerGuarantees.LoweredUnwarned`, and exactly when nothing warns in `AnswerGuarantees.LoweredUnwarnedIff`).
- More stock can raise the out-of-stock risk of a SKU: from one to three pieces up to a larger stock that lasts a day
  at most (`CriticalSkus.FourthPieceRaisesRisk`, and exactly when in `CriticalSkus.RiskFallsWithStock`).
- A status that contains "inactive" counts as active (`Advertising.InactiveIsActive`, `Advertising.InactiveCountsAsActive`).
- An audited action whose completion cannot be written leaves its entry running, while a view in the same position
  tries to mark it failed (`AdminAudit.Service.RunAuditedAction`, `AdminAudit.Service.ViewRawAndFetch`). Which entries
  stay running is said by `AuditProtocol.LeftRunningIff`.
- A sync job reads its cursor when it is created, so two jobs created before either ended both fall back to the
  lookback and can leave days out, and so can a reset of the cursor (`AdSync.TwoFirstJobsLeaveAGap`,
  `AdSync.ResetLeavesAGap`, and exactly when in `AdSync.SyncedDaysHaveNoGap`). A day counts as read only by a run that
  ended after it.

## Model

| member | source | states |
|---|---|---|
| ContextValue.SanitizeCompose | backend/internal/chat/context_assembler.go:241-291 | Sanitizing with loose limits and then with tighter ones equals sanitizing once with the tighter ones, if and only if every kept printed form of an unencodable value is within the tighter cap or already cut to it; equal limits give idempotence, truncated texts included |
| ContextValue.PrintedFormEscapesTheCap | backend/internal/chat/context_assembler.go:279-284 | The law fails without that condition: a value JSON cannot encode is passed through whole the first time and cut the second time |
| ContextValue.SanitizeCleans | backend/internal/chat/context_assembler.go:241-301 | The output has no forbidden key at any depth, no list above the item cap and no text above the text cap plus suffix, if and only if every kept printed form is that short |
| ContextValue.ForbiddenValuesDoNotLeak | backend/internal/chat/context_assembler.go:243-255 | Two values that differ only in what is stored under forbidden keys, at any depth, sanitize to the same output |
| ContextValue.NullStays | backend/internal/chat/context_assembler.go:249-253 | Whether a value vanishes from its object depends neither on the limits nor on having been sanitized before |
| ContextPaths.ForbiddenIff | backend/internal/chat/context_assembler.go:293-301 | A key is forbidden if and only if it contains, in any case, one of the seventeen words, each written out |
| Text.SpacesRead | backend/internal/chat/context_assembler.go:388-394 | The characters that trimming takes away, by their numbers |
| Text.LettersLowered | backend/internal/chat/context_assembler.go:293-301 | Letters keep their place in the alphabet, Latin or Russian; anything else stays |
| ContextPaths.SanitizedAt | backend/internal/chat/context_assembler.go:241-291 | Read along any path of keys and places: the output holds exactly what is reached by harmless keys and places within the item cap, sanitized, in its place; a field that would be null goes |
| ContextPaths.OnlyHarmlessKeysRemain | backend/internal/chat/context_assembler.go:243-255 | Whatever can be reached in the output, at any depth, is reached by keys that contain none of the words |
| ContextPaths.SanitizedLeaf | backend/internal/chat/context_assembler.go:264-290 | Numbers, truth values and texts within the cap stay; a longer text is cut at the cap and marked |
| References.WithReferencesIds | backend/internal/chat/context_assembler.go:330-375 | Adding entities keeps the reference ids distinct, adds exactly the readable ids and never changes an earlier reference |
| References.FirstSightingWins | backend/internal/chat/context_assembler.go:335-350 | What is remembered about an id is what its first sighting said |
| References.SortByIdIncreases | backend/internal/chat/context_assembler.go:167-168 | Sorting references with distinct ids by id gives a strictly increasing list of the same references |
| ContextAssemblers.AddAlertRef | backend/internal/chat/context_assembler.go:330-351 | Appends a reference exactly when the id is readable and new, and keeps the seen set equal to the ids listed |
| ContextAssemblers.AddRecommendationRef | backend/internal/chat/context_assembler.go:353-375 | The same for recommendations |
| ContextAssemblers.AddAlertRefs | backend/internal/chat/context_assembler.go:191-193 | A list of entities is added in order, first sighting first |
| ContextAssemblers.AddRecommendationRefs | backend/internal/chat/context_assembler.go:183-185 | The same for recommendations |
| ContextAssemblers.RouteToolResult | backend/internal/chat/context_assembler.go:174-239 | Each tool's result reaches its own fact section, reference lists and freshness entry, and an unknown tool leaves a limitation; nothing else in the context changes |
| ContextAssemblers.RouteReferences | backend/internal/chat/context_assembler.go:180-205 | The routing for the tools whose results name alerts or recommendations |
| ContextAssemblers.DedupeStrings | backend/internal/chat/context_assembler.go:429-439 | The loop yields the trimmed non-empty items, each at its first place |
| Text.DedupeMembers | backend/internal/chat/context_assembler.go:429-439 | De-duplication keeps exactly the trimmed non-empty items, once each |
| ContextAssemblers.ShrinkContext | backend/internal/chat/context_assembler.go:473-503 | Every section is cut to its own size and the tool results to ten; a map that a section shares with a kept tool result is cut in both; references, limitations and statistics stay |
| ContextAssemblers.AbsorbResult | backend/internal/chat/context_assembler.go:124-145 | One pass of the loop: the sanitized result is kept, its failure counted and noted, its limitations added, its data routed |
| ContextAssemblers.AbsorbResults | backend/internal/chat/context_assembler.go:124-145 | The whole loop: every sanitized result is absorbed, in order |
| ContextAssemblers.NoteNoData | backend/internal/chat/context_assembler.go:147-154 | The no-data note is added exactly when the twelve counted sections are empty |
| ContextAssemblers.FitContext | backend/internal/chat/context_assembler.go:158-165 | A context is shrunk and marked truncated, with the note, exactly when its estimated size exceeds the limit |
| ContextAssemblers.FinishContext | backend/internal/chat/context_assembler.go:147-171 | Everything after the loop, in order: notes, measures, fitting, sorting |
| ContextAssemblers.Assemble | backend/internal/chat/context_assembler.go:59-172 | Rejects an empty question or intent; otherwise builds a fresh context equal to the specification of all its steps |
| ContextGuarantees.AssembledReferencesExact | backend/internal/chat/context_assembler.go:121-145 | Related alerts and recommendations are strictly increasing by id and hold exactly the ids readable from the alert- and recommendation-bearing sanitized results |
| ContextGuarantees.AssembledAlertDetail | backend/internal/chat/context_assembler.go:335-350 | The details of a related alert are those of the first result that mentions its id |
| ContextGuarantees.AssembledRecommendationDetail | backend/internal/chat/context_assembler.go:353-375 | The details of a related recommendation are those of the first result that mentions its id |
| ContextGuarantees.AssembledAlertsReferenced | backend/internal/chat/context_assembler.go:158-168 | Every alert id still shown in a section, shrunk or not, is in the related alerts; a context that was not truncated shows them all |
| ContextGuarantees.AssembledRecommendationsReferenced | backend/internal/chat/context_assembler.go:158-168 | Every recommendation id still shown in a section is in the related recommendations; a context that was not truncated shows them all |
| ContextGuarantees.AssembledSectionsAreResults | backend/internal/chat/context_assembler.go:473-503 | Each kept tool result is the sanitized one, cut only where a cut section shares its map; the latest advertising and ABC results, where kept, hold exactly what their sections show |
| ContextReadings.AlertReadsBack | backend/internal/chat/context_assembler.go:330-351 | An alert written under the keys the tools use is read back field by field |
| ContextReadings.GroupFallsBack | backend/internal/chat/context_assembler.go:343 | Only the group may come under another key, read where the first says nothing |
| ContextReadings.RecommendationReadsBack | backend/internal/chat/context_assembler.go:353-375 | The same for a recommendation |
| ContextReadings.IdsRead | backend/internal/chat/context_assembler.go:404-420 | An id is a whole number, or a double without a fraction, under the key id, and nothing else |
| ContextReadings.FreshnessIff | backend/internal/chat/context_assembler.go:377-386 | Freshness keeps exactly the eight keys for dates and periods, as they were |
| ContextReadings.SourcesRead | backend/internal/chat/context_assembler.go:174-239 | Where each tool names alerts and recommendations: the key, and the objects of the list or the object under it |
| ContextReadings.UnknownToolsNamed | backend/internal/chat/context_assembler.go:235-238 | The note about an unknown tool ends with its name, so different tools leave different notes |
| ContextReadings.StringsRead | backend/internal/chat/context_assembler.go:388-402 | A text is read trimmed; what is not a text reads as none |
| ContextReadings.ItemsCounted | backend/internal/chat/context_assembler.go:449-471 | The item count starts at nothing and grows with each result by its items, or by one for a result kept whole |
| ContextReadings.LatestCounted | backend/internal/chat/context_assembler.go:449-471 | The first filled result of those of which the latest is kept counts for one |
| ContextReadings.SectionsKept | backend/internal/chat/context_assembler.go:473-503 | A truncated context keeps the first five recommendations and contexts of either kind, the first ten of every other list and ten tool results; any other context keeps them all |
| ContextReadings.TruncatedIff | backend/internal/chat/context_assembler.go:156-165 | A context is truncated if and only if its estimate before any cut is above the limit given, or above fifty kilobytes; the other two limits and their defaults |
| ContextReadings.NoSecretIsShown | backend/internal/chat/context_assembler.go:124-165 | In a tool result of an assembled context, truncated or not, whatever can be reached is reached by keys that contain none of the seventeen words |
| ContextGuarantees.AssembledAdmitsFailures | backend/internal/chat/context_assembler.go:139-143 | Failed tools are counted exactly, and any failure leaves a limitation that says so |
| ContextGuarantees.AssembledAdmitsTruncation | backend/internal/chat/context_assembler.go:158-163 | A truncated context carries the truncation note |
| ContextGuarantees.AssembledAdmitsNoData | backend/internal/chat/context_assembler.go:148-153 | A context without facts carries the no-data note |
| ContextGuarantees.AssembledNoData | backend/internal/chat/context_assembler.go:148-165 | Shrinking never turns data into no data: a context lacks facts exactly when the tools gave none |
| ContextGuarantees.AssembledReferencesNeedFacts | backend/internal/chat/context_assembler.go:174-239 | Where there are no facts there are no related alerts or recommendations |
| AnswerValidators.UniqueInt64 | backend/internal/chat/answer_validator.go:293-304 | The loop keeps each id once, at its first place |
| AnswerValidators.UniqueMembers | backend/internal/chat/answer_validator.go:293-304 | No id is lost and none repeats |
| MentionPatterns.FindAllIff | backend/internal/chat/answer_validator.go:271-291 | The search for a pattern, which goes on where a match ended, finds the number of every match wherever it starts, and no other |
| MentionPatterns.WrittenIsRead | backend/internal/chat/answer_validator.go:271-291 | A number written after any of the pattern's words and a number sign is read back from the text, whatever surrounds it |
| AnswerValidators.ExtractMentionedEntityIds | backend/internal/chat/answer_validator.go:271-291 | Exactly the positive ids the two patterns capture in some text, once each |
| AnswerValidators.DedupeValidationMessages | backend/internal/chat/answer_validator.go:369-384 | De-duplication never empties a non-empty list of visible messages |
| AnswerValidators.CheckBasics | backend/internal/chat/answer_validator.go:22-40 | No error exactly when answer, summary, confidence level and supporting facts are all present; an unknown level becomes low |
| AnswerValidators.CheckTexts | backend/internal/chat/answer_validator.go:42-68 | No new error exactly when no text holds a forbidden claim or marker |
| AnswerValidators.CheckCitedIds | backend/internal/chat/answer_validator.go:80-105 | No new error exactly when every cited id is positive and in the context |
| AnswerValidators.CheckSupport | backend/internal/chat/answer_validator.go:112-136 | No new error exactly when every supporting fact has a text and a source and names only known ids; a warning for each named source that is not an allowed one, in order |
| AnswerValidators.CheckMentioned | backend/internal/chat/answer_validator.go:138-150 | No new error exactly when every mentioned id is in the context |
| AnswerValidators.CheckWithoutFacts | backend/internal/chat/answer_validator.go:152-173 | The rules for an answer given without facts, both ways |
| AnswerValidators.CheckUnsupported | backend/internal/chat/answer_validator.go:174-188 | The rules for an unsupported intent, both ways |
| AnswerValidators.CheckHonesty | backend/internal/chat/answer_validator.go:152-188 | No new error exactly when the answer is honest about missing facts |
| AnswerValidators.LowerForLimitations | backend/internal/chat/answer_validator.go:190-211 | The level lost to limitations, low outright for no data, otherwise one step for each of the four findings, and the warnings given |
| AnswerValidators.SettleConfidence | backend/internal/chat/answer_validator.go:190-219 | The final level and the warnings about it as functions of context and answer, truncation and tool failures included |
| AnswerValidators.Validate | backend/internal/chat/answer_validator.go:17-226 | Valid if and only if the declarative rules all hold; the final confidence is the level that remains; the warnings are those of the specification, once each; an absent answer is an error |
| AnswerGuarantees.ConfidenceNeedsSoundContext | backend/internal/chat/answer_validator.go:190-219 | An answer keeps confidence above low only on an assembled context that was not truncated, that no tool failed for and that has facts |
| AnswerGuarantees.AdmittedDefectsLeaveNoConfidence | backend/internal/chat/answer_validator.go:190-219 | On a context that admits its defects in its limitations, any defect lowers every answer to low |
| AnswerGuarantees.NoDataNoteForcesLow | backend/internal/chat/answer_validator.go:195-198 | The note the assembler writes for no data is the text the validator looks for |
| AnswerGuarantees.TruncatedNoteIsCritical | backend/internal/chat/answer_validator.go:310-318 | The note the assembler writes on truncation counts as critical |
| AnswerGuarantees.FailureIsCritical | backend/internal/chat/answer_validator.go:310-318 | A limitation that reports a failure counts as critical |
| AnswerGuarantees.FactsAgree | backend/internal/chat/answer_validator.go:239-258 | On an assembled context the validator sees facts exactly where the assembler recorded some |
| AnswerGuarantees.ValidAnswersCiteToolResults | backend/internal/chat/answer_validator.go:70-150 | Every alert and recommendation a valid answer cites, by list, supporting fact or mention, comes from some tool result |
| AnswerGuarantees.ValidTextsAreAcceptable | backend/internal/chat/answer_validator.go:42-68 | In a valid answer the answer, the summary, every supporting fact and every limitation are free of forbidden claims |
| AnswerPhrases.TextAcceptableIff | backend/internal/chat/answer_validator.go:42-68 | A text is acceptable if and only if it contains, in any case, none of the forty-eight phrases, each written out |
| AnswerPhrases.DemotionsIff | backend/internal/chat/answer_validator.go:190-211 | Each of the findings against an answer, in the phrases looked for in its context's limitations and in its own texts, each written out |
| AnswerReadings.KnownIdsRead | backend/internal/chat/answer_validator.go:70-79 | The ids an answer may name are those of the references, and none without a context |
| AnswerReadings.FactsIff | backend/internal/chat/answer_validator.go:239-258 | There are facts if and only if one of the twelve sections is filled or a reference is known; the unsupported intent is the one so named |
| AnswerReadings.SupportIff | backend/internal/chat/answer_validator.go:112-136 | What a supporting fact has to be, in its own text, source and id |
| AnswerReadings.ValidAnswersReadable | backend/internal/chat/answer_validator.go:17-188 | What a valid answer shows: visible texts, a known level, positive known ids, and low confidence and stated limitations without facts |
| AnswerReadings.AllowedSourcesIff | backend/internal/chat/answer_validator.go:106-111 | The fourteen sources that draw no warning |
| AnswerReadings.StepsOfConfidence | backend/internal/chat/answer_validator.go:190-219 | The level left after none, one or more demotions, for each stated level |
| AnswerGuarantees.WrittenIdsAreCited | backend/internal/chat/answer_validator.go:138-150 | An id written out, in English or Russian, in the answer, the summary, a supporting fact or a limitation counts as cited |
| AnswerGuarantees.WrittenIdsAreKnown | backend/internal/chat/answer_validator.go:138-150 | Every id a valid answer writes out in any of these places is in the context |
| AnswerGuarantees.LoweredUnwarnedIff | backend/internal/chat/answer_validator.go:190-219 | An answer loses confidence without a warning if and only if a critical limitation other than missing data is the only thing held against it |
| AnswerGuarantees.LoweredUnwarned | backend/internal/chat/answer_validator.go:194-201 | A context whose one limitation is "unavailable": an answer of high confidence that states a limitation becomes medium and draws no warning |
| AlertIdentity.BuildEntityIdentity | backend/internal/alerts/rules.go:47-62 | The parts appended to the list, joined, are the identity text |
| AlertIdentity.FingerprintWritten | backend/internal/alerts/rules.go:64-73 | The text behind an emitted result's fingerprint, field by field |
| AlertIdentity.FingerprintInjective | backend/internal/alerts/rules.go:20-73 | Two emitted results share a fingerprint if and only if seller, alert type, entity type, decimal id, optional SKU and visible offer id agree, even when the offer contains the separator |
| AlertIdentity.FreeTextIdsCollide | backend/internal/alerts/rules.go:47-62 | The restriction to decimal ids is needed: a free-text id can imitate an id with a SKU |
| AlertRules.EvaluateSalesRules | backend/internal/alerts/sales_rules.go:30-73 | The results in order, and results plus skipped equal to the rule applications |
| AlertRules.ApplySkuSalesRules | backend/internal/alerts/sales_rules.go:53-72 | The per-SKU part: two applications when the SKU has a previous row, otherwise one |
| AlertRules.EvaluateStockRules | backend/internal/alerts/stock_rules.go:24-56 | The results in order, and results plus skipped equal to three per SKU, or to one when there is none |
| AlertRules.ApplyStockRules | backend/internal/alerts/stock_rules.go:32-50 | The three stock rules of one SKU: what each yields is collected, the rest is counted as skipped |
| AlertRules.StockRulesDoNotDuplicate | backend/internal/alerts/stock_rules.go:58-184 | A SKU never raises both low coverage and out of stock, and the key-SKU alert never stands without one of them |
| AlertRules.ApplyCampaignRules | backend/internal/alerts/advertising_rules.go:30-41 | The two campaign rules of one campaign, collected or skipped |
| AlertRules.ApplyLinkRule | backend/internal/alerts/advertising_rules.go:43-68 | A link is looked up in the campaign and SKU maps and yields one alert or one skip |
| AlertRules.EvaluateAdvertisingRules | backend/internal/alerts/advertising_rules.go:26-71 | The results in order, and results plus skipped equal to the rule applications |
| AlertRules.ApplyPriceRules | backend/internal/alerts/price_rules.go:26-54 | The four price rules of one product, collected or skipped |
| AlertRules.EvaluatePriceEconomicsRules | backend/internal/alerts/price_rules.go:26-54 | The results in order, and results plus skipped equal to four per product |
| AlertRules.MissingConstraintsStandsAlone | backend/internal/alerts/service.go:291-323 | On contexts built from the tables, a product reported for missing constraints is reported for nothing else in this group |
| AlertGuards.SalesRevenueDropIff | backend/internal/alerts/sales_rules.go:75-103 | The account revenue alert is raised if and only if revenue fell by three tenths of a positive one; critical from six tenths, high from four; its subject, urgency and evidence |
| AlertGuards.SalesOrdersDropIff | backend/internal/alerts/sales_rules.go:105-135 | The same of the number of orders |
| AlertGuards.SkuRevenueDropIff | backend/internal/alerts/sales_rules.go:137-172 | The SKU revenue alert: two fifths lost of a thousand or more; critical from seven tenths, high from half |
| AlertGuards.SkuNegativeContributionIff | backend/internal/alerts/sales_rules.go:174-213 | The contribution alert: a fifth or more of what the account lost; critical from half, high from three tenths |
| AlertGuards.AccountDeltaIs | backend/internal/alerts/sales_rules.go:30-52 | What the account lost is the difference of the two days' revenue, and nothing without both |
| AlertGuards.StockLowCoverageIff | backend/internal/alerts/stock_rules.go:58-92 | The low-coverage alert: stock that lasts more than three days and at most seven |
| AlertGuards.StockOosRiskIff | backend/internal/alerts/stock_rules.go:94-134 | The out-of-stock alert: no stock, or stock for three days; critical without stock or for less than a day, at once without stock |
| AlertGuards.StockCriticalSkuIff | backend/internal/alerts/stock_rules.go:136-184 | The key-SKU alert: ten thousand earned or five sold, and no stock or stock for a week |
| AlertGuards.AdSpendWithoutResultIff | backend/internal/alerts/advertising_rules.go:73-105 | A thousand or more spent without both orders and revenue; critical from ten thousand, high from three |
| AlertGuards.AdWeakEfficiencyIff | backend/internal/alerts/advertising_rules.go:107-141 | Revenue below the spend; critical below three tenths of it, high below three quarters |
| AlertGuards.AdBudgetOnLowStockIff | backend/internal/alerts/advertising_rules.go:143-181 | Budget on a SKU without stock or with stock for a week; critical and at once without stock, high for three days |
| AlertGuards.PriceBelowMinIff | backend/internal/alerts/price_rules.go:56-99 | A positive price below the minimum; critical and at once from a tenth below |
| AlertGuards.PriceAboveMaxIff | backend/internal/alerts/price_rules.go:101-144 | A positive price above the maximum; high from more than a tenth above |
| AlertGuards.MarginRiskIff | backend/internal/alerts/price_rules.go:146-184 | A margin that rounds, in millionths, to less than a tenth; high below a twentieth, critical and at once for a loss |
| AlertGuards.MissingConstraintsIff | backend/internal/alerts/price_rules.go:186-227 | Ten thousand earned or five sold without a constraint; high from thirty thousand or fifteen |
| AlertGuards.PricingContextReads | backend/internal/alerts/service.go:291-323 | What a pricing context says of a product, in its row, its constraint and its day's metrics |
| AlertOutcomes.AccountAlertsIff | backend/internal/alerts/sales_rules.go:30-52 | The sales evaluation raises an account alert if and only if both days are known and the figure fell by three tenths |
| AlertOutcomes.SkuSalesAlertsIff | backend/internal/alerts/sales_rules.go:53-72 | It raises a product's alert if and only if some row of the product meets the condition against the day before |
| AlertOutcomes.StockAlertsIff | backend/internal/alerts/stock_rules.go:24-56 | The stock evaluation raises each alert for a product if and only if some row of its own meets the condition |
| AlertOutcomes.CampaignAlertsIff | backend/internal/alerts/advertising_rules.go:30-41 | The campaign rules raise each alert for a campaign if and only if some summary of its own meets the condition |
| AlertOutcomes.PriceAlertsIff | backend/internal/alerts/price_rules.go:26-54 | The price evaluation raises each alert for a product if and only if some context of its own has that fault |
| AlertRuns.MergedTwice | backend/sql/queries/alerts.sql:22-74 | Upserting over an upserted row leaves what the last upsert makes of the original row, dismissed or not |
| AlertRuns.UpsertAllLastWins | backend/sql/queries/alerts.sql:1-76 | After a list of upserts each alert is what its last result makes of the row that was there, and rows no result falls on are untouched |
| AlertRuns.LastResultDecides | backend/sql/queries/alerts.sql:1-76 | After a list of upserts a dismissed alert is as it was but for the evidence of the last result on it; any other is open and says what that result says |
| AlertRuns.OthersStay | backend/sql/queries/alerts.sql:22-23 | Alerts no result falls on, other sellers' among them, are left alone |
| AlertRuns.UpsertAllIdempotent | backend/sql/queries/alerts.sql:1-76 | Writing the same results again changes nothing |
| AlertRuns.RetryLeavesCleanRun | backend/internal/alerts/service.go:352-396 | A run repeated after one that wrote only a prefix leaves the alerts one clean run would have left |
| AlertRuns.StageLeavesPrefix | backend/internal/alerts/service.go:364-383 | A stage that fails after earlier ones succeeded leaves a prefix of the whole run written |
| AlertRuns.RunTwiceChangesNothing | backend/internal/alerts/service.go:352-383 | Running the engine twice on unchanged metrics leaves the alerts exactly as after the first run, whatever was in the store |
| AlertRuns.EntitiesApart | backend/internal/alerts/rules.go:47-73 | Results collected over entities with distinct ids never share an alert |
| AlertSharing.LinkAlertSubject | backend/internal/alerts/advertising_rules.go:143-181 | Two link alerts are the same alert exactly when they link the same product |
| AlertSharing.RaisesIff | backend/internal/alerts/advertising_rules.go:43-68 | The link rule yields an alert if and only if the link is active, its campaign is known and spends, and its product is listed with no stock or at most seven days of cover |
| AlertSharing.RaisesByRows | backend/internal/alerts/advertising_rules.go:143-148 | With distinct campaigns and SKUs, the same condition read off the rows rather than the maps |
| AlertSharing.BeforeLinksSolo | backend/internal/alerts/service.go:364-375 | With distinct inputs, no two of the sales, stock and campaign results share an alert |
| AlertSharing.PriceSolo | backend/internal/alerts/price_rules.go:26-54 | With distinct products, no two price results share an alert |
| AlertSharing.SharedAlertIsTwoLinks | backend/internal/alerts/advertising_rules.go:43-68 | Two results of one run on the same alert are low-stock advertising alerts of one product reached through two campaign links |
| AlertSharing.AlertsByCount | backend/internal/alerts/rules.go:64-73 | Alerts written never exceed results, with equality exactly when no two results share one |
| AlertSharing.RunAlertsByCount | backend/internal/alerts/service.go:364-383 | A run writes as many alerts as it upserts results if and only if no low-stock product is raised by two links |
| AlertSharing.RunCanShareAnAlert | backend/internal/alerts/service.go:364-383 | Metrics with distinct inputs over which a run upserts more results than it has alerts: one empty SKU in two spending campaigns |
| AlertService.UpsertResults | backend/internal/alerts/service.go:172-178 | The upsert loop writes a prefix of the results, all of them exactly when every call works |
| AlertService.RunSalesAlerts | backend/internal/alerts/service.go:136-188 | The stage writes exactly the sales results and counts them, or fails leaving a prefix written |
| AlertService.RunStockAlerts | backend/internal/alerts/service.go:190-218 | The same for stock |
| AlertService.RunAdvertisingAlerts | backend/internal/alerts/service.go:220-264 | The same for advertising |
| AlertService.RunPriceEconomicsAlerts | backend/internal/alerts/service.go:266-346 | The same for prices, on contexts joined from products, constraints and metrics |
| AlertService.RunStages | backend/internal/alerts/service.go:364-383 | The four stages in order; totals are sums, upserted equals generated, generated plus skipped equals the rule applications; a failed stage leaves a prefix of the run's results written |
| AlertService.RunCreated | backend/internal/alerts/service.go:364-396 | The part of a run after its record exists: how it leaves the record, and all results written or a prefix of them |
| AlertService.RunForAccount | backend/internal/alerts/service.go:352-419 | Under every failure pattern: success exactly when every call works, and then the record is completed with the counts; a run with a failed stage is failed or still running, never completed, and a prefix of its results is written; no other record changes |
| AlertService.FailRunAndWrap | backend/internal/alerts/service.go:421-427 | The record becomes failed if the write works; the stage's error is returned either way |
| AlertService.StoredTotalIsSum | backend/internal/alerts/service.go:385-393 | The stored total equals the sum of the four stored counts if and only if that sum fits 32 bits |
| AccountMetrics.RebuiltLookup | backend/internal/analytics/account_metrics_service.go:77-96 | A rebuild leaves the source row inside the range and the old row outside it, for other sellers and other dates |
| AccountMetrics.RebuildIdempotent | backend/internal/analytics/account_metrics_service.go:43-102 | Rebuilding a range again changes nothing |
| AccountMetrics.RebuildUnion | backend/internal/analytics/account_metrics_service.go:43-102 | Rebuilding two ranges that touch or overlap, in either order, is rebuilding their union |
| AccountMetrics.DeleteThenUpsert | backend/internal/analytics/account_metrics_service.go:77-96 | Deleting the range and upserting its source rows one by one gives the table aimed at |
| AccountMetrics.UpsertRows | backend/internal/analytics/account_metrics_service.go:85-96 | The upsert loop on the transaction's copy |
| AccountMetrics.RebuildForDateRange | backend/internal/analytics/account_metrics_service.go:43-113 | All or nothing: the table becomes the one aimed at exactly when every call works, and is unchanged on any error; an inverted range is rejected before any call |
| SkuMetrics.CalcDaysOfCover | backend/internal/analytics/sku_metrics_service.go:128-150 | The loop over seven days computes the cover of the window's demand, absent without stock or demand |
| SkuMetrics.CoverIsNearest | backend/internal/analytics/sku_metrics_service.go:143-149 | The cover is the exact quotient rounded to the nearest hundredth |
| SkuMetrics.CoverAntitone | backend/internal/analytics/sku_metrics_service.go:138-149 | More demand never lengthens the cover |
| SkuMetrics.OrdersByProductDay | backend/internal/analytics/sku_metrics_service.go:83-92 | The nested map holds, per product, the orders of its days |
| SkuMetrics.ListingShowsOrders | backend/sql/queries/daily_sku_metrics.sql:82-140 | Filled from any listing of the source query, the map holds exactly the orders the range shows |
| SkuMetrics.ListRows | backend/sql/queries/daily_sku_metrics.sql:82-140 | The source query lists, once each, every sale day and product of the range and a row for every known product on its last day |
| SkuMetrics.NarrowCover | backend/internal/analytics/sku_metrics_service.go:128-150 | Both covers as the stock over the demand seen and over the demand seen and hidden; nothing is hidden from the seventh day on; earlier, without negative orders, a cover is missing exactly when there is stock, no demand seen and some hidden, and one that is present is never shorter than the true one, which is present too |
| SkuMetrics.SameDemandIff | backend/internal/analytics/sku_metrics_service.go:128-150 | Without negative orders, a range and a wider one show the same demand if and only if no hidden day of the window has an order |
| SkuMetrics.MissingCoverIff | backend/internal/analytics/sku_metrics_service.go:128-150 | A cover is missing if and only if there is stock, no order on the days seen and one on a hidden day of the window |
| SkuMetrics.MissingCover | backend/internal/analytics/sku_metrics_service.go:65-120 | Seven pieces and seven orders on day 4: rebuilding day 5 alone gives no cover, rebuilding days 4 and 5 gives seven days |
| SkuMetrics.TooLongCover | backend/internal/analytics/sku_metrics_service.go:65-120 | With seven more orders on day 5: day 5 alone gives seven days of cover, days 4 and 5 give three and a half |
| SkuMetrics.RangeRebuildAgrees | backend/internal/analytics/sku_metrics_service.go:65-120 | Rows of a range rebuild against a rebuild of a wider range, for every table: equal exactly when their covers are, and so from the seventh day on; equal but for cover before; cover missing exactly as above, never shorter; and the exact condition for an extra, empty row on the range's last day |
| SkuMetrics.RebuiltSkusLookup | backend/internal/analytics/sku_metrics_service.go:94-120 | Inside the range one row per source row, outside it what was there |
| SkuMetrics.RebuiltRowReads | backend/internal/analytics/sku_metrics_service.go:94-150 | What a rebuilt row says, in the sources and the stock rows: the day's sale, the product's stock or zero, and a cover that is there exactly with stock and orders and is their quotient rounded |
| SkuMetrics.DeleteThenUpsertSkus | backend/internal/analytics/sku_metrics_service.go:94-120 | Deleting the range and upserting a listing in any order gives the table aimed at |
| SkuMetrics.SkuDatabase.UpsertRows | backend/internal/analytics/sku_metrics_service.go:102-120 | The upsert loop on the transaction's copy, each row with its stock and cover |
| SkuMetrics.SkuDatabase.WriteRows | backend/internal/analytics/sku_metrics_service.go:78-120 | Stock and order maps, delete and upserts together produce the table aimed at |
| SkuMetrics.SkuDatabase.RebuildForDateRange | backend/internal/analytics/sku_metrics_service.go:41-126 | All or nothing, with the number of source rows as answer |
| CriticalSkus.CalcImportance | backend/internal/analytics/critical_sku_service.go:250-276 | The share thresholds as inequalities: high share from a fifth, at least one half from a tenth, at least 0.3 from a twentieth of a positive account revenue |
| CriticalSkus.ImportanceIff | backend/internal/analytics/critical_sku_service.go:250-276 | The points of importance for every share, with and without a rise |
| CriticalSkus.OutOfStockRiskIff | backend/internal/analytics/critical_sku_service.go:230-248 | The points of risk, each as a condition on pieces and days, both ways |
| CriticalSkus.DeclineIff | backend/internal/analytics/critical_sku_service.go:202-228 | The points of a fall in revenue or orders, each as a condition, both ways |
| CriticalSkus.CardReads | backend/internal/analytics/critical_sku_service.go:109-157 | What a card says in the rows it was made of; five times the risk and three times the importance enter the score |
| CriticalSkus.SignalsRaised | backend/internal/analytics/critical_sku_service.go:202-276 | Which signals the figures raise, both ways |
| CriticalSkus.CardSignals | backend/internal/analytics/critical_sku_service.go:133-140 | A card carries exactly the signals its own figures raise |
| CriticalSkus.CardsInOrder | backend/internal/analytics/critical_sku_service.go:159-164 | Cards come by falling score, and by product id among equals |
| CriticalSkus.RiskFallsWithStock | backend/internal/analytics/critical_sku_service.go:230-248 | More stock at the same cover never raises the out-of-stock risk, except, exactly, from one to three pieces to a larger stock that lasts a day at most |
| CriticalSkus.FourthPieceRaisesRisk | backend/internal/analytics/critical_sku_service.go:230-248 | One piece against four at a day's cover: 0.6 against 0.8 |
| CriticalSkus.DeclineGrows | backend/internal/analytics/critical_sku_service.go:202-228 | A deeper fall never scores less, and only a fall scores |
| CriticalSkus.UniqValues | backend/internal/analytics/critical_sku_service.go:297-314 | The loop with the seen set computes the specification of repeated tags |
| Uniques.UniqMembers | backend/internal/analytics/critical_sku_service.go:297-314 | De-duplication loses nothing but empty entries, and nothing repeats |
| Uniques.UniqKeepsFirsts | backend/internal/analytics/critical_sku_service.go:297-314 | De-duplication keeps first places in order |
| CriticalSkus.CardsAreWellTagged | backend/internal/analytics/critical_sku_service.go:278-295 | No tag or badge of a card repeats, and each badge says exactly what it is for: no stock, low stock, high importance, falling revenue, falling orders |
| CriticalSkus.SplitDays | backend/internal/analytics/critical_sku_service.go:78-90 | One pass separates today's rows from yesterday's map |
| CriticalSkus.ListCriticalSkus | backend/internal/analytics/critical_sku_service.go:57-164 | The list is some sorted arrangement of the cards of today's rows |
| CriticalSkus.HighShareIff | backend/internal/analytics/critical_sku_service.go:257-264 | A card carries the high-share tag exactly from a fifth of a positive account revenue |
| CriticalSkus.HighShareAtMostFive | backend/internal/analytics/critical_sku_service.go:92-96 | In a list of any size, without negative revenues, at most five cards carry the high-share tag |
| CriticalSkus.ScoreBounds | backend/internal/analytics/critical_sku_service.go:129-131 | A score is at most 13, above 8 only with a decline, and zero only for a card without tags and badges |
| CriticalSkus.CardsForgetRowOrder | backend/internal/analytics/critical_sku_service.go:159-164 | With distinct products per day the list does not depend on the order of the rows |
| Replenishment.ListReplenishment | backend/internal/analytics/replenishment_service.go:53-138 | The list is some arrangement of the stock rows' items sorted by urgency |
| Replenishment.BuildItems | backend/internal/analytics/replenishment_service.go:91-123 | The item loop |
| Replenishment.DepletionFalls | backend/internal/analytics/replenishment_service.go:150-174 | Neither more stock nor a longer cover raises the depletion risk; a longer cover never raises the priority |
| Replenishment.DepletionRiskIff | backend/internal/analytics/replenishment_service.go:150-161 | The depletion risk and its tag in pieces and days, both ways |
| Replenishment.ItemReads | backend/internal/analytics/replenishment_service.go:91-123 | What an item says in its stock row and its metric row, and its two tags |
| Replenishment.ItemsInOrder | backend/internal/analytics/replenishment_service.go:125-138 | Items come by falling priority, then falling risk, then falling importance, then product id |
| Replenishment.PriorityIff | backend/internal/analytics/replenishment_service.go:163-174 | The documented priority rule, in shares of the account revenue, both ways |
| Replenishment.RevenueWithin | backend/internal/analytics/replenishment_service.go:73-79 | Revenue counted once per distinct product is within the summed account revenue |
| Replenishment.UrgentItemsAreFew | backend/internal/analytics/replenishment_service.go:92-123 | At most ten high items and at most twenty high or medium ones, for any number of products |
| Replenishment.UrgentItemsComeFirst | backend/internal/analytics/replenishment_service.go:125-138 | Every high item is among the first ten of the sorted list, every high or medium one among the first twenty |
| Replenishment.ItemsForgetRowOrder | backend/internal/analytics/replenishment_service.go:125-138 | With distinct products the list does not depend on the order of the rows |
| Sums.AtMostParts | backend/internal/analytics/replenishment_service.go:163-174 | Pigeonhole: entries each worth a given share of a positive total are no more than that many |
| AdvertisingTrends.SplitLatestAndPreviousByProduct | backend/internal/analytics/advertising_service.go:234-253 | The pass keeps, per product, the two rows of the specification |
| AdvertisingTrends.PickIsNewestTwo | backend/internal/analytics/advertising_service.go:234-253 | Those are the newest row in range and the newest of the others, or the absent row |
| AdvertisingTrends.PickForgetsOrder | backend/internal/analytics/advertising_service.go:234-253 | They do not depend on the order of the rows |
| AdvertisingTrends.HasSpendGrowthWithoutResult | backend/internal/analytics/advertising_service.go:270-304 | The rows are sorted in place and the two halves compared as specified; fewer than four rows are left alone |
| AdvertisingTrends.GrowthForgetsOrder | backend/internal/analytics/advertising_service.go:274-304 | With one row per day the verdict does not depend on the order of the rows |
| Advertising.CampaignEfficiencySignal | backend/internal/analytics/advertising_service.go:255-268 | The signal of a campaign, whatever the order of its daily rows |
| Advertising.InactiveCountsAsActive | backend/internal/analytics/advertising_service.go:354-360 | Every status that contains "inactive" counts as active |
| Advertising.InactiveIsActive | backend/internal/analytics/advertising_service.go:354-360 | The status "inactive" itself counts as active |
| Advertising.DecliningIff | backend/internal/analytics/advertising_service.go:306-325 | Sales decline exactly when both rows exist and revenue fell by more than a fifth of a positive one |
| AdvertisingFigures.CampaignFigures | backend/internal/analytics/advertising_service.go:125-161 | A campaign row's figures, and the click rate and click price as quotients rounded to the nearest hundredth or cent |
| AdvertisingFigures.EfficiencyIff | backend/internal/analytics/advertising_service.go:255-268 | When a campaign is weak or grew without result, as inequalities between its totals |
| AdvertisingFigures.ActiveStatusIff | backend/internal/analytics/advertising_service.go:354-360 | Which statuses count as active |
| AdvertisingFigures.StockSignalIff | backend/internal/analytics/advertising_service.go:327-339 | The stock signal in pieces and days, both ways |
| AdvertisingFigures.TrendIff | backend/internal/analytics/advertising_service.go:306-325 | The sales trend in the two rows, both ways |
| AdvertisingFigures.UnknownProduct | backend/internal/analytics/advertising_service.go:176-179 | A product without metric rows has critical stock and a weak trend |
| AdvertisingFigures.WasteIff | backend/internal/analytics/advertising_service.go:341-352 | When spend is wasted, highly or in part |
| AdvertisingFigures.GrowthReadsDates | backend/internal/analytics/advertising_service.go:270-304 | The growth verdict is that of the rows in the order of their days |
| Advertising.ReasonsIff | backend/internal/analytics/advertising_service.go:180-197 | When a risk row gives no reason, when it names low stock, and that a weak trend is never its only reason |
| Advertising.BuildCampaigns | backend/internal/analytics/advertising_service.go:125-161 | Campaign rows, map by id, total spend and the two counts |
| Advertising.SpreadSpend | backend/internal/analytics/advertising_service.go:176-211 | One campaign's links: risk rows with equal shares, and its low-stock products |
| Advertising.BuildRisks | backend/internal/analytics/advertising_service.go:163-212 | Whatever order the map yields, the risk rows are those of the links of known campaigns, and the low-stock set is exactly their products whose stock signal is not ok |
| Advertising.SpendIsSpread | backend/internal/analytics/advertising_service.go:176-205 | A campaign's rounded shares sum to its spend within n half-cents for n links |
| Advertising.BuildAdvertisingAnalytics | backend/internal/analytics/advertising_service.go:79-232 | Totals, and pages of two lists that are sorted arrangements of all campaigns and all risk rows |
| AdvertisingFigures.CampaignRankingReads | backend/internal/analytics/advertising_service.go:384-405 | Campaigns come by the figure the request names, or by spend for any other key: larger first unless asc is asked for, smaller id first among equals |
| AdvertisingFigures.RiskRankingReads | backend/internal/analytics/advertising_service.go:407-424 | Risk rows come by the signal the request names, in the order of its texts, or by spend; smaller product first among equals |
| Advertising.CampaignsForgetRowOrder | backend/internal/analytics/advertising_service.go:384-405 | With distinct campaign ids the ranked list depends only on the set of rows |
| Advertising.KnownByTheirIds | backend/internal/analytics/advertising_service.go:158 | The campaign map holds each campaign under its own id |
| Advertising.RiskOrderDetermined | backend/internal/analytics/advertising_service.go:407-424 | Any two rankings of the risk rows are equal if and only if no two links of different known campaigns share a product and, for the order by spend, their rounded share |
| Advertising.SameProductTwoCampaigns | backend/internal/analytics/advertising_service.go:407-448 | A product advertised by two campaigns of equal spend: two correct answers differ in their first page |
| Paging.PagesCover | backend/internal/analytics/advertising_service.go:426-436 | Successive pages concatenate to the list, prefix by prefix |
| Paging.PagesDisjoint | backend/internal/analytics/advertising_service.go:426-436 | No row is on two pages |
| Sorting.SortDetermined | backend/internal/analytics/advertising_service.go:384-405 | A list has a single sorted arrangement if and only if the order tells its different entries apart |
| Sorting.SortSlice | backend/internal/analytics/advertising_service.go:384-405 | The library sort: a permutation in which no entry precedes a smaller one |
| Sorting.SortArray | backend/internal/analytics/advertising_service.go:274-276 | The same in place |
| AuditProtocol.RunKeepsSound | backend/internal/admin/ai_view_audit.go:10-72 | In every interleaving and under every failure pattern, each call under way owns an entry of its own and each payload handed out belongs to a completed view entry |
| AuditProtocol.RunKeeps | backend/sql/queries/admin_support.sql:23-41 | Over any further run, entries are never dropped or renamed, never run again, failed stays failed, and an entry whose payload was handed out stays completed |
| AuditProtocol.HandedWithinCompleted | backend/internal/admin/ai_view_audit.go:10-72 | Payloads handed out for a seller and target never exceed the completed view logs for them |
| AuditProtocol.HandedIsCompleted | backend/internal/admin/ai_view_audit.go:55-71 | They are equal when no write takes effect while reporting a failure |
| AuditProtocol.LeftRunningIff | backend/internal/admin/actions.go:165-217 | Once all calls have returned, an entry is still running if and only if its creation was not confirmed or its last closing write was refused |
| AuditProtocol.NothingLeftRunning | backend/internal/admin/actions.go:165-217 | When every write works, no entry is left running once all calls have returned |
| AdminAudit.ValidateIff | backend/internal/admin/types.go:742-754 | A call is let through if and only if the e-mail has a visible character and the seller is positive; a missing e-mail is reported first |
| AdminAudit.Service.CreateLog | backend/sql/queries/admin_support.sql:1-21 | The entry is written as running, unless the write is refused |
| AdminAudit.Service.CompleteLog | backend/sql/queries/admin_support.sql:23-31 | The entry becomes completed, unless the write is refused |
| AdminAudit.Service.FailLog | backend/sql/queries/admin_support.sql:33-41 | The entry becomes failed, unless the write is refused |
| AdminAudit.Service.CompleteOrFail | backend/internal/admin/ai_view_audit.go:55-70 | The end of a view for every pair of write outcomes |
| AdminAudit.Service.ViewRawAndFetch | backend/internal/admin/ai_view_audit.go:10-72 | The payload is returned exactly when the entry was written, the fetch worked and the completion was confirmed; an error carries none; the fetch never runs without an entry; no other entry changes; the call is a run of the protocol |
| AdminAudit.Service.RunAuditedAction | backend/internal/admin/actions.go:165-217 | No error exactly when everything worked, and then the entry is completed; how the entry ends for every failure; no other entry changes; the call is a run of the protocol |
| AdminAudit.Service.ViewTarget | backend/internal/admin/ai_logs.go:28-48 | A view as asked for: seller and target must be named and the target found, else nothing is logged or handed out; then the audited view |
| AdminAudit.Service.Act | backend/internal/admin/billing.go:25-83 | An action as asked for: rejected input leaves no trace; no error exactly when everything worked and what is read back could be; when only that failed the entry is completed and given with the error |
| AdminAudit.Service.Serve | backend/internal/admin/ai_logs.go:28-92 | One request of either kind, with the payloads it hands out by subject |
| AdminAudit.Service.ServeAll | backend/internal/admin/ai_view_audit.go:10-72 | Over any sequence of calls and failures, the payloads in the answers are counted by subject and stay within the completed logs |
| AdSync.Sync.LoadCampaigns | backend/internal/adsync/service.go:147-173 | Ends after one request more than the full pages and returns exactly the server's list, counted in 32 bits |
| AdSync.Sync.FetchSkuCampaignProducts | backend/internal/adsync/service.go:321-379 | The same for a campaign's products, with the objects as fallback when there are none |
| AdSync.Sync.FetchSearchPromoCampaignProducts | backend/internal/adsync/service.go:381-417 | The same for search promotion |
| AdSync.Sync.UpsertLinks | backend/internal/adsync/service.go:264-286 | Links with zero ids are skipped, the others written in order and counted; a failure leaves a prefix |
| AdSync.Sync.ImportSkuCampaigns | backend/internal/adsync/service.go:241-287 | Succeeds exactly when every call works and every SKU campaign has links |
| AdSync.Sync.ImportCampaignProducts | backend/internal/adsync/service.go:231-319 | All links: what is written, the two counters, and the prefix left by a failure |
| AdSync.Sync.ImportCampaignMetrics | backend/internal/adsync/service.go:175-229 | The daily metrics of the window, none without campaigns |
| AdSync.Sync.UpsertCampaigns | backend/internal/adsync/service.go:91-109 | The campaign rows and the list of their ids |
| AdSync.Sync.RunSync | backend/internal/adsync/service.go:62-145 | When a run succeeds, both ways, what it writes, its counters and its next cursor; a failed run leaves prefixes behind |
| AdSync.Sync.SkippedLinks | backend/internal/adsync/service.go:263-295 | Links received minus links imported are the SKU links with product id zero and the search promotion links with either id zero |
| AdSync.Sync.ImportedIff | backend/internal/adsync/service.go:231-319 | A link is imported if and only if it names a product and a SKU campaign lists it, or it names a product and a campaign and search promotion lists it |
| AdSync.Sync.LinkStoredIff | backend/internal/adsync/service.go:268-276 | After a successful import the table holds, by campaign and product, the links it held and those imported |
| AdSync.CampaignNames | backend/internal/adsync/service.go:91-98 | A campaign without a name is stored under one made of its id, so that no two share it; any other keeps its own |
| AdSync.PutLinksKeepsLast | backend/internal/adsync/service.go:268-276 | After the upserts each key holds the last link for it |
| AdSync.Sync.RunJob | backend/internal/jobs/ozon_import_handlers.go:299-323 | One import job from the cursor captured at its creation: it runs exactly when the cursor can be read, every call works and every SKU campaign has links, moves the stored cursor exactly when that write works too, and leaves every metric of its window stored when it ran |
| AdSync.Sync.ResetCursor | backend/internal/syncstate/sync_cursor_service.go:98-126 | A reset puts the cursor given in place exactly when its write works |
| AdSync.Sync.RunJobs | backend/internal/jobs/ozon_import_handlers.go:299-354 | Any list of jobs and resets, in the order in which they end: each job runs from the cursor stored when it was created, every event works exactly when its calls do, the cursor follows the events that worked, and every metric of a run's window is stored at the end |
| AdSync.WindowsChain | backend/internal/adsync/service.go:419-429 | A job whose captured cursor was last moved by a job starts where that one ended, however many failed in between |
| AdSync.SyncedDaysHaveNoGap | backend/internal/jobs/ozon_sync_coordinator.go:45-61 | Over any events, every day since the first run's start is read in full by the time a later run ends, if and only if every run joins what was read before: it starts, or else ends, no later than the day on which an earlier run ended or the first started |
| AdSync.AdvancedCursorJoins | backend/internal/adsync/service.go:419-429 | A run whose cursor another job moved always joins: only a reset cursor or none can leave a gap |
| AdSync.InTurnHasNoGap | backend/internal/adsync/service.go:419-429 | Without resets, jobs created after the first run moved the cursor leave no day out |
| AdSync.TwoFirstJobsLeaveAGap | backend/internal/jobs/ozon_sync_coordinator.go:45-61 | Two jobs created before either ended and run more than thirty days apart leave out every day between the end of the first and the start of the second; at thirty-one, the first job's last day |
| AdSync.ResetLeavesAGap | backend/internal/syncstate/sync_cursor_service.go:98-126 | So does a reset to a later moment between jobs made in turn |
| AdSync.MalformedCursorStops | backend/internal/syncstate/sync_cursor_service.go:98-126 | A job that captured a reset cursor which is not a moment does not run |
| Units.Int32Adds | backend/internal/adsync/service.go:88-137 | Wrapping each addition to 32 bits or only the sum makes no difference |
| Units.DayIs | backend/internal/analytics/sku_metrics_service.go:128-150 | A day has 86400 seconds, on either side of the first |
| Units.Int32Fits | backend/internal/adsync/service.go:88-137 | A 32-bit counter holds what fits |

## Left out

- ContextAssemblers.Assemble: the encoded size is an arbitrary function of the context, so nothing is claimed about the size after shrinking, which the code does not bring under the limit; question, language, seller, plan and time are passed through and left out.
- ContextValue.SanitizeCompose: a text is a list of characters; the source measures and cuts bytes, which can split a character.
- SkuMetrics.ListRows: the offer, SKU and name columns joined from the products table are left out.
- CriticalSkus.ListCriticalSkus: names, snapshot times and the explanatory texts of the answer are left out; a score is a sum of hundredths, not a float.
- Replenishment.ListReplenishment: total and reserved stock, warehouse counts and snapshot times are passed through and left out.
- Advertising.BuildAdvertisingAnalytics: update times, names, types and placements are left out, and so is the joined text of a row's reasons, kept as a list.
- Advertising.BuildCampaigns: takes daily rows with one row per campaign and day, which the table's unique index gives; without it the verdict on equal days is up to the sort.
- AdminAudit.Service.RunAuditedAction: is for the actions other than viewing raw payloads, as all its callers are; request and result payloads and the two error texts of a failed mark are left out.
- AdSync.Sync.RunJobs: jobs may be created in any order relative to one another's end, but their writes are made one job after the other; interleaving the writes of two running jobs, and the status of a job's own record, are not modelled. A run that fails may have stored metrics too; only runs that worked count as having read a day.
- AdSync.Sync.RunSync: credentials are two calls that may fail, campaign types are read as already normalised, and moments are whole seconds whose printed form is read back as the same moment.
- Floating point: money is in cents, importance and cover in hundredths, ratios of the alert rules and the advertising signals are real numbers; a comparison the source makes on floats is made exactly.
- Lower-casing covers Latin and Russian letters, which is what the phrases and patterns searched for use; the rarer characters that Unicode folds to them are not read as them.
- A number read as an id from a double beyond 64 bits, which Go leaves to the machine, is read as that number.
- SHA-256 is taken to be injective: the model's fingerprint is the text that is hashed.
- Titles and messages of alerts are left out, and of their evidence only the figures the rules compare are kept.
- How a validation error is worded is not stated, only when there is one; the wording of warnings is.
- The library sort is any arrangement in which no entry precedes a smaller one; reference lists, whose ids are distinct, are sorted by a function.
- A repository call is one step that works or has no effect; for the audit log a write may also take effect and report a failure. Date-range queries return exactly the rows of the range.
- Resolving, dismissing and listing alerts, recommendation runs, the chat planner and prompts, authentication, HTTP, the frontend, raw payload storage and the remote clients are not modelled.
- The cost estimate in `backend/internal/aicost/estimate.go` is not modelled: its comment promises the longest matching prefix, its loop takes whichever the map yields first.
- The seller-wide rebuilds, which look up the dates to rebuild, are not modelled; they call the range rebuilds.
