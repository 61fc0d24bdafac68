# Home-care Slack bot backend, modelled in Dafny

The system is the backend of a Slack bot for home medical care teams. Each
patient has a Slack channel. Replies to the channel's anchor message are
turned into bio-psycho-social (BPS) reports by an AI agent. Mentions of the
bot ask for a summary, save a report, or ask a question. Alert records
raised by a periodic scan feed a per-patient risk level (`high`, `medium`,
`low`). The level escalates automatically from the unacknowledged alerts,
steps down with time, and stays put while a human has pinned it. Every
level change is written to a history ledger. Around this core sit a
FastAPI surface and a knowledge base:
- alert statistics, listing, detail and acknowledgement;
- patient create and update;
- knowledge document create, update and keyword search;
- text chunking and batched embedding for retrieval;
- Google Cloud Storage upload, signed URLs and delete;
- Slack helpers for channels, invitations and workspace users.

The model has one Dafny module per Python file. Helper modules `Wrappers`,
`Text`, `PyValue` and `Doc` hold shared definitions. `PyValue` is the
JSON-like value of Python dicts and lists: ordered keys, Python truthiness,
and `str()` rendering.

Pure Python code becomes functions and lemmas. Code with loops becomes
methods whose `ensures` tie the result to a specification function.
Stores the code updates in place become classes with `modifies` clauses:
- `RiskService.RiskStore`: patients, alerts and risk history;
- `PatientsApi.PatientStore`: patient documents;
- `StorageService.Storage`: bucket objects;
- `SlackService.BotIdCache`: the per-token bot user id cache.

A Python exception becomes an error value (`None`, `Err`, or a
`ServerError` response). Things outside the program become parameters:
the clock (`now`, `today`), the HMAC function, the LLM's reply, the
embedding model, the signing service, and the Slack and Firestore lookups.

## Model

| member | source | states |
|---|---|---|
| RiskService.CountOne | backend/services/risk_service.py:124-128 | One alert adds at most one to the severity counts. |
| RiskService.CountBound | backend/services/risk_service.py:124-128 | The counts over a list of severities total at most the list's length. |
| RiskService.CountConcat | backend/services/risk_service.py:124-128 | Counting is additive: the counts of two concatenated lists are the sum of their counts. |
| RiskService.UnrecognisedNotCounted | backend/services/risk_service.py:126-128 | A list whose severities are all outside high/medium/low counts nothing. |
| RiskService.MissingSeverityIsLow | backend/services/risk_service.py:126-128 | A missing or empty severity counts as `low`. |
| RiskService.SeverityCaseIgnored | backend/services/risk_service.py:126-128 | A severity is lower-cased before counting, so `HIGH` counts as high. |
| RiskService.OtherSeverityIgnored | backend/services/risk_service.py:126-128 | An unknown severity such as `critical` is not counted at all. |
| RiskService.LevelIndex | backend/services/risk_service.py:168 | Every known level has an index below three in the high/medium/low order, and that index gives the level back. |
| RiskService.DaysSinceBounds | backend/services/risk_service.py:160 | Whole days since the last alert are the floor of the elapsed seconds divided by 86400. |
| RiskService.Calculate | backend/services/risk_service.py:110-178 | The decided level is a known level, or it is the current level unchanged. |
| RiskService.HighDominates | backend/services/risk_service.py:133-134 | Any unacknowledged high alert makes the level high, with the high count as the reason. |
| RiskService.EscalationOrder | backend/services/risk_service.py:136-146 | With no high alert, the escalation rules apply in order: two or more medium gives high; one medium gives medium; three or more low gives medium; one or two low gives low. |
| RiskService.EscalationMonotone | backend/services/risk_service.py:133-146 | Adding alerts to a non-empty set never lowers the decided level. |
| RiskService.MoreAlertsNeverLower | backend/services/risk_service.py:133-146 | Appending alerts to a listed severity list never lowers the decided level. |
| RiskService.ManualPinHolds | backend/services/risk_service.py:151-152 | With no alerts and a manual source, the level is kept and the reason says it is pinned. |
| RiskService.DeescalationRules | backend/services/risk_service.py:156-176 | With no alerts and no pin, the decision depends on the last alert. No history gives low. Fourteen or more days give low. Seven to thirteen days step down one level. Under seven days the level is kept. |
| RiskService.StepDownOneLevel | backend/services/risk_service.py:167-173 | Stepping down goes high to medium to low, and low stays low. An unknown level becomes medium. |
| RiskService.EscalationStable | backend/services/risk_service.py:133-146 | An escalated level is a fixed point: recalculating later from the same alerts gives the same level. |
| RiskService.TwoStepsInOneWindow | backend/services/risk_service.py:165-172 | Inside the 7-to-14-day window, high goes to medium and a second recalculation goes on to low. Step-down keeps no memory of earlier steps. |
| RiskService.ChangedLevelIsKnown | backend/services/risk_service.py:130-178 | A changed level is always a known level, and it never comes from a manual pin without alerts. |
| RiskService.TakeSnapshot | backend/services/risk_service.py:195-199 | The snapshot loop's counts equal the specification counts of the listed severities. |
| RiskService.UnackedAlerts | backend/services/firestore_service.py:220-246 | The unacknowledged alerts are a sub-list, and none of them is acknowledged. |
| RiskService.Severities | backend/services/risk_service.py:47-51 | One severity is taken per alert. |
| RiskService.Listed | backend/services/risk_service.py:47-51 | The engine looks at no more than the query limit of unacknowledged alerts. |
| RiskService.UnackedPrepend | backend/services/firestore_service.py:220-246 | Unacknowledged alerts put in front of a patient's alerts stay in front of the unacknowledged ones, in their order. |
| RiskService.CreatedListedFirst | backend/services/risk_service.py:47-51 | Up to 100 new unacknowledged alerts are all listed by the engine. They come first, each with its severity, before any older alert. |
| RiskService.MarkAcknowledged | backend/services/firestore_service.py:259-272 | The alert with that id is marked acknowledged, by whom; every other alert is unchanged. |
| RiskService.UnackedAfterAcknowledge | backend/api/alerts.py:92-100 | After acknowledging, the unacknowledged alerts are the previous ones minus that id, in order. |
| RiskService.WithoutIdCountsLess | backend/api/alerts.py:92-100 | Removing an alert never raises any severity count. |
| RiskService.AcknowledgeNeverAddsCounts | backend/api/alerts.py:92-100 | When all unacknowledged alerts fit in the query, acknowledging never raises any listed count. |
| RiskService.RiskStore.Recalculate | backend/services/risk_service.py:28-107 | An unknown patient gives "not found" and changes nothing. Otherwise the specification decision on the listed alerts is computed. An unchanged level leaves the store as it was. A changed level updates the patient and appends one auto history entry with the snapshot. Alerts are never touched. |
| RiskService.RecalculatedTouchesOnly | backend/services/risk_service.py:28-107 | A recalculation writes only the recalculated patient's risk fields and history log. |
| RiskService.RecalculatedLogsWrite | backend/services/risk_service.py:60-100 | A recalculation either changes nothing, or appends exactly one "auto" entry with its trigger to the patient's log. That entry records the move from the stored level to a different one, and the new level is the one written. |
| RiskService.RecalcWrite | backend/services/risk_service.py:76-100 | A recalculation that changes anything writes new fields for a known patient and appends one entry to its log, with that level written. |
| RiskService.RiskStore.Acknowledge | backend/services/firestore_service.py:259-272 | It succeeds exactly when the patient has an alert with that id, and then only that alert becomes acknowledged. |
| RiskService.RiskStore.RecordManualChange | backend/services/risk_service.py:181-209 | One manual history entry with the changer, the reason and the current snapshot is appended; patients and alerts are unchanged. |
| RiskService.RiskStore.CreateAlerts | backend/services/firestore_service.py:249-256 | The new alerts, newest first, come before the patient's older alerts. The risk fields and history logs are kept. |
| SlackEvents.Dispatch | backend/main.py:77-100 | A payload that is not a JSON object fails with the 500 response. |
| SlackEvents.HandleVerifiedEvent | backend/main.py:65-100 | Corrected endpoint: a rejected request gets the guard's status and detail; only a verified, parsable body is dispatched. |
| SlackEvents.ForgedRequestRejected | backend/main.py:65-75 | With the corrected endpoint and a signing secret, a forged signature gets a 400 and never reaches the root agent. |
| SlackEvents.SignatureIgnored | backend/main.py:69-75 | As written, the endpoint answers the same whatever the signature guard decides, because its fallback re-reads the raw body. |
| SlackEvents.ForgedRequestHandled | backend/main.py:69-75 | As written, a request the guard would reject is handled exactly as an accepted one. |
| SlackEvents.UrlVerificationEchoed | backend/main.py:78-79 | A URL-verification payload is answered with its own challenge. |
| SlackEvents.BotMessagesAcknowledged | backend/main.py:85-86 | An event with a bot id or the `bot_message` subtype is acknowledged and never routed. |
| SlackEvents.RoutedIff | backend/main.py:89-100 | A non-bot `message` or `app_mention` event goes to the root agent, and its result or error is wrapped. Any other event type is only acknowledged. |
| SlackEvents.MalformedEventRaises | backend/main.py:81-82 | An `event` field that is not an object makes the handler fail with a 500. |
| SlackEvents.ScanOrgId | backend/main.py:112-116 | A missing or non-object body scans the default organisation `demo-org`. |
| SlackEvents.ScanOrgIdGiven | backend/main.py:112-116 | A given `org_id` is used as is, even an explicit null. |
| SlackEvents.ScanOrgIdMissing | backend/main.py:112-116 | A body without `org_id` scans `demo-org`. |
| SlackEvents.MorningScanResponse | backend/main.py:122-136 | A failed scan reports its error. A finished scan reports the number of high and of medium alerts. |
| SlackEvents.MorningScanIgnoresLow | backend/main.py:128-129 | The scan response does not depend on the low-severity results. |
| SlackVerify.ParseInt | backend/slack/verify.py:52 | A timestamp parses only when something is left after stripping whitespace. |
| SlackVerify.DigitsValueOfNat | backend/slack/verify.py:52 | A natural number's decimal text is a valid digit string whose value is that number. |
| SlackVerify.ParseIntOfNat | backend/slack/verify.py:52 | Parsing a natural number's decimal text gives the number back (round trip). |
| SlackVerify.ParseUnsigned | backend/slack/verify.py:52 | A digit string, with single underscores allowed between digits as in `int()`, parses to its value. |
| SlackVerify.Verify | backend/slack/verify.py:33-88 | An accepted request passes its body through unchanged; every rejection has status 400. |
| SlackVerify.AcceptedIff | backend/slack/verify.py:44-88 | With a secret set, a request is accepted exactly when both headers are present, the timestamp parses, it is within 300 seconds of now either way, and the signature is `v0=` plus the HMAC of `v0:timestamp:body`. |
| SlackVerify.NoSecretNoCheck | backend/slack/verify.py:36-38 | Without a signing secret every request is accepted. |
| SlackVerify.MissingHeaderRejected | backend/slack/verify.py:44-48 | A missing signature or timestamp header is rejected with its own message. |
| SlackVerify.SignedTimestamp | backend/slack/verify.py:54-58 | A correctly signed request with a decimal timestamp is accepted exactly when the timestamp is within five minutes of now, and otherwise rejected as too old. |
| SlackVerify.WindowBoundary | backend/slack/verify.py:54-58 | A correctly signed request 300 seconds old is accepted; at 301 seconds it is rejected as too old. |
| SlackVerify.NonNumericTimestampRejected | backend/slack/verify.py:59-63 | A timestamp such as `12a` is rejected as invalid. |
| SlackVerify.TrailingLetterRejected | backend/slack/verify.py:59-63 | Digits followed by a letter never parse. |
| RagService.ExtractText | backend/services/rag_service.py:26-38 | Plain text and markdown are decoded, PDF and DOCX go to their extractors. It fails exactly for any other content type, naming that type. |
| RagService.FirstDoubleNewline | backend/services/rag_service.py:77 | Finds the first paragraph break (two newlines) at or after a position, or the end of the text. |
| RagService.RunEnd | backend/services/rag_service.py:77 | Finds the end of a run of newlines. |
| RagService.SplitParagraphs | backend/services/rag_service.py:77 | Splitting on two or more newlines gives at least one piece, and no piece holds a paragraph break. |
| RagService.SingleParagraph | backend/services/rag_service.py:77 | A text without a paragraph break is one paragraph. |
| RagService.SplitJoin | backend/services/rag_service.py:77 | With no run of three newlines and no leading newline, joining the paragraphs with a blank line gives the text back. |
| RagService.LastIndexBefore | backend/services/rag_service.py:114 | Gives the last occurrence of a character before a bound, or -1 when there is none. |
| RagService.SeparatorSplit | backend/services/rag_service.py:113-117 | A separator split point lies after the first third of the window, within the chunk size, and just after a separator. |
| RagService.SplitPoint | backend/services/rag_service.py:112-120 | An overlong text is cut after one to chunk-size characters: at a separator past the first third, or else at exactly the chunk size. |
| RagService.FindSplit | backend/services/rag_service.py:112-120 | The separator search loop finds the specification split point. |
| RagService.AddStripped | backend/services/rag_service.py:84-101 | When the paragraph does not fit, the open text is emitted, stripped, as the next chunk, and the earlier chunks stay as they were. The next chunk opens with the last `overlap` characters of the unstripped text, a newline and the paragraph, whenever that fits or the cap stopped the loop. With no overlap, or text no longer than it, the next chunk is the paragraph alone. A paragraph that fits is absorbed into the open text, or opens an empty one, and no chunk is emitted. |
| RagService.CloseChunk | backend/services/rag_service.py:84-98 | Closing the open text appends it, stripped, as the next numbered chunk and keeps the chunk-list invariant. The next text holds the last `overlap` characters of the unstripped text, a newline and the paragraph, or only the paragraph when the text is no longer than `overlap`. |
| RagService.AbsorbKeepsParagraph | backend/services/rag_service.py:107 | Joining a paragraph onto the current chunk keeps both texts with a newline between them. |
| RagService.AppendChunk | backend/services/rag_service.py:90-95 | Appending a stripped chunk at the next index keeps the chunk-list invariant: consecutive indexes, stripped texts, and no text over the chunk size before the cap. |
| RagService.SplitOverlong | backend/services/rag_service.py:109-131 | The cutting loop keeps the chunk-list invariant and stops at the 100-chunk cap. Before the cap, the rest it leaves fits the chunk size. A rest that already fits is left untouched. |
| RagService.ChunkText | backend/services/rag_service.py:66-141 | Blank text gives no chunks. Chunks are numbered from 0, stripped, and fit the chunk size below the 100-chunk cap. There are at most 100 chunks plus one per paragraph. A short single paragraph is one chunk with its token estimate. |
| RagService.Batches | backend/services/rag_service.py:153-154 | Every batch is non-empty and holds at most 20 texts. |
| RagService.BatchesCover | backend/services/rag_service.py:153-154 | Concatenating the batches gives back every text in order. |
| RagService.EmbedAllSnoc | backend/services/rag_service.py:160 | Embedding one more batch appends that batch's vectors. |
| RagService.EmbedAllLength | backend/services/rag_service.py:160 | When the model returns one vector per text, there is one embedding per input text. |
| RagService.GenerateEmbeddings | backend/services/rag_service.py:145-162 | The batching loop returns the embeddings of all batches in order. |
| RootAgent.ResolvePatient | backend/agents/root_agent.py:101-110 | No channel means no patient; otherwise the patient is the one linked to the channel. |
| RootAgent.IdRunEnd | backend/agents/root_agent.py:199 | Finds the end of the run of user-id characters. |
| RootAgent.MentionEnd | backend/agents/root_agent.py:199 | A mention token, when present, spans at least `<@X>`. |
| RootAgent.RemoveMentions | backend/agents/root_agent.py:199 | Removing mentions never lengthens the text. |
| RootAgent.RemovesLeadingMention | backend/agents/root_agent.py:199 | A leading `<@ID>` token is removed entirely. |
| RootAgent.NoMentionUnchanged | backend/agents/root_agent.py:199 | Text without `<` is left unchanged. |
| RootAgent.DispatchMention | backend/agents/root_agent.py:198-212 | A mention asks for a summary exactly when its cleaned text has a summary keyword. It saves a report exactly when it has a save keyword and no summary keyword. Anything else is a question about the cleaned text. |
| RootAgent.SummaryBeatsSave | backend/agents/root_agent.py:202-207 | When both kinds of keyword occur, the summary wins. |
| RootAgent.MentionedSummary | backend/agents/root_agent.py:199-203 | `<@U01> サマリー` asks for a summary. |
| RootAgent.UnlinkedChannelRejected | backend/agents/root_agent.py:55-61 | An event from a channel with no linked patient is answered "no patient". |
| RootAgent.IntakeIffAnchorReply | backend/agents/root_agent.py:67-77 | A message goes to intake exactly when it replies in the thread of its patient's anchor message, and then intake gets that patient, text, user and timestamps. |
| RootAgent.OtherMessagesIgnored | backend/agents/root_agent.py:78-84 | Any other message in a patient channel is casual chat and ignored. |
| RootAgent.MentionsDispatched | backend/agents/root_agent.py:86-93 | A mention in a patient channel is dispatched by its keywords for that patient. |
| RootAgent.UnknownTypeRejected | backend/agents/root_agent.py:95-99 | Any other event type is rejected, naming the type. |
| RootAgent.FirstMatch | backend/agents/root_agent.py:303-329 | The rule found is the first one whose keywords occur; none is found only when no rule matches. |
| RootAgent.InferRoleFirstRule | backend/agents/root_agent.py:305-329 | The inferred role is the role of the first matching rule on the lower-cased title. |
| RootAgent.InferRoleUnknown | backend/agents/root_agent.py:305-329 | When no rule matches, the role is `unknown`. |
| RootAgent.NurseFirst | backend/agents/root_agent.py:308-309 | A title with a nurse keyword is always `nurse`, whatever else it says. |
| RootAgent.CareManagerBeforeHelper | backend/agents/root_agent.py:320-323 | 介護支援専門員 is a care manager, not a helper, though it contains 介護. |
| AlertAgent.SeverityDefaultsToMedium | backend/agents/alert_agent.py:153 | A detected alert without a severity is saved as `medium`. |
| AlertAgent.SeverityLowercased | backend/agents/alert_agent.py:153 | A text severity is saved lower-cased, with the alert's other fields, the patient and the organisation. |
| AlertAgent.SavedPrefixSnoc | backend/agents/alert_agent.py:148-163 | Saving the next alert extends the saved prefix of the detected alerts, in order. |
| AlertAgent.SaveAlerts | backend/agents/alert_agent.py:148-168 | The saving loop stores one alert per detected alert, in order, and what it saved is exactly `SavedRun`. It stops early only at an alert that cannot be built. The risk level is recalculated exactly when all alerts were saved and there was at least one. |
| AlertAgent.SavedRun | backend/agents/alert_agent.py:148-163 | The alerts saved before the loop stops. Each is built from the detected alert at its place, with the id the store gave it. It falls short of the detected alerts only at one that cannot be built. |
| AlertAgent.SavedPrefixUnique | backend/agents/alert_agent.py:148-163 | The place where saving stops is fixed. Two saved prefixes that each cover every alert or stop at an unbuildable one are equal. |
| AlertAgent.AddAlertsCount | backend/agents/alert_agent.py:236-247 | Sorting a patient's alerts into buckets adds exactly that many alerts and leaves the patient counters alone. |
| AlertAgent.ScanCounters | backend/agents/alert_agent.py:204-220 | A scan that completes counts every patient with an id. No more patients are unchanged than were scanned. |
| AlertAgent.FailedOrQuietPatient | backend/agents/alert_agent.py:217-234 | A patient without recent reports is scanned and counted unchanged, and detection is not run for it. A patient whose detection reports a failure is scanned and adds nothing. |
| AlertAgent.BucketOfSeverity | backend/agents/alert_agent.py:237-247 | An alert goes to the high, medium or low bucket by its lower-cased severity; any other severity goes to low. |
| AlertAgent.ScanAllPatients | backend/agents/alert_agent.py:176-249 | The scanning loop computes the specification scan over all patients. It stops with no results as soon as a detection raises. |
| AlertAgent.ScanRaisesIff | backend/agents/alert_agent.py:204-234 | The scan raises exactly when some patient with an id and recent reports has a detection that raises. |
| AlertAgent.ScanRaisedStays | backend/agents/alert_agent.py:204-249 | Once the scan of a prefix of the patients has raised, the whole scan has. |
| AlertAgent.AlertLinesAt | backend/agents/alert_agent.py:279-283 | The report has one line per alert, in order. |
| AlertAgent.SectionShape | backend/agents/alert_agent.py:277-294 | A section is empty exactly when it has no alerts. It shows at most five alerts between its heading and a blank line. |
| AlertAgent.ReportIgnoresLow | backend/agents/alert_agent.py:261-298 | The morning report does not depend on the low alerts. Its change line reports scanned minus unchanged out of scanned. |
| AlertAgent.FormatMorningReport | backend/agents/alert_agent.py:251-300 | The report-building loop returns the specification lines joined by newlines. |
| AlertAgent.AppendSection | backend/agents/alert_agent.py:277-284 | Appending a section adds exactly that section's lines. |
| AlertAgent.AppendAlertLines | backend/agents/alert_agent.py:279-283 | The alert-line loop appends one line per alert, in order. |
| AlertAgent.Bullets | backend/agents/alert_agent.py:319-320 | Each evidence or recommendation item becomes one bullet line showing its text. |
| AlertAgent.QuietAlertMessage | backend/agents/alert_agent.py:309-317 | An alert with no evidence and no recommendations is posted as heading, blank line, message and blank line. |
| AlertAgent.UnknownSeverityHeading | backend/agents/alert_agent.py:305-310 | An unknown severity gets the white circle heading. |
| AlertAgent.SavedSeverityKey | backend/agents/alert_agent.py:150-160 | The saved alert's dictionary holds its severity. |
| AlertAgent.SavedTitleKey | backend/agents/alert_agent.py:150-160 | The saved alert's dictionary holds its title. |
| AlertAgent.SavedMessageKey | backend/agents/alert_agent.py:150-160 | The saved alert's dictionary holds its message. |
| AlertAgent.SavedEvidenceKey | backend/agents/alert_agent.py:150-160 | The saved alert's dictionary holds its evidence. |
| AlertAgent.SavedRecommendationsKey | backend/agents/alert_agent.py:150-160 | The saved alert's dictionary holds its recommendations. |
| AlertAgent.UntitledSavedAlertHeading | backend/agents/alert_agent.py:310 | A saved alert without a title is posted under the heading `None`. |
| AlertAgent.MessagelessAlertCannotBePosted | backend/agents/alert_agent.py:312-329 | A detected alert without a message is saved, but formatting it for Slack raises. |
| AlertAgent.FormatAlertMessage | backend/agents/alert_agent.py:302-329 | The formatting loop fails exactly when the specification fails, and otherwise returns its lines joined by newlines. |
| AlertAgent.AppendBullets | backend/agents/alert_agent.py:319-320 | The bullet loop appends one bullet per item. |
| AlertAgent.AppendBlock | backend/agents/alert_agent.py:316-327 | A list block is appended when it can be rendered and fails exactly when it cannot. |
| AlertAgent.Rendered | backend/agents/alert_agent.py:355 | Each past report is rendered once, in order. |
| AlertAgent.HistoryUsesFirstTen | backend/agents/alert_agent.py:355 | Only the first ten past reports shape the history text. |
| AlertAgent.FormatHistoricalReports | backend/agents/alert_agent.py:349-358 | The history loop returns the specification history text. |
| IntakeAgent.LookupMergeValues | backend/agents/intake_agent.py:198-200 | After merging a section, each key holds the incoming value when that value is truthy, and otherwise its previous value. |
| IntakeAgent.MergeNothingTruthy | backend/agents/intake_agent.py:199 | Incoming values that are all falsy leave the section unchanged. |
| IntakeAgent.MissingContextStartsEmpty | backend/agents/intake_agent.py:187-189 | A missing or empty stored context starts from empty bio, psycho and social sections. |
| IntakeAgent.MergeSectionKeepsOthers | backend/agents/intake_agent.py:192-200 | Merging one section leaves every other key of the context unchanged. |
| IntakeAgent.MergeKeepsOtherKeys | backend/agents/intake_agent.py:187-202 | The full merge never touches context keys other than bio, psycho and social. |
| IntakeAgent.MergeSectionValue | backend/agents/intake_agent.py:193-200 | A non-empty incoming section is merged key by key into the stored section: truthy values win, everything else is kept. |
| IntakeAgent.UpdateContext | backend/agents/intake_agent.py:177-202 | The merge loop over the three sections computes the specification merge. |
| IntakeAgent.MergeOneSection | backend/agents/intake_agent.py:193-200 | The loop for one section computes the specification merge of that section. |
| IntakeAgent.MergeItems | backend/agents/intake_agent.py:198-200 | The item loop merges into a stored dictionary. It raises when the stored section is not a dictionary and some value would be written. |
| IntakeAgent.VitalParts | backend/agents/intake_agent.py:232-239 | At most one summary part comes from each vital. |
| IntakeAgent.ExtendIfTruthy | backend/agents/intake_agent.py:243-244 | At most the first n items of a list are added to the summary. |
| IntakeAgent.BioPartsShape | backend/agents/intake_agent.py:227-251 | The bio summary has at most six parts, and a truthy ADL note is always the last one. |
| IntakeAgent.VitalShownIff | backend/agents/intake_agent.py:234-239 | A vital is shown exactly when its type and value are both truthy, so a value of 0 is dropped. |
| IntakeAgent.FourthVitalIgnored | backend/agents/intake_agent.py:233 | Only the first three vitals are read; a fourth changes nothing. |
| IntakeAgent.PsychoOrder | backend/agents/intake_agent.py:253-269 | The psycho summary lists mood, then cognition, then the first concern. |
| IntakeAgent.SummarizeBio | backend/agents/intake_agent.py:227-251 | The bio summary loop returns the specification summary. |
| IntakeAgent.VitalPartsFailed | backend/agents/intake_agent.py:233-239 | Once a vital fails to render, the whole vital summary fails. |
| IntakeAgent.SummarizeVitals | backend/agents/intake_agent.py:232-239 | The vitals loop returns the specification parts. |
| IntakeAgent.EmptyBioParts | backend/agents/intake_agent.py:227-251 | An empty bio section has no summary parts. |
| IntakeAgent.EmptySectionsDashed | backend/agents/intake_agent.py:204-225 | A report with no sections is confirmed with a dash for each section, plus the confidence and the reporter. |
| IntakeAgent.PromptBuiltIff | backend/agents/intake_agent.py:118-120 | The prompt is built exactly when both the knowledge block and the patient-context block render, whatever the patient record holds. |
| IntakeAgent.UnparsableResponseFails | backend/agents/intake_agent.py:108-138 | For a patient that exists and a prompt that builds, a model reply that is not JSON fails with the structuring error. Nothing is stored. |
| IntakeAgent.BadStoredSectionRaisesFirst | backend/agents/intake_agent.py:115-120 | A truthy stored bio section that is not a dict makes the patient-context block raise. `process` raises before the model is asked, with nothing stored, whatever the reply would be. |
| IntakeAgent.BadChunkRaisesFirst | backend/agents/intake_agent.py:118-120 | A knowledge chunk whose text is not a string makes the knowledge block raise. `process` raises before the model is asked, with nothing stored. |
| IntakeAgent.SavedReportSections | backend/agents/intake_agent.py:108-175 | A saved report comes from an existing patient and a prompt that built. It holds the reply's three sections, `{}` when absent. The stored context becomes the merge, and the confirmation is the formatted one. |
| IntakeAgent.NullSectionRaisesAfterSaving | backend/agents/intake_agent.py:157-168 | A null bio section is stored and the merged context is written. Only then does the confirmation raise, and the outcome records both writes. |
| BaseAgent.FenceContent | backend/agents/base_agent.py:195-197 | The content of a code fence is never longer than the text. |
| BaseAgent.FirstBracket | backend/agents/base_agent.py:199-201 | Gives the first `{` or `[` in the text, or nothing when there is none. |
| BaseAgent.ExtractJsonText | backend/agents/base_agent.py:190-202 | The extracted JSON text is empty, starts with a bracket, or has no bracket at all. |
| BaseAgent.PlainObjectKept | backend/agents/base_agent.py:193-202 | An unfenced reply that starts with `{` is kept, stripped. |
| BaseAgent.NoBracketKept | backend/agents/base_agent.py:193-202 | An unfenced reply without brackets is returned stripped. |
| BaseAgent.FencedObject | backend/agents/base_agent.py:193-202 | A reply fenced as ```` ```json ```` yields the fenced object, stripped. |
| BaseAgent.ThinkingBudget | backend/agents/base_agent.py:204-211 | The budget is always one of 1024, 8192 or 24576, and any level other than low or high gets 8192. |
| BaseAgent.ThinkingBudgets | backend/agents/base_agent.py:204-211 | Low is 1024, medium 8192 and high 24576. Unknown levels fall back to 8192. |
| BaseAgent.EmptySharedPromptOverrides | backend/agents/base_agent.py:74-75 | An empty shared prompt leaves the agent's own prompt alone. |
| BaseAgent.PromptsJoined | backend/agents/base_agent.py:74-75 | A shared prompt comes first, then a blank line, then the agent's own prompt. |
| BaseAgent.SectionItems | backend/agents/base_agent.py:260-269 | A section summary has at most one item per entry. |
| BaseAgent.FalsySectionEmpty | backend/agents/base_agent.py:260-269 | A section whose values are all falsy is summarised as 特記なし. |
| BaseAgent.ListItem | backend/agents/base_agent.py:265-266 | A non-empty list is shown as its key and its items joined by commas. |
| BaseAgent.SummarizeSection | backend/agents/base_agent.py:260-269 | The section loop returns the specification summary. |
| BaseAgent.PatientContextFramed | backend/agents/base_agent.py:237-258 | The patient block opens and closes with its tags. It holds six to nine lines: five fixed ones, up to three section lines and the footer. |
| BaseAgent.EmptySectionsOmitted | backend/agents/base_agent.py:245-255 | Empty BPS sections add no lines, just as a missing context does. |
| BaseAgent.ChunkRenders | backend/agents/base_agent.py:286-294 | A chunk renders exactly when it is a dict whose text is a string, because the text is joined as stored. Its four lines are then the source line, a rule, the text itself and a blank. |
| BaseAgent.ChunksLines | backend/agents/base_agent.py:285-292 | When the chunks render, each one gives exactly four lines. |
| BaseAgent.ChunksLinesIff | backend/agents/base_agent.py:285-294 | The chunks render exactly when every one of them renders. |
| BaseAgent.NonTextChunkFails | backend/agents/base_agent.py:291-294 | A chunk whose text is not a string, such as `None`, makes the knowledge block raise. |
| BaseAgent.KnowledgeBlockRenders | backend/agents/base_agent.py:281-294 | The knowledge block raises exactly when some chunk is not a dict whose text is a string. |
| BaseAgent.PatientContextRenders | backend/agents/base_agent.py:245-256 | The patient block raises exactly when the stored context is truthy and either is not a dict or has a truthy section that is not a dict. The patient record never makes it raise. |
| BaseAgent.KnowledgeBlockShape | backend/agents/base_agent.py:281-294 | A knowledge block is the four lines per chunk between the opening and closing tags. |
| BaseAgent.BuildKnowledgeBlock | backend/agents/base_agent.py:271-294 | The block builder returns the specification block: the empty string for no chunks, and a failure when any chunk's text is not a string. |
| BaseAgent.ChunksLinesLoop | backend/agents/base_agent.py:285-292 | The chunk loop returns the specification lines, or fails when a chunk does. |
| BaseAgent.ChunksLinesFailed | backend/agents/base_agent.py:285-292 | Once one chunk fails to render, the whole block fails. |
| ContextAgent.ItemOf | backend/agents/context_agent.py:129-137 | An entry gives a summary item exactly when its value is truthy. |
| ContextAgent.SectionItems | backend/agents/context_agent.py:126-137 | There is at most one item per entry. |
| ContextAgent.NoItemsIff | backend/agents/context_agent.py:130 | A section has no items exactly when all its values are falsy. |
| ContextAgent.LaterEntriesIgnored | backend/agents/context_agent.py:138 | Once three items are shown, later entries do not change the summary. |
| ContextAgent.FalsyEntrySkipped | backend/agents/context_agent.py:130 | A falsy entry does not change the summary. |
| ContextAgent.FalsySectionBlank | backend/agents/context_agent.py:138 | A section with only falsy values is summarised as the empty string. |
| ContextAgent.SingleEntryShapes | backend/agents/context_agent.py:131-135 | A one-item list shows its item. A longer list shows its key and count. A non-empty dictionary shows its key and あり. |
| ContextAgent.SummarizeSection | backend/agents/context_agent.py:126-138 | A non-dictionary section raises; otherwise the loop returns the specification summary. |
| ContextAgent.BlocksIff | backend/agents/context_agent.py:103-124 | The reports render exactly when every single report renders. |
| ContextAgent.UnclassifiedReportDashed | backend/agents/context_agent.py:105-122 | A report without classification shows dashes for its sections, and an empty one also shows `?` for time and reporter. |
| ContextAgent.NullSectionRaises | backend/agents/context_agent.py:112-115 | A null section in a classification makes the whole rendering raise. |
| ContextAgent.FormatRecentReports | backend/agents/context_agent.py:98-124 | The report loop returns the specification text; no reports give the no-reports message. |
| ContextAgent.FormatReport | backend/agents/context_agent.py:104-122 | The per-report loop returns the specification block. |
| ContextAgent.SaveCommand | backend/agents/context_agent.py:154-182 | A save command always succeeds and tells the user to reply to the anchor message. |
| SummaryAgent.NamedItem | backend/agents/summary_agent.py:173-176 | A vital or medication record gives at most one item. |
| SummaryAgent.NamedItems | backend/agents/summary_agent.py:169-176 | At most one item comes from each record. |
| SummaryAgent.EntryItems | backend/agents/summary_agent.py:166-182 | A falsy entry adds no items. |
| SummaryAgent.LaterEntriesIgnored | backend/agents/summary_agent.py:183 | Once five items are collected, later entries do not change the summary. |
| SummaryAgent.FalsySectionNothingOfNote | backend/agents/summary_agent.py:183 | A section with only falsy values gives no items and is summarised as 特記なし. |
| SummaryAgent.VitalItem | backend/agents/summary_agent.py:173-176 | A vital with a type and a value is shown as `type: value`. |
| SummaryAgent.OnlyTwoVitalsShown | backend/agents/summary_agent.py:171 | Only the first two records of a list of records are summarised; the rest are ignored. |
| SummaryAgent.TwoVitalsItems | backend/agents/summary_agent.py:171 | Two well-formed vitals followed by anything give exactly their two items. |
| SummaryAgent.PlainListFirstThree | backend/agents/summary_agent.py:177-178 | A list of plain values shows its first three, joined by commas. |
| SummaryAgent.NonTextNameRaises | backend/agents/summary_agent.py:176 | A record named by a non-zero number is appended as is, so joining the items raises. |
| SummaryAgent.CollectNamed | backend/agents/summary_agent.py:171-176 | The record loop collects the specification items. |
| SummaryAgent.SummarizeSection | backend/agents/summary_agent.py:163-183 | A non-dictionary section raises; otherwise the loop returns the specification summary. |
| SummaryAgent.RawTextLine | backend/agents/summary_agent.py:144 | Every line that renders starts with 原文. For a text raw_text the line shows short texts whole and never exceeds 200 characters plus an ellipsis. A list always renders, with no bound on its length, since its first 200 items go through `str()`. A dict renders whole when it has at most 200 keys. Any other value, or a larger dict, raises. |
| SummaryAgent.RawTextCut | backend/agents/summary_agent.py:144 | Texts longer than 200 characters with the same first 200 show the same cut line ending in `...`. |
| SummaryAgent.BpsLine | backend/agents/summary_agent.py:147-157 | A section adds at most one line, and a falsy section adds none. |
| SummaryAgent.SectionLines | backend/agents/summary_agent.py:147-157 | A report has at most three section lines. |
| SummaryAgent.ReportLinesShape | backend/agents/summary_agent.py:142-157 | A rendered report has two to five lines, and its second line is the raw text line. |
| SummaryAgent.UnclassifiedReportTwoLines | backend/agents/summary_agent.py:131-159 | A report without classification is just its header line and its raw text line. |
| SummaryAgent.NullRawTextRaises | backend/agents/summary_agent.py:144 | A null raw text makes the rendering raise. |
| SummaryAgent.FormatReport | backend/agents/summary_agent.py:131-159 | The per-report loop returns the specification text. |
| SummaryAgent.CollectSectionLines | backend/agents/summary_agent.py:147-157 | The section loop returns the specification lines. |
| SummaryAgent.AppendSectionLine | backend/agents/summary_agent.py:148-149 | A section line is appended when it renders, and the loop fails exactly when it does not. |
| SummaryAgent.FormatSummaryReports | backend/agents/summary_agent.py:125-161 | The report loop returns the specification text; no reports give 報告データなし. |
| AlertsApi.SeverityCount | backend/api/alerts.py:125-127 | A severity can be counted exactly when it is hashable, and it adds at most one. |
| AlertsApi.SeverityCounts | backend/api/alerts.py:123-127 | The dashboard counts total at most the number of alerts. |
| AlertsApi.AlertStats | backend/api/alerts.py:108-133 | The total is the unacknowledged alerts read, capped at 100. The severity counts never exceed it. The recent alerts are at most five, taken from the front. |
| AlertsApi.StatsSeverityRules | backend/api/alerts.py:125-127 | On the dashboard a missing severity counts as medium, while null and `HIGH` are not counted. |
| AlertsApi.DashboardDiffersFromEngine | backend/api/alerts.py:125-127 | The dashboard counts a missing severity as medium where the risk engine counts it as low. The engine counts `HIGH` as high where the dashboard ignores it. |
| AlertsApi.ExactSeveritiesAllCounted | backend/api/alerts.py:122-130 | When every severity is exactly high, medium or low, every alert is counted. |
| AlertsApi.GetAlertStats | backend/api/alerts.py:116-133 | The counting loop returns the specification statistics. |
| AlertsApi.PatientIds | backend/api/alerts.py:37 | There are no more patient ids to fetch than alerts. |
| AlertsApi.TruthyIdFetched | backend/api/alerts.py:37 | Every truthy patient id of a listed alert is fetched. |
| AlertsApi.FetchedIdIsTruthyId | backend/api/alerts.py:37 | Only truthy ids that occur in the list are fetched. |
| AlertsApi.SamePatientFetchedOnce | backend/api/alerts.py:37 | Alerts of one patient fetch that patient once. |
| AlertsApi.EnrichedTitle | backend/api/alerts.py:45-46 | A missing or empty title is replaced by the pattern name, or by アラート. |
| AlertsApi.EnrichedPatientName | backend/api/alerts.py:41-43 | A fetched patient's name is added, 不明 when unnamed; otherwise the name is left as it was. |
| AlertsApi.EnrichKeepsOtherKeys | backend/api/alerts.py:40-46 | Enrichment touches only the title and the patient name. |
| AlertsApi.EnrichInPlace | backend/api/alerts.py:40-46 | The in-place loop enriches every alert of the array. |
| AlertsApi.ListAlerts | backend/api/alerts.py:18-51 | Listing fails exactly when a patient id is unhashable. Otherwise every alert is enriched from one batch fetch, and the count is the number listed. |
| AlertsApi.FirstWithId | backend/api/alerts.py:65-69 | Gives the first alert with that id, or nothing when there is none. |
| AlertsApi.FindAlert | backend/api/alerts.py:65-69 | The search loop finds the specification index. |
| AlertsApi.GetAlert | backend/api/alerts.py:54-80 | An alert is not found exactly when none of the first 100 stored alerts has that id. |
| AlertsApi.OldAlertNotFound | backend/api/alerts.py:63 | An alert beyond the first 100 is reported as not found. |
| AlertsApi.AcknowledgeAlert | backend/api/alerts.py:83-105 | An unknown alert raises and changes nothing. A known one is marked acknowledged, and then the level is recalculated with the acknowledgement trigger over the marked alerts. The patients' risk fields and the history logs become exactly that recalculation's outcome. A level change is logged with a snapshot that no longer counts the acknowledged alert. |
| AlertsApi.NewestFirst | backend/services/firestore_service.py:243 | The store lists the saved alerts in reverse saving order, each with its severity and unacknowledged. |
| AlertsApi.ResponseReads | backend/api/alerts.py:171-177 | The response reports the result's success flag (false when missing), its patient name or else the stored one, its alerts (none when missing) and its error (None when missing). |
| AlertsApi.FailedScanReports | backend/agents/alert_agent.py:139-143 | When the agent fails without raising, the response reports failure, no alerts and the agent's error, under the stored patient name. |
| AlertsApi.SavedScanReports | backend/agents/alert_agent.py:170-174 | When the agent saved everything, the response reports success, no error and every saved alert dict in saving order. |
| AlertsApi.SaveReply | backend/agents/alert_agent.py:145-168 | The reply's alerts are saved in order, newest first in the store, up to the first that cannot be built. That case raises and keeps what was saved. When all are saved and there is at least one, the level is recalculated with "alert_created" over the store that holds them. |
| AlertsApi.ScanPatientAlerts | backend/api/alerts.py:136-177 | A missing patient is a 404 that changes nothing. An agent that raises before saving gives a 500 that changes nothing, and one that raises while saving gives a 500 that keeps the saved alerts. A failed agent result leaves the alerts alone. Otherwise every alert is saved, and the level is recalculated with "alert_created" when there is one. After any run that did not raise, the level is recalculated with "alert_scan" over the new alerts, and the response reports the agent's result. |
| AlertsApi.ScanCountsSavedAlerts | backend/agents/alert_agent.py:165-168 | Up to 100 alerts saved by a scan are all counted by the recalculations that follow, newest first and ahead of every older alert. |
| KnowledgeApi.CategoryTable | backend/api/knowledge.py:18-27 | There are eight categories with distinct keys, and they are exactly bps, clinical, guidelines, homecare, palliative, geriatric, medication and protocol. |
| KnowledgeApi.CreateDocument | backend/api/knowledge.py:88-121 | Creation fails with 400 exactly for an unknown category. A new document is pending with no chunks and no bindings, keeps its title and category, and has an empty source when none is given. Both stamps are the creation time. |
| KnowledgeApi.UpdatedFieldsAreTheGivenOnes | backend/api/knowledge.py:226-237 | A valid update writes `updated_at` first, then exactly the non-empty fields among title, category and source, in that order. |
| KnowledgeApi.UpdatedValuesAreTheRequests | backend/api/knowledge.py:226-237 | Each written field holds the requested value or the time, and a written category is a known one. |
| KnowledgeApi.UnknownCategoryRefused | backend/api/knowledge.py:229-231 | A non-empty unknown category makes the update fail with 400. |
| KnowledgeApi.Score | backend/api/knowledge.py:296-300 | A score exists exactly when the title and the source are not null. |
| KnowledgeApi.ScoreMeaning | backend/api/knowledge.py:296-300 | The score is 0, 5, 10 or 15. It is positive exactly when the query occurs in the title or the source, and at least 10 exactly when it occurs in the title. |
| KnowledgeApi.Hits | backend/api/knowledge.py:290-312 | There is at most one hit per document, and every hit scores 5, 10 or 15. |
| KnowledgeApi.WithScore | backend/api/knowledge.py:315 | Selects the hits with one given score. |
| KnowledgeApi.SortedDescends | backend/api/knowledge.py:315 | Sorting puts the scores in descending order. |
| KnowledgeApi.SortIsPermutation | backend/api/knowledge.py:315 | Sorting neither loses nor adds hits. |
| KnowledgeApi.SortIsStable | backend/api/knowledge.py:315 | Hits with equal scores keep their original order. |
| KnowledgeApi.Search | backend/api/knowledge.py:267-318 | The response echoes the query, its total is the number of results, and a non-negative limit caps the results. |
| KnowledgeApi.SearchBestFirst | backend/api/knowledge.py:315-316 | Search results come best first. |
| KnowledgeApi.SearchKeepsAllHits | backend/api/knowledge.py:302-316 | When the limit is large enough, the results are exactly the hits. |
| KnowledgeApi.QueryCaseIgnored | backend/api/knowledge.py:291 | Searching for the lower-cased query gives the same results. |
| KnowledgeApi.HitIff | backend/api/knowledge.py:284-303 | A document is a hit exactly when its category is selected and the query occurs in its title or source. |
| KnowledgeApi.HitsFromDocs | backend/api/knowledge.py:293-312 | Every hit names a listed document. |
| KnowledgeApi.SearchKnowledge | backend/api/knowledge.py:267-318 | The search loop returns the specification search. |
| PatientsApi.AgeIsBirthdaysReached | backend/api/patients.py:157-161 | The computed age is the number of birthdays reached by today: the age-th one is reached, the next is not. |
| PatientsApi.AgeNonNegative | backend/api/patients.py:157-161 | A birth date on or before today gives a non-negative age. |
| PatientsApi.LeapDayBirthday | backend/api/patients.py:157-161 | Someone born on 29 February gains a year on 1 March, not on 28 February. |
| PatientsApi.Padded | backend/api/patients.py:154 | A number that fits the width is padded with zeros to exactly that width. |
| PatientsApi.IsoDateShape | backend/api/patients.py:154 | An ISO date has ten characters with dashes at positions 4 and 7. |
| PatientsApi.NewPatientFields | backend/api/patients.py:138-162 | A new patient starts at risk level low. It has an age exactly when a birth date is given, and then the ISO birth date and the age on that date. |
| PatientsApi.DumpWellFormed | backend/api/patients.py:245 | The dumped request has its twelve fields with distinct names, birth date third, and never `updated_at`. |
| PatientsApi.UpdateDataKeys | backend/api/patients.py:244-258 | The update holds exactly the given fields, in order, with `age` right after a given birth date. |
| PatientsApi.GivenNames | backend/api/patients.py:244-258 | Every updated name is a request field, and `age` appears only when a birth date is given. |
| PatientsApi.TextFieldStored | backend/api/patients.py:257-258 | A given field is stored with its value. |
| PatientsApi.BirthDateStored | backend/api/patients.py:247-248 | A given birth date is stored in ISO form. |
| PatientsApi.AgeStored | backend/api/patients.py:249-256 | A given birth date also stores the recomputed age. |
| PatientsApi.NullFieldOmitted | backend/api/patients.py:246 | A null field is not written. |
| PatientsApi.NullNameNotGiven | backend/api/patients.py:246 | A null field is not among the updated field names. |
| PatientsApi.SameAgeOnCreateAndUpdate | backend/api/patients.py:250-256 | Create and update compute the same age from the same birth date. |
| PatientsApi.BuildUpdateData | backend/api/patients.py:244-258 | The update-building loop returns the specification update data. |
| PatientsApi.EmptyRequestWritesNothing | backend/api/patients.py:260-266 | A request with every field null writes nothing. |
| PatientsApi.MergeLookup | backend/services/firestore_service.py:163 | After a document update, updated keys hold the new values and every other key keeps its old one. |
| PatientsApi.PatientStore.Find | backend/services/firestore_service.py:137-145 | A patient is found exactly when stored, and the returned document carries its id. |
| PatientsApi.PatientStore.Create | backend/api/patients.py:126-165 | The new patient document is stored under a fresh id with its fields, both server timestamps and status active. |
| PatientsApi.PatientStore.Update | backend/api/patients.py:233-267 | An unknown patient is a 404 and changes nothing. An update with no fields writes nothing. Otherwise the fields and `updated_at` are merged into the document, and the given field names plus `updated_at` are reported. |
| StorageService.FirstIndex | backend/services/storage_service.py:47 | Gives the first occurrence of a character, or nothing exactly when it does not occur. |
| StorageService.ParseGcsUri | backend/services/storage_service.py:36-50 | Every failure names the rejected URI. |
| StorageService.ParsedShape | backend/services/storage_service.py:47-50 | A parsed URI has a non-empty bucket without slashes and a non-empty path. The URI is `gs://bucket/path`, possibly followed by one newline. |
| StorageService.UploadUriParses | backend/services/storage_service.py:47-50 | The URI built by an upload parses back to its bucket and path (round trip). |
| StorageService.TrailingNewlineAccepted | backend/services/storage_service.py:47 | `$` lets one trailing newline through, and it is not part of the path. |
| StorageService.OtherSchemeRejected | backend/services/storage_service.py:47-49 | A URI with another scheme is rejected. |
| StorageService.EmptyBucketRejected | backend/services/storage_service.py:47-49 | A URI with an empty bucket is rejected. |
| StorageService.MissingPathRejected | backend/services/storage_service.py:47-49 | A URI without a path, with or without the slash, is rejected. |
| StorageService.Storage.UploadFile | backend/services/storage_service.py:52-80 | The object is stored with its content and type. The returned URI names it and parses back to it. |
| StorageService.Storage.DeleteFile | backend/services/storage_service.py:128-150 | A malformed URI fails and changes nothing. Otherwise the object is removed, and the result says whether it existed. |
| StorageService.SignedUrl | backend/services/storage_service.py:82-126 | Signing fails exactly when the URI does not parse, and otherwise signs its bucket and path. |
| StorageService.UploadThenDelete | backend/services/storage_service.py:139-148 | Deleting a just-uploaded file finds it, and afterwards it is gone. |
| SlackService.GetClient | backend/services/slack_service.py:26-30 | A client is made exactly when a non-empty token is given; otherwise it raises the missing-token error. |
| SlackService.BotIdCache.GetBotUserId | backend/services/slack_service.py:152-166 | No token gives no id and no call. A cached token answers from the cache without a call. Otherwise `auth.test` is called once, and only a successful answer is cached and returned. |
| SlackService.CachedIdIsStable | backend/services/slack_service.py:154-166 | Once an id is fetched, a second request gives the same id without calling Slack. |
| SlackService.Dashed | backend/services/slack_service.py:422 | Spaces and full-width spaces become dashes; every other character is kept. |
| SlackService.KeepAllowed | backend/services/slack_service.py:423 | Only alphanumerics, dashes and underscores remain. |
| SlackService.SanitizedShape | backend/services/slack_service.py:420-424 | A channel name starts with `pt-`, has at most 80 characters, and holds only allowed characters. |
| SlackService.CleanNameKept | backend/services/slack_service.py:420-424 | A name that is already clean becomes `pt-` plus the name, cut at 80 characters. |
| SlackService.FirstNamed | backend/services/slack_service.py:263-265 | A channel found has the name asked for and is among the listed channels. |
| SlackService.FirstNamedMeaning | backend/services/slack_service.py:263-265 | The channel found is the first with that name, and none is found exactly when no channel has it. |
| SlackService.PagesAfterEndIgnored | backend/services/slack_service.py:267-269 | Pages after the one with no next cursor are never listed. |
| SlackService.FindChannelByName | backend/services/slack_service.py:252-270 | The cursor loop returns the first channel with that name across the pages it reads. It starts with no cursor and follows each page's next cursor until one is empty. |
| SlackService.FindInPage | backend/services/slack_service.py:263-265 | The page loop returns the first channel with that name. |
| SlackService.PageFound | backend/services/slack_service.py:263-265 | A name found on a page ends the search there. |
| SlackService.PageMissed | backend/services/slack_service.py:267-269 | A name missing from a page continues on the next page, or ends with nothing at the last page. |
| SlackService.InviteUsers | backend/services/slack_service.py:631-682 | No users succeed with no call. A missing token fails. Otherwise Slack is called once, and success reports either zero or all users invited. |
| SlackService.AlreadyInChannelIsSuccess | backend/services/slack_service.py:672-673 | An `already_in_channel` error counts as success with zero invited. |
| SlackService.ArchiveChannel | backend/services/slack_service.py:588-628 | Archiving succeeds exactly when Slack accepts it or says the channel is already archived. |
| SlackService.NewUsers | backend/services/slack_service.py:785 | The retry list is exactly the requested users that are not yet members, in order. |
| SlackService.NewUsersInOrder | backend/services/slack_service.py:785 | Filtering a concatenation filters each part. |
| SlackService.NoNewUsers | backend/services/slack_service.py:785 | When every user is a member, nobody is retried. |
| SlackService.SafeInvite | backend/services/slack_service.py:738-822 | No users succeed without a call. There are at most two invite calls, and the first invites everyone. The answer fails only when the member list or the retry fails after an `already_in_channel` error. |
| SlackService.SafeInviteRetry | backend/services/slack_service.py:783-803 | After `already_in_channel`, only the non-members are invited again. A successful retry reports them and how many were already there. |
| SlackService.AllMembersInviteNobody | backend/services/slack_service.py:787-792 | When all users are already members, nobody is invited and no retry is made. |
| SlackService.MemberUser | backend/services/slack_service.py:707-715 | A member is skipped exactly when it is deleted or a bot. |
| SlackService.WorkspaceUsers | backend/services/slack_service.py:705-719 | There are no more users than members. |
| SlackService.UserNameRule | backend/services/slack_service.py:712 | A user's name is the real name, or the user name when the real name is empty. |
| SlackService.SkippedMembersAddNothing | backend/services/slack_service.py:708-709 | Deleted members and bots add no user. |
| SlackService.ListWorkspaceUsers | backend/services/slack_service.py:685-735 | The member loop returns the specification user list. |

## Left out

- Firestore, Slack Web API, Google Cloud Storage and Gemini calls are not modelled. Their answers are parameters: lookups, fetched pages, `auth.test` and invite answers, the embedding model, the signing service and the LLM's parsed reply. An exception a call raises is an error value.
- Store helpers not defined in `backend/services/firestore_service.py` are opaque collaborators: `get_latest_alert_timestamp` (its answer is the `latest` parameter), `create_risk_history_entry` (modelled as appending one entry to `RiskService.RiskStore.history`), `save_knowledge_chunks`, `get_chunks_by_categories`, `get_patients_batch` (the `fetch` parameter) and `get_user`.
- The wall clock (`time.time`, `datetime.now`, `date.today`) is the `now` or `today` parameter.
- The HMAC-SHA256 computation (RFC 2104) and the constant-time comparison are the uninterpreted function `mac` plus string equality. The UTF-8 decoding of the request body is left out: bodies are strings.
- Python's Unicode `lower()` is modelled for ASCII letters only (`Text.Lower`). `isalnum()` in the channel-name sanitiser is the parameter `alnum`. Both are Unicode tables the model does not carry.
- Regular expressions are written as explicit scanners: the mention pattern `<@[A-Z0-9]+>`, the paragraph split on two or more newlines, and the `gs://` pattern.
- Floating point is left out because the model has no floats: `cosine_similarity` and embedding ranking (`backend/services/rag_service.py:166-175` and `281-302`), embedding vectors, and the rendering of the confidence value (the `renderConfidence` parameter of `IntakeAgent`).
- The content of LLM outputs is left out because it is nondeterministic: alert detection, BPS structuring, summaries and answers. The prompt text is not modelled; only whether its knowledge and patient blocks render is.
- The root agent's handlers (`_handle_report`, `_handle_summary`, `_handle_save`, `_handle_question`, `_get_user_name`, `run_morning_scan`) are Slack and store I/O. Only their routing (`RootAgent.RouteEvent`, `RootAgent.DispatchMention`) and the role table are modelled. These handlers call `SlackService.get_client()` without a token, which always raises (`SlackService.GetClient` states that raise); the model does not follow the handlers past that call.
- AlertAgent.Scan: the look-back query and the per-patient `process` call are the parameters `hasRecent` and `detect`. The clock and the seven-day window are not modelled; `detect` says only whether detection reported a failure, gave alerts, or raised.
- `scan_all_alerts` in `backend/api/alerts.py:178-197` passes `lookback_days`, which `run_morning_scan` does not accept, so the call raises. It is not modelled.
- There is no redelivery guard, event de-duplication, cross-instance claim or background dispatch: `backend/main.py:89-98` awaits the root agent inline, so none is modelled.
- CRUD and configuration glue with no logic worth stating is not modelled:
  - `api/settings.py`, `api/setup.py`, `api/users.py`, `api/dashboard.py`, `auth/dependencies.py`;
  - knowledge document listing, reading, upload, deletion, bindings and category listing;
  - `get_patient` and `list_patients`, and the Slack channel creation inside `create_patient`;
  - the other `SlackService` helpers (channel creation, posting, anchor messages, user lookup);
  - the Pydantic declarations in `models/*.py`.
- The Python dict/list values are `PyValue.Value`. Its `repr` puts strings in single quotes without escaping quotes or control characters; only plain text is rendered exactly.
- RagService.ChunkText: requires `chunkSize >= 1`; the only caller passes 500, and sizes below 1 are not modelled. It states the chunk invariants: indexes, stripping, the size bound below the cap, the count bound and the single-paragraph case. It does not state every chunk's exact text.
- RagService.SplitJoin: the round trip is stated for texts without runs of three or more newlines and without a leading newline. Other texts lose newlines when split, as in Python.
- SlackService.FindChannelByName: requires that some page, the ghost index `end`, has an empty next cursor. The Python loop would run forever on an endless cursor chain, and an endless chain cannot be written as a finite list of pages.
- SlackVerify.ParseInt: accepts what Python's `int()` accepts for ASCII text (sign, surrounding whitespace, single underscores between digits). Non-ASCII digits and whitespace are not modelled.
- RiskService.RiskStore.Recalculate: the patient's risk fields and the history are maps in one object. Firestore's separate writes and the `updated_at` server timestamp are not modelled.
- AlertsApi.ScanPatientAlerts: the agent's patient read is the endpoint's, the alert dicts in the response lack the `created_at` server timestamp and the `acknowledged` flag that `create_alert` adds to them, and the agent's prompt building and model call are the `AgentRun` parameter. The id the store gives each alert is the parameter `newId`.
- PatientsApi.PatientStore.Create: the new id and the server timestamp are parameters, not generated.

## Findings

| source | as written | input that shows it | evidently intended | confidence | as-written member | corrected member |
|---|---|---|---|---|---|---|
| backend/main.py:69-74 | The Slack signature check is wrapped in `try ... except Exception`, whose fallback reads `request.json()` again. A rejection (`HTTPException` 400) is therefore swallowed and the request is processed anyway. | A signing secret is configured and a POST to `/slack/events` carries a wrong `X-Slack-Signature`, for a `message` event in a patient's anchor thread. The event is routed to intake. | A request that the signature guard rejects gets the guard's 400 response and is never routed. | not executed; high that the guard has no effect, medium that this is unintended (the fallback is commented as being for development) | SlackEvents.ForgedRequestHandled | SlackEvents.ForgedRequestRejected |
