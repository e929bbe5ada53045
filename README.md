# Submission history, ingestion and the submissions facade of ReportStream's prime-router

This project models four parts of ReportStream's prime-router back end in Dafny, and proves properties of the model.

- **Submission history** (`history.dfy`, `history_properties.dfy`). The `DetailedSubmissionHistory` of a submission is built in three steps:
  - Seeding: the receive action's own reports and logs give the initial destinations and the sender fields.
  - Enrichment: the process, send and download actions that descend from the receive action are folded in.
  - Summary: the destinations are reduced to an overall status, a planned completion time and an actual completion time.

  The history is a class whose fields change in place. Each of its methods is proved against a function on a `HistoryState` value. The lemmas state what seeding, each enrichment stage and the status rules promise.
- **Ingestion** (`receiver.dfy`). This covers duplicate detection over a report's rows, and the COVID and full-ELR receivers.
  - The workflow engine is a record of functions the model does not look inside: row hashes, the duplicate lookup, parsers, routing, the blob store and digest formatting.
  - Sending to the processing queue is not an engine function. It is the `SendMessage` effect.
  - Each receiver returns, in order, the state-changing calls it made (record, track, upload, insert, route and enqueue) and how the call ended. Pure engine functions such as hashing and parsing are not listed as effects.
- **Submissions facade** (`facade.dfy`). This covers argument validation for a submission listing, and how one detailed history is assembled from its root action and the related actions. The stores are records of functions.
- **Topics** (`topics.dfy`). This is the `Topic` enum of the settings: each topic's JSON spelling, whether it uses the universal pipeline, and the reverse lookup.

`wrappers.dfy` holds the `Option` and `Result` types.

Times (`OffsetDateTime`) are integers on one time line. Nullable values are `Option`s. An exception thrown by the source is a `Failure`, or a non-`Accepted` outcome.

Where the code and its documentation disagree, the model follows the code:

- The one-sender check of `init` does not fire when the receive action logged an error. In that case `id` is reset to null, so a second report from a sender is accepted. `SenderCheckOnlyWithoutErrors` states this.
- The order of descendants within one stage matters. `SendOrderMatters` shows two send descendants that give different histories when swapped. Only the order across stages is fixed.
- A destination with zero items changes the status of a history that had no destinations: RECEIVED becomes NOT_DELIVERING. "Zero-item destinations are ignored" therefore holds only once some destination exists (`ZeroItemDestinationIgnored`, `ZeroItemDestinationLeavesReceived`).
- A destination created by a send report starts with no sent reports. One created by a download report starts holding that report.
- A report with no items gets a file-level duplicate error when duplicate detection runs, because zero duplicate indexes equal its zero items (`EmptyReportIsDuplicateFile`).

## Model

| member | source | states |
|---|---|---|
| Topics.FromJsonValue | prime-router/src/main/kotlin/SettingsProvider.kt:58-63 | a topic is found only for its own JSON spelling; null, or any string that is no topic's spelling, gives null |
| Topics.AssociateBy | prime-router/src/main/kotlin/SettingsProvider.kt:58 | the keys are exactly the topics' spellings and each key maps to a topic spelled that way |
| Topics.FromJsonValueRoundTrip | prime-router/src/main/kotlin/SettingsProvider.kt:49-63 | every topic's spelling looks that topic up |
| Topics.JsonValInjective | prime-router/src/main/kotlin/SettingsProvider.kt:49-54 | no two topics share a spelling |
| Topics.JsonMapContents | prime-router/src/main/kotlin/SettingsProvider.kt:48-58 | the reverse map has exactly the six entries, one per topic |
| Topics.JsonMapSize | prime-router/src/main/kotlin/SettingsProvider.kt:58 | the reverse map has as many entries as there are topics |
| Topics.FromJsonValueNull | prime-router/src/main/kotlin/SettingsProvider.kt:63 | null looks up nothing |
| Topics.UniversalPipelineTopics | prime-router/src/main/kotlin/SettingsProvider.kt:48-54 | only FULL_ELR and ETOR_TI use the universal pipeline |
| Topics.AllTopicsComplete | prime-router/src/main/kotlin/SettingsProvider.kt:48-55 | the list of values holds every topic |
| SubmissionHistory.FilterLogsMembers | prime-router/src/main/kotlin/history/SubmissionHistory.kt:159-161 | the logs kept are exactly the filter-level logs about the given report, and there are no more of them than logs |
| SubmissionHistoryProperties.FilterLogsCounts | prime-router/src/main/kotlin/history/SubmissionHistory.kt:159-161 | each filter-level log about the report is kept as many times as it occurs; every other log occurs zero times |
| SubmissionHistoryProperties.FilterLogsAppend | prime-router/src/main/kotlin/history/SubmissionHistory.kt:159-161 | filtering keeps the order of the logs: the filter logs of two runs of logs are those of the first run followed by those of the second |
| SubmissionHistoryProperties.FilterItemsAppend | prime-router/src/main/kotlin/history/SubmissionHistory.kt:163-165 | the filter items of two runs of logs exist exactly when those of both runs exist, and are then the first run's followed by the second's; one detail that is not a filter result spoils the list |
| SubmissionHistory.DetailedSubmissionHistory.Create | prime-router/src/main/kotlin/history/SubmissionHistory.kt:155-191 | constructing a history fails exactly when `init` throws, with the same cause; otherwise the new history's state is the seeded state |
| SubmissionHistory.SeedFailureSticky | prime-router/src/main/kotlin/history/SubmissionHistory.kt:156-190 | once a report makes `init` throw, the later reports change nothing about that outcome |
| SubmissionHistoryProperties.SeedOneDestinationPerReceivingReport | prime-router/src/main/kotlin/history/SubmissionHistory.kt:156-177 | seeding gives one destination per report with a receiving organisation, in order, each built from its own report and that report's filter logs |
| SubmissionHistoryProperties.FilterItemsFromOwnReport | prime-router/src/main/kotlin/history/SubmissionHistory.kt:158-164 | each filter item of a destination comes from a filter-level log about that destination's own report |
| SubmissionHistoryProperties.SeedIdSuppressedOnErrors | prime-router/src/main/kotlin/history/SubmissionHistory.kt:180-184 | a history whose receive action logged an error has no id |
| SubmissionHistoryProperties.SeedIdWithoutErrors | prime-router/src/main/kotlin/history/SubmissionHistory.kt:180-184 | without errors, the id is present exactly when some report came from a sender, and it is such a report's id |
| SubmissionHistoryProperties.SecondSenderRejected | prime-router/src/main/kotlin/history/SubmissionHistory.kt:180-182 | without errors, two reports from a sender make `init` throw |
| SubmissionHistoryProperties.SenderCheckOnlyWithoutErrors | prime-router/src/main/kotlin/history/SubmissionHistory.kt:180-184 | with an error logged, reports that go to no receiver never make `init` throw, however many came from a sender |
| SubmissionHistoryProperties.ReceivingStepKeepsId | prime-router/src/main/kotlin/history/SubmissionHistory.kt:156-177 | handling a report sent to a destination leaves the id alone |
| SubmissionHistory.ReceivingStep | prime-router/src/main/kotlin/history/SubmissionHistory.kt:157-177 | a report with a receiving organisation adds one destination after the existing ones, for that organisation and service, with the report's item count and next action time and no sent or downloaded reports; a report without one changes nothing; nothing but the destinations changes; only a report with a receiving organisation can throw, and the error names that report |
| SubmissionHistory.SenderStep | prime-router/src/main/kotlin/history/SubmissionHistory.kt:179-189 | a report from a sender throws exactly when an id is already set; otherwise the destinations stay, the id is set exactly when no error was logged and is then the report's id, and the sender (organisation and client, an absent client as ""), item count, external name and topic come from the report; a report from no sender changes nothing |
| SubmissionHistory.SeedReports | prime-router/src/main/kotlin/history/SubmissionHistory.kt:156-190 | seeding gives at most one destination per report |
| SubmissionHistory.DetailedSubmissionHistory.SeedAll | prime-router/src/main/kotlin/history/SubmissionHistory.kt:156-190 | the loop of `init` over the reports computes the seeding, stopping at the first report that throws |
| SubmissionHistory.DetailedSubmissionHistory.SeedReceivingReport | prime-router/src/main/kotlin/history/SubmissionHistory.kt:157-177 | the handling of a report sent to a destination computes the receiving step |
| SubmissionHistory.DetailedSubmissionHistory.SeedSenderReport | prime-router/src/main/kotlin/history/SubmissionHistory.kt:179-189 | the handling of the report received from a sender computes the sender step |
| SubmissionHistory.DetailedSubmissionHistory.DestinationCount | prime-router/src/main/kotlin/history/SubmissionHistory.kt:151-153 | the count is the number of positions whose destination has items; it is zero exactly when no destination has items, and it is the number of destinations exactly when all have items |
| SubmissionHistory.RealDestinationsMembers | prime-router/src/main/kotlin/history/SubmissionHistory.kt:300 | the real destinations are exactly the destinations with a non-zero item count; all are kept exactly when none has zero items |
| SubmissionHistory.RealDestinationsCount | prime-router/src/main/kotlin/history/SubmissionHistory.kt:152 | there are as many real destinations as positions whose destination has items |
| SubmissionHistoryProperties.RealDestinationsCounts | prime-router/src/main/kotlin/history/SubmissionHistory.kt:300 | each destination with items is kept as often as it occurs, and one with zero items not at all |
| SubmissionHistoryProperties.RealDestinationsAppend | prime-router/src/main/kotlin/history/SubmissionHistory.kt:300 | the filter keeps the order: the real destinations of two lists are those of the first followed by those of the second |
| SubmissionHistoryProperties.OfKindMembers | prime-router/src/main/kotlin/history/SubmissionHistory.kt:200-210 | the descendants kept are exactly those of the given kind |
| SubmissionHistory.DetailedSubmissionHistory.EnrichWithDescendants | prime-router/src/main/kotlin/history/SubmissionHistory.kt:198-211 | the check passes exactly when the descendants' action ids are distinct; if it fails nothing changes, otherwise the new state is every process step, then every send step, then every download step |
| SubmissionHistory.DetailedSubmissionHistory.EnrichWithStage | prime-router/src/main/kotlin/history/SubmissionHistory.kt:200-210 | one stage applies the descendants of its kind in their order and leaves the descendants unchanged |
| SubmissionHistory.StageFoldIsFoldOfKind | prime-router/src/main/kotlin/history/SubmissionHistory.kt:201-209 | one pass that steps on each descendant of a kind is the fold over the descendants of that kind |
| SubmissionHistoryProperties.EnrichIgnoresOrderAcrossKinds | prime-router/src/main/kotlin/history/SubmissionHistory.kt:198-211 | exchanging two groups of descendants that share no action kind changes nothing |
| SubmissionHistoryProperties.EnrichIgnoresOtherKinds | prime-router/src/main/kotlin/history/SubmissionHistory.kt:198-211 | batch and other descendants contribute nothing |
| SubmissionHistoryProperties.EnrichWithNothing | prime-router/src/main/kotlin/history/SubmissionHistory.kt:198-211 | no descendants, no change |
| SubmissionHistory.DetailedSubmissionHistory.EnrichWithProcessAction | prime-router/src/main/kotlin/history/SubmissionHistory.kt:219-225 | a process descendant's destinations, errors and warnings are added after the existing ones |
| SubmissionHistoryProperties.ProcessStageAppends | prime-router/src/main/kotlin/history/SubmissionHistory.kt:219-225 | the process stage appends every process descendant's destinations, errors and warnings in order; existing entries and all other fields are unchanged |
| SubmissionHistoryProperties.DeliveryStagesOnlyTouchDestinations | prime-router/src/main/kotlin/history/SubmissionHistory.kt:233-293 | send and download descendants change the destinations and nothing else |
| SubmissionHistory.FindDestination | prime-router/src/main/kotlin/history/SubmissionHistory.kt:236-238 | the index found is the first destination whose organisation and service match the report; none is found exactly when none matches |
| SubmissionHistory.NewDestination | prime-router/src/main/kotlin/history/SubmissionHistory.kt:242-253 | the destination opened for a report is for that report's organisation and service, carries its item counts, and has no filters, no sending time and no reports |
| SubmissionHistory.AddSentReport | prime-router/src/main/kotlin/history/SubmissionHistory.kt:236-255 | one sent report adds at most one destination; each existing destination changes only by reports appended to its sent reports; an added destination has no filters and no sending time |
| SubmissionHistory.AddDownloadedReport | prime-router/src/main/kotlin/history/SubmissionHistory.kt:270-290 | one downloaded report adds at most one destination; each existing destination changes only by reports appended to its downloaded reports; an added destination has no filters and no sending time |
| SubmissionHistory.SendReports | prime-router/src/main/kotlin/history/SubmissionHistory.kt:235-257 | a send action adds at most one destination per report, grows only the sent reports of the destinations already there, and adds only destinations without filters or sending time |
| SubmissionHistory.DownloadReports | prime-router/src/main/kotlin/history/SubmissionHistory.kt:269-292 | a download action adds at most one destination per report, grows only the downloaded reports of the destinations already there, and adds only destinations without filters or sending time |
| SubmissionHistory.DetailedSubmissionHistory.AddSend | prime-router/src/main/kotlin/history/SubmissionHistory.kt:237-254 | one sent report changes the destinations as the one-report function says, and nothing else |
| SubmissionHistory.DetailedSubmissionHistory.AddDownload | prime-router/src/main/kotlin/history/SubmissionHistory.kt:271-289 | one downloaded report changes the destinations as the one-report function says, and nothing else |
| SubmissionHistory.DetailedSubmissionHistory.EnrichWithSendAction | prime-router/src/main/kotlin/history/SubmissionHistory.kt:233-258 | each sent report goes to its destination in order |
| SubmissionHistory.DetailedSubmissionHistory.EnrichWithDownloadAction | prime-router/src/main/kotlin/history/SubmissionHistory.kt:266-293 | each downloaded report goes to its destination in order |
| SubmissionHistory.DetailedSubmissionHistory.EnrichWithAction | prime-router/src/main/kotlin/history/SubmissionHistory.kt:200-210 | one process, send or download descendant is applied |
| SubmissionHistoryProperties.FindDestinationIsFirstMatch | prime-router/src/main/kotlin/history/SubmissionHistory.kt:236-238 | the first matching destination is the one found |
| SubmissionHistoryProperties.SentReportJoinsMatchingDestination | prime-router/src/main/kotlin/history/SubmissionHistory.kt:236-240 | a sent report with a matching destination grows only that destination's sent reports, by that report |
| SubmissionHistoryProperties.SentReportWithoutDestination | prime-router/src/main/kotlin/history/SubmissionHistory.kt:241-254 | a sent report matching no destination appends one with no filters, no sending time and no sent reports, or is dropped when its organisation or service is null |
| SubmissionHistoryProperties.DownloadedReportJoinsMatchingDestination | prime-router/src/main/kotlin/history/SubmissionHistory.kt:269-273 | a downloaded report with a matching destination grows only that destination's downloaded reports, by that report |
| SubmissionHistoryProperties.DownloadedReportWithoutDestination | prime-router/src/main/kotlin/history/SubmissionHistory.kt:274-289 | a downloaded report matching no destination appends one that holds exactly that report among its downloads, or is dropped when its organisation or service is null |
| SubmissionHistoryProperties.AddSentReportKeepsKeysUnique | prime-router/src/main/kotlin/history/SubmissionHistory.kt:236-254 | one sent report never creates a second destination for an organisation and service |
| SubmissionHistoryProperties.AddDownloadedReportKeepsKeysUnique | prime-router/src/main/kotlin/history/SubmissionHistory.kt:269-289 | one downloaded report never creates a second destination for an organisation and service |
| SubmissionHistoryProperties.SendReportsKeepKeysUnique | prime-router/src/main/kotlin/history/SubmissionHistory.kt:233-258 | a send descendant keeps the destinations' organisation and service pairs distinct |
| SubmissionHistoryProperties.DownloadReportsKeepKeysUnique | prime-router/src/main/kotlin/history/SubmissionHistory.kt:266-293 | a download descendant keeps the destinations' organisation and service pairs distinct |
| SubmissionHistoryProperties.SentReportHasDestination | prime-router/src/main/kotlin/history/SubmissionHistory.kt:236-254 | after a send, a report naming both an organisation and a service has a matching destination |
| SubmissionHistoryProperties.SendOrderMatters | prime-router/src/main/kotlin/history/SubmissionHistory.kt:198-258 | for two send descendants, each with one report for the same new destination and with different item counts, the enriched history depends on which descendant comes first |
| SubmissionHistoryProperties.EnrichOfSendsOnly | prime-router/src/main/kotlin/history/SubmissionHistory.kt:198-211 | with send descendants only, enriching is the send stage alone |
| SubmissionHistory.DetailedSubmissionHistory.EnrichWithSummary | prime-router/src/main/kotlin/history/SubmissionHistory.kt:299-305 | the status is set first, then the two completion times, which read the new status |
| SubmissionHistory.Summarize | prime-router/src/main/kotlin/history/SubmissionHistory.kt:299-305 | the summary changes only the status and the two completion times; an actual completion time implies DELIVERED, and a planned one implies WAITING_TO_DELIVER, PARTIALLY_DELIVERED or DELIVERED |
| SubmissionHistory.DetailedSubmissionHistory.CalculateStatus | prime-router/src/main/kotlin/history/SubmissionHistory.kt:313-359 | the counting loops give the status the status rules define |
| SubmissionHistoryProperties.FinishedCountBounds | prime-router/src/main/kotlin/history/SubmissionHistory.kt:335-352 | the finished count is at most the number of real destinations; it equals that number exactly when all are finished, and is zero exactly when none is |
| SubmissionHistoryProperties.RealDestinationsByIndex | prime-router/src/main/kotlin/history/SubmissionHistory.kt:300 | each real destination is a destination with items, and each destination with items is among the real ones |
| SubmissionHistoryProperties.StatusBeforeDelivery | prime-router/src/main/kotlin/history/SubmissionHistory.kt:313-331 | ERROR exactly when the HTTP status is neither 200 nor 201; RECEIVED exactly when it is and there are no destinations; NOT_DELIVERING exactly when there are destinations but none has items |
| SubmissionHistoryProperties.StatusOfDelivery | prime-router/src/main/kotlin/history/SubmissionHistory.kt:333-359 | DELIVERED exactly when some destination has items and all with items are finished; PARTIALLY_DELIVERED exactly when some are finished and some not; WAITING_TO_DELIVER exactly when some have items and none is finished |
| SubmissionHistoryProperties.ZeroItemDestinationIgnored | prime-router/src/main/kotlin/history/SubmissionHistory.kt:299-305 | once a destination exists, adding one with no items changes neither the status nor the completion times |
| SubmissionHistoryProperties.ZeroItemDestinationLeavesReceived | prime-router/src/main/kotlin/history/SubmissionHistory.kt:319-331 | with no destinations a history is RECEIVED, and one zero-item destination makes it NOT_DELIVERING |
| SubmissionHistory.MaxSendingAt | prime-router/src/main/kotlin/history/SubmissionHistory.kt:375 | the result is the latest non-null sending time, and is null exactly when there is none |
| SubmissionHistory.PlannedCompletionAt | prime-router/src/main/kotlin/history/SubmissionHistory.kt:367-377 | null for ERROR, RECEIVED and NOT_DELIVERING; otherwise the latest sending time among the real destinations, null exactly when none has one |
| SubmissionHistory.MaxCreatedAt | prime-router/src/main/kotlin/history/SubmissionHistory.kt:396 | the result is the latest creation time of the reports, and is null exactly when there are no reports |
| SubmissionHistory.ActualCompletionAt | prime-router/src/main/kotlin/history/SubmissionHistory.kt:385-397 | null unless DELIVERED; then the latest creation time among the real destinations' sent and downloaded reports, null exactly when there are none |
| SubmissionHistoryProperties.DeliveredExample | prime-router/src/main/kotlin/history/SubmissionHistory.kt:313-397 | one destination of 10 items, fully sent by a report created at 42, is DELIVERED with actual completion 42 and planned completion at its sending time |
| SubmissionHistoryProperties.WaitingExample | prime-router/src/main/kotlin/history/SubmissionHistory.kt:151-153 | an untouched destination with items beside an empty one gives a destination count of one and WAITING_TO_DELIVER |
| SubmissionReceiver.DuplicateIndexesUpTo | prime-router/src/main/kotlin/SubmissionReceiver.kt:63-75 | the indexes are exactly the 1-based numbers of the duplicate rows, strictly increasing |
| SubmissionReceiver.DoDuplicateDetection | prime-router/src/main/kotlin/SubmissionReceiver.kt:57-88 | the loop adds exactly the specified duplicate logs after the existing logs |
| SubmissionReceiver.LogDuplicates | prime-router/src/main/kotlin/SubmissionReceiver.kt:79-87 | one file-level error when the duplicates number the items, otherwise one item error per duplicate index, in order |
| SubmissionReceiver.DuplicateLogs | prime-router/src/main/kotlin/SubmissionReceiver.kt:78-87 | when the duplicates number the item count, one file-level error is logged; otherwise one item error per duplicate index, in index order; all are errors |
| SubmissionReceiver.ItemDuplicateLogs | prime-router/src/main/kotlin/SubmissionReceiver.kt:84-86 | one item error per index, in order |
| SubmissionReceiver.DuplicateMeansEarlierKeptRow | prime-router/src/main/kotlin/SubmissionReceiver.kt:66-74 | a row is a duplicate exactly when its hash is already known, or an earlier row that was kept has the same hash |
| SubmissionReceiver.EmptyReportIsDuplicateFile | prime-router/src/main/kotlin/SubmissionReceiver.kt:79-81 | a report with no items gets one file-level duplicate error |
| SubmissionReceiver.NegativeItemCountLogsNothing | prime-router/src/main/kotlin/SubmissionReceiver.kt:65-87 | a negative item count gives no logs |
| SubmissionReceiver.FreshRowsLogNothing | prime-router/src/main/kotlin/SubmissionReceiver.kt:83-87 | distinct, unknown rows give no logs |
| SubmissionReceiver.NoDuplicatesIndexed | prime-router/src/main/kotlin/SubmissionReceiver.kt:63-75 | rows that are not duplicates give no indexes |
| SubmissionReceiver.AllDuplicateRowsLogOnce | prime-router/src/main/kotlin/SubmissionReceiver.kt:79-81 | when every row is a duplicate, one file-level error replaces the row errors |
| SubmissionReceiver.AllDuplicatesIndexed | prime-router/src/main/kotlin/SubmissionReceiver.kt:63-75 | when every row is a duplicate, every row is indexed |
| SubmissionReceiver.DuplicateLog | prime-router/src/main/kotlin/SubmissionReceiver.kt:101-106 | an error in both cases: about the item for a row number, with the duplicate-item message; otherwise about the report, with the duplicate-submission message |
| SubmissionReceiver.AddDuplicateLogs | prime-router/src/main/kotlin/SubmissionReceiver.kt:95-107 | exactly that one log is added |
| SubmissionReceiver.ActionLogger.ItemError | prime-router/src/main/kotlin/SubmissionReceiver.kt:102 | an item's error log is appended after the existing logs, scoped to that item and its tracking id |
| SubmissionReceiver.ActionLogger.Error | prime-router/src/main/kotlin/SubmissionReceiver.kt:105 | a report-level error log is appended after the existing logs |
| SubmissionReceiver.CovidReceiver.ValidateAndMoveToProcessing | prime-router/src/main/kotlin/SubmissionReceiver.kt:121-175 | the COVID receiver does what the ingestion function describes |
| SubmissionReceiver.CovidIngestion | prime-router/src/main/kotlin/SubmissionReceiver.kt:132-175 | a non-COVID sender aborts before anything; otherwise the received report is recorded first, an error after duplicate detection (run only when duplicates are not allowed) stops everything else, and a success either processes asynchronously or routes |
| SubmissionReceiver.CovidEffectCounts | prime-router/src/main/kotlin/SubmissionReceiver.kt:150-174 | an accepted COVID submission either inserts one process task or routes, never both, and inserts exactly when it is asynchronous; one that is not accepted does neither |
| SubmissionReceiver.CovidReceiver.ProcessAsync | prime-router/src/main/kotlin/SubmissionReceiver.kt:184-211 | asynchronous processing does what its function describes |
| SubmissionReceiver.AsyncProcessing | prime-router/src/main/kotlin/SubmissionReceiver.kt:191-210 | no sources, a first source that is not a client source, or a non-INTERNAL format fail before any upload; otherwise upload, track, then insert one process task |
| SubmissionReceiver.AsyncEffectCounts | prime-router/src/main/kotlin/SubmissionReceiver.kt:200-210 | asynchronous processing never routes, inserts one process task when it succeeds and none otherwise, and ends with that insert |
| SubmissionReceiver.ELRReceiver.ValidateAndMoveToProcessing | prime-router/src/main/kotlin/SubmissionReceiver.kt:223-283 | the report has one item per parsed message; duplicate detection runs only when duplicates are not allowed and parsing logged no error; an error afterwards leaves only the recorded report; a success records, tracks, inserts one process task and sends one queue message with the blob URL, the digest and the sender's full name, and never routes |
| SubmissionsFacade.SubmissionsFacade.FindSubmissions | prime-router/src/main/kotlin/azure/SubmissionsFacade.kt:57-84 | a blank organisation fails as an invalid organisation, checked first; a non-positive page size fails next; neither failure reaches the store; otherwise the listing is exactly what the store returns |
| SubmissionsFacade.BlankOrganizations | prime-router/src/test/kotlin/history/azure/SubmissionsFacadeTests.kt:22-54 | the empty name and a name of spaces, a tab and a newline are blank; a name with a letter is not |
| SubmissionsFacade.SeededAll | prime-router/src/main/kotlin/azure/SubmissionsFacade.kt:100-105 | the related histories are built exactly when every row's `init` succeeds, one per row, in order |
| SubmissionsFacade.SubmissionsFacade.SubmissionCalls | prime-router/src/main/kotlin/azure/SubmissionsFacade.kt:91-105 | the root is always fetched first, and the related actions are fetched only when the root exists and could be built |
| SubmissionsFacade.SubmissionsFacade.SubmissionLookup | prime-router/src/main/kotlin/azure/SubmissionsFacade.kt:86-110 | no root gives null; a result is the root's own history; with no related actions it is the root as fetched; a failed check means the related actions' ids repeat |
| SubmissionsFacade.Assembled | prime-router/src/main/kotlin/azure/SubmissionsFacade.kt:99-107 | enriching keeps the root's identity, and with no related actions gives the root unchanged |
| SubmissionsFacade.SubmissionsFacade.FindSubmission | prime-router/src/main/kotlin/azure/SubmissionsFacade.kt:86-110 | the calls and the result are those of the lookup, and the history returned is a new object in the looked-up state |
| SubmissionsFacade.EnrichFromRecords | prime-router/src/main/kotlin/azure/SubmissionsFacade.kt:99-107 | the root is enriched once with the related histories, or left unchanged when building or checking them fails |
| SubmissionsFacade.BuildHistories | prime-router/src/main/kotlin/azure/SubmissionsFacade.kt:100-105 | one new history per related row, in order, or the first error |
| SubmissionsFacade.SeededAllFailureSticky | prime-router/src/main/kotlin/azure/SubmissionsFacade.kt:100-105 | once a row fails to build, the later rows change nothing about that outcome |
| SubmissionsFacade.SeededAllStopsAtFirstFailure | prime-router/src/main/kotlin/azure/SubmissionsFacade.kt:100-105 | when the rows before one all build and that row throws, building the related histories fails with that row's error |
| SubmissionsFacade.DeliveryKeepsIdentity | prime-router/src/main/kotlin/azure/SubmissionsFacade.kt:106-109 | enrichment keeps the root's action id, HTTP status and logs |
| SubmissionsFacade.FoldKeepsIdentity | prime-router/src/main/kotlin/history/SubmissionHistory.kt:219-293 | no enrichment step changes the action id, HTTP status or logs |
| SubmissionsFacade.SubmissionsFacade.FindReport | prime-router/src/main/kotlin/azure/SubmissionsFacade.kt:116-123 | an unknown report gives null after one lookup; otherwise the report's action is looked up as `findSubmission` does |

## Left out

- `Destination.organization` is not modelled. It reads the global settings provider, a foreign lookup.
- Serialisation is not modelled: the JSON annotations, `findSubmissionsAsJson`, and the `ReportStreamFilterResultForResponse` projection that trims filter results.
- The parent classes `DetailedReportFileHistory` and `ReportFileHistory` are not part of this model. The history's `errors` and `warnings` are taken to be its logs of error and of warning level, and `errorCount` the number of errors.
- `sender` is kept as the `ClientSource` (organisation, client) rather than its rendered `name` string. The rendering is defined outside these files.
- Destinations are values. The source shares `Destination` objects between a descendant and the root after a process step, so a later send could be seen through both. The model does not capture this aliasing.
- Item counts and their sums are unbounded integers. The 32-bit wrap-around of Kotlin `Int` sums in `calculateStatus` is not modelled.
- The attribute-based `check` and `require` failures of the history are modelled as return values: a `Failure` from `Create`, `false` from `EnrichWithDescendants`, or a precondition on the per-action `enrichWith…Action` methods.
- The workflow engine's collaborators are functions whose results the model takes as given. These are row hashing, `isDuplicateItem`, COVID and HL7 parsing, routing, report copying, blob upload and digest rendering. The model does not implement them.
- The random id of the report the ELR receiver creates is a parameter. Metadata is not read. The format enum keeps only `INTERNAL` and `HL7` by name.
- The COVID receiver's `CovidSender` cast is a flag on the sender.
- The store logic is not modelled: the SQL of `DatabaseSubmissionsAccess`, and how `fetchRelatedActions` selects distinct descendants. The stores are functions; a repeated action id from them reaches the check of `enrichWithDescendants`.
- `findDetailedSubmissionHistory` and sender authorisation are exercised by the tests, but their code is not part of this model.
- The log scope and trackingId of `ActionLogger.error` are not shown in these files. The model logs it with report scope.
- The queue name is symbolic (`ElrProcessQueue`). Its string value is defined outside these files.
