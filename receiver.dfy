/**
 * Ingestion of a submission: the COVID and the full-ELR receivers, and the duplicate detection
 * both of them may run.
 *
 * The workflow engine's collaborators (hashing, the duplicate lookup, parsing, routing, the blob
 * store and the queue) are the fields of `WorkflowEngine`, total functions the model does not
 * look inside. Everything a receiver asks of the workflow engine and records in its action
 * history comes back, in order, as a sequence of `Effect`s, together with how the call ended.
 */
module SubmissionReceiver {
  import opened Wrappers

  type ReportId = string
  type Hash = string
  type Options = string

  /** The serialisation formats a report body can have; `OtherFormat` stands for the rest. */
  datatype Format = Internal | Hl7 | OtherFormat(name: string)

  /** Where a report came from. */
  datatype Source = ClientSource(organization: string, client: string) | OtherSource(name: string)

  /** The part of a parsed report that ingestion reads. */
  datatype Report = Report(id: ReportId, bodyFormat: Format, sources: seq<Source>, itemCount: int)

  /** A sender; `isCovidSender` says whether the `CovidSender` cast of the COVID receiver succeeds. */
  datatype Sender = Sender(organizationName: string, name: string, fullName: string, isCovidSender: bool)

  datatype LogLevel = Info | Warning | Error

  /** A log is about the whole report, or about one item of it (`getItemLogger`). */
  datatype LogScope = ReportScope | ItemScope(index: int, trackingId: Option<string>)

  datatype LogMessage =
    | DuplicateItemMessage
    | DuplicateSubmissionMessage(payloadName: Option<string>)
    | OtherMessage(text: string)

  datatype ActionLog = ActionLog(scope: LogScope, level: LogLevel, message: LogMessage)

  datatype BlobInfo = BlobInfo(blobUrl: string, digest: seq<bv8>)

  /** The event of a `PROCESS` action for a report. */
  datatype ProcessEvent = ProcessEvent(reportId: ReportId, options: Options, defaults: map<string, string>, routeTo: seq<string>)

  /** The message put on the ELR processing queue. */
  datatype RawSubmission = RawSubmission(blobUrl: string, digest: string, sender: string)

  datatype QueueName = ElrProcessQueue

  /** The workflow engine, by what each of its calls returns. */
  datatype WorkflowEngine = WorkflowEngine(
    itemHash: (Report, nat) -> Hash,                                         // report.getItemHashForRow
    isDuplicateItem: Hash -> bool,
    parseCovidReport: (Sender, string, map<string, string>) -> (Report, seq<ActionLog>),
    getMessages: string -> (seq<string>, seq<ActionLog>),                    // HL7Reader: messages and parse logs
    recordReceivedReport: (Report, string, Sender, Option<string>) -> BlobInfo,
    routeReport: (Report, Options, map<string, string>, seq<string>) -> seq<ActionLog>,
    copyReport: Report -> Report,
    generateBodyAndUploadReport: (Report, Source) -> BlobInfo,
    digestToString: seq<bv8> -> string)

  /** One call on the workflow engine or the action history, with what it was given. */
  datatype Effect =
    | RecordReceivedReport(report: Report, content: string, sender: Sender, payloadName: Option<string>)
    | TrackLogs(logs: seq<ActionLog>)
    | UploadReport(report: Report, senderSource: Source)
    | TrackCreatedReport(event: ProcessEvent, report: Report, blob: BlobInfo)
    | InsertProcessTask(report: Report, format: Format, blobUrl: string, event: ProcessEvent)
    | RouteReport(report: Report, options: Options, defaults: map<string, string>, routeTo: seq<string>)
    | SendMessage(queue: QueueName, message: RawSubmission)

  /** Why a call threw outside the action logs. */
  datatype AbortReason = NotACovidSender | EmptySources(reportId: ReportId) | SourceNotClientSource | NonInternalAsync

  /** How a call ended: normally, by throwing the action logs' exception, or by another error. */
  datatype Outcome = Accepted | Rejected(logs: seq<ActionLog>) | Aborted(reason: AbortReason)

  function CountWhere(effects: seq<Effect>, p: Effect -> bool): (n: nat)
    ensures n <= |effects|
    ensures n == 0 <==> forall i :: 0 <= i < |effects| ==> !p(effects[i])
  {
    if effects == [] then 0
    else CountWhere(effects[..|effects| - 1], p) + (if p(effects[|effects| - 1]) then 1 else 0)
  }

  predicate IsInsert(e: Effect) { e.InsertProcessTask? }
  predicate IsRoute(e: Effect) { e.RouteReport? }
  predicate IsQueue(e: Effect) { e.SendMessage? }

  predicate HasErrorLog(logs: seq<ActionLog>) {
    exists i :: 0 <= i < |logs| && logs[i].level == Error
  }

  // ---------------------------------------------------------------------------------------
  // Action logs

  class ActionLogger {
    var logs: seq<ActionLog>

    constructor(logs: seq<ActionLog>)
      ensures this.logs == logs
    {
      this.logs := logs;
    }

    predicate HasErrors()
      reads this
    {
      HasErrorLog(logs)
    }

    /** An error about the whole report. */
    method Error(message: LogMessage)
      modifies this
      ensures logs == old(logs) + [ActionLog(ReportScope, LogLevel.Error, message)]
    {
      logs := logs + [ActionLog(ReportScope, LogLevel.Error, message)];
    }

    /** `getItemLogger(index, trackingId).error(message)`: an error about one item. */
    method ItemError(index: int, trackingId: Option<string>, message: LogMessage)
      modifies this
      ensures logs == old(logs) + [ActionLog(ItemScope(index, trackingId), LogLevel.Error, message)]
    {
      logs := logs + [ActionLog(ItemScope(index, trackingId), LogLevel.Error, message)];
    }
  }

  // ---------------------------------------------------------------------------------------
  // Duplicate detection, specified

  /** The rows `0 until itemCount` visits: none when the count is negative. */
  function RowCount(report: Report): nat {
    if report.itemCount > 0 then report.itemCount else 0
  }

  /** The hash of each visited row, in row order. */
  function RowHashes(engine: WorkflowEngine, report: Report): seq<Hash> {
    seq(RowCount(report), i requires 0 <= i => engine.itemHash(report, i))
  }

  /** Row `r` is a duplicate when its hash is already known, or an earlier row of this report has it. */
  predicate IsDuplicateRow(engine: WorkflowEngine, report: Report, r: nat)
    requires r < RowCount(report)
  {
    var hs := RowHashes(engine, report);
    engine.isDuplicateItem(hs[r]) || hs[r] in hs[..r]
  }

  /** The 1-based numbers of the duplicate rows among the first `n` rows, in increasing order. */
  function DuplicateIndexesUpTo(engine: WorkflowEngine, report: Report, n: nat): (ix: seq<int>)
    requires n <= RowCount(report)
    ensures forall k :: k in ix <==> 1 <= k <= n && IsDuplicateRow(engine, report, k - 1)
    ensures forall a, b :: 0 <= a < b < |ix| ==> ix[a] < ix[b]
    ensures forall a :: 0 <= a < |ix| ==> 1 <= ix[a] <= n
    ensures |ix| <= n
  {
    if n == 0 then []
    else DuplicateIndexesUpTo(engine, report, n - 1) + (if IsDuplicateRow(engine, report, n - 1) then [n] else [])
  }

  function DuplicateIndexes(engine: WorkflowEngine, report: Report): seq<int> {
    DuplicateIndexesUpTo(engine, report, RowCount(report))
  }

  /** What `addDuplicateLogs` logs: an item error for a row number, else a file-level error. */
  function DuplicateLog(payloadName: Option<string>, rowNum: Option<int>, trackingId: Option<string>): (l: ActionLog)
    ensures l.level == LogLevel.Error
    ensures rowNum.Some? <==> l.scope.ItemScope?
    ensures rowNum.Some? ==> l.scope.index == rowNum.value && l.scope.trackingId == trackingId && l.message == DuplicateItemMessage
    ensures rowNum.None? ==> l.message == DuplicateSubmissionMessage(payloadName)
  {
    match rowNum
    case Some(r) => ActionLog(ItemScope(r, trackingId), LogLevel.Error, DuplicateItemMessage)
    case None => ActionLog(ReportScope, LogLevel.Error, DuplicateSubmissionMessage(payloadName))
  }

  /** One item error per duplicate row, in order. */
  function ItemDuplicateLogs(indexes: seq<int>): (logs: seq<ActionLog>)
    ensures |logs| == |indexes|
    ensures forall k :: 0 <= k < |indexes| ==> logs[k] == DuplicateLog(None, Some(indexes[k]), None)
  {
    if indexes == [] then []
    else ItemDuplicateLogs(indexes[..|indexes| - 1]) + [DuplicateLog(None, Some(indexes[|indexes| - 1]), None)]
  }

  /** The logs `doDuplicateDetection` adds. */
  function DuplicateLogs(engine: WorkflowEngine, report: Report): (logs: seq<ActionLog>)
    ensures forall l :: l in logs ==> l.level == LogLevel.Error
    ensures |DuplicateIndexes(engine, report)| == report.itemCount ==>
              logs == [ActionLog(ReportScope, LogLevel.Error, DuplicateSubmissionMessage(None))]
    ensures |DuplicateIndexes(engine, report)| != report.itemCount ==>
              && |logs| == |DuplicateIndexes(engine, report)|
              && forall k :: 0 <= k < |logs| ==>
                   logs[k] == ActionLog(ItemScope(DuplicateIndexes(engine, report)[k], None), LogLevel.Error, DuplicateItemMessage)
  {
    var ix := DuplicateIndexes(engine, report);
    if |ix| == report.itemCount then [DuplicateLog(None, None, None)] else ItemDuplicateLogs(ix)
  }

  // ---------------------------------------------------------------------------------------
  // Duplicate detection, the procedure

  /** `addDuplicateLogs` */
  method AddDuplicateLogs(actionLogs: ActionLogger, payloadName: Option<string>, rowNum: Option<int>, trackingId: Option<string>)
    modifies actionLogs
    ensures actionLogs.logs == old(actionLogs.logs) + [DuplicateLog(payloadName, rowNum, trackingId)]
  {
    if rowNum.Some? {
      actionLogs.ItemError(rowNum.value, trackingId, DuplicateItemMessage);
    } else {
      // a whole-file duplicate is logged at error level
      actionLogs.Error(DuplicateSubmissionMessage(payloadName));
    }
  }

  /** `doDuplicateDetection`: one pass over the rows, remembering the hashes of the rows kept. */
  method DoDuplicateDetection(engine: WorkflowEngine, report: Report, actionLogs: ActionLogger)
    modifies actionLogs
    ensures actionLogs.logs == old(actionLogs.logs) + DuplicateLogs(engine, report)
  {
    ghost var hs := RowHashes(engine, report);
    var generatedHashes: seq<Hash> := [];
    var duplicateIndexes: seq<int> := [];
    var rowNum := 0;
    while rowNum < report.itemCount
      invariant 0 <= rowNum <= RowCount(report)
      invariant forall h :: h in generatedHashes <==> h in hs[..rowNum] && !engine.isDuplicateItem(h)
      invariant duplicateIndexes == DuplicateIndexesUpTo(engine, report, rowNum)
    {
      var itemHash := engine.itemHash(report, rowNum);
      assert hs[rowNum] == itemHash;
      assert hs[..rowNum + 1] == hs[..rowNum] + [itemHash];
      var isDuplicate := itemHash in generatedHashes || engine.isDuplicateItem(itemHash);
      assert isDuplicate == IsDuplicateRow(engine, report, rowNum);
      assert DuplicateIndexesUpTo(engine, report, rowNum + 1)
             == duplicateIndexes + (if isDuplicate then [rowNum + 1] else []);
      if isDuplicate {
        duplicateIndexes := duplicateIndexes + [rowNum + 1];
      } else {
        generatedHashes := generatedHashes + [itemHash];
      }
      rowNum := rowNum + 1;
    }
    assert duplicateIndexes == DuplicateIndexes(engine, report);
    LogDuplicates(duplicateIndexes, report.itemCount, actionLogs);
  }

  /** The logging step of `doDuplicateDetection`: one file-level error, or one error per duplicate row. */
  method LogDuplicates(duplicateIndexes: seq<int>, itemCount: int, actionLogs: ActionLogger)
    modifies actionLogs
    ensures actionLogs.logs == old(actionLogs.logs) + (if |duplicateIndexes| == itemCount then [DuplicateLog(None, None, None)]
                                                       else ItemDuplicateLogs(duplicateIndexes))
  {
    if |duplicateIndexes| == itemCount {
      AddDuplicateLogs(actionLogs, None, None, None);
    } else {
      for k := 0 to |duplicateIndexes|
        invariant actionLogs.logs == old(actionLogs.logs) + ItemDuplicateLogs(duplicateIndexes[..k])
      {
        assert duplicateIndexes[..k + 1][..k] == duplicateIndexes[..k];
        AddDuplicateLogs(actionLogs, None, Some(duplicateIndexes[k]), None);
      }
      assert duplicateIndexes[..|duplicateIndexes|] == duplicateIndexes;
    }
  }

  // ---------------------------------------------------------------------------------------
  // Duplicate detection, its properties

  /** The first position of `h` in `s`. */
  function FirstIndexOf(s: seq<Hash>, h: Hash): (j: nat)
    requires h in s
    ensures j < |s| && s[j] == h
    ensures forall i :: 0 <= i < j ==> s[i] != h
  {
    if s[0] == h then 0 else 1 + FirstIndexOf(s[1..], h)
  }

  /**
   * Only rows that were kept are remembered: a row is a duplicate exactly when its hash is known
   * already, or equals the hash of an earlier row that was not itself a duplicate.
   */
  lemma DuplicateMeansEarlierKeptRow(engine: WorkflowEngine, report: Report, r: nat)
    requires r < RowCount(report)
    ensures var hs := RowHashes(engine, report);
            IsDuplicateRow(engine, report, r) <==>
              engine.isDuplicateItem(hs[r]) || exists j :: 0 <= j < r && hs[j] == hs[r] && !IsDuplicateRow(engine, report, j)
  {
    var hs := RowHashes(engine, report);
    if !engine.isDuplicateItem(hs[r]) && hs[r] in hs[..r] {
      var j := FirstIndexOf(hs[..r], hs[r]);
      assert hs[..j] == hs[..r][..j];
      assert !IsDuplicateRow(engine, report, j);
    }
  }

  /** A report of no items counts as a duplicate file, since no duplicate indexes match its zero items. */
  lemma EmptyReportIsDuplicateFile(engine: WorkflowEngine, report: Report)
    requires report.itemCount == 0
    ensures DuplicateLogs(engine, report) == [ActionLog(ReportScope, LogLevel.Error, DuplicateSubmissionMessage(None))]
  {
  }

  /** A negative item count visits no row and logs nothing. */
  lemma NegativeItemCountLogsNothing(engine: WorkflowEngine, report: Report)
    requires report.itemCount < 0
    ensures DuplicateLogs(engine, report) == []
  {
  }

  /** Rows with distinct, unknown hashes give no logs at all. */
  lemma FreshRowsLogNothing(engine: WorkflowEngine, report: Report)
    requires report.itemCount > 0
    requires forall i :: 0 <= i < report.itemCount ==> !engine.isDuplicateItem(engine.itemHash(report, i))
    requires forall i, j :: 0 <= i < j < report.itemCount ==> engine.itemHash(report, i) != engine.itemHash(report, j)
    ensures DuplicateLogs(engine, report) == []
  {
    var hs := RowHashes(engine, report);
    forall r | 0 <= r < RowCount(report) ensures !IsDuplicateRow(engine, report, r) {
      assert forall j :: 0 <= j < r ==> hs[..r][j] != hs[r];
    }
    NoDuplicatesIndexed(engine, report, RowCount(report));
  }

  lemma {:induction false} NoDuplicatesIndexed(engine: WorkflowEngine, report: Report, n: nat)
    requires n <= RowCount(report)
    requires forall r :: 0 <= r < n ==> !IsDuplicateRow(engine, report, r)
    ensures DuplicateIndexesUpTo(engine, report, n) == []
  {
    if n > 0 {
      NoDuplicatesIndexed(engine, report, n - 1);
    }
  }

  /** When every row is a duplicate, one file-level error replaces the row errors. */
  lemma AllDuplicateRowsLogOnce(engine: WorkflowEngine, report: Report)
    requires forall r :: 0 <= r < RowCount(report) ==> IsDuplicateRow(engine, report, r)
    requires report.itemCount >= 0
    ensures DuplicateLogs(engine, report) == [ActionLog(ReportScope, LogLevel.Error, DuplicateSubmissionMessage(None))]
  {
    AllDuplicatesIndexed(engine, report, RowCount(report));
  }

  lemma {:induction false} AllDuplicatesIndexed(engine: WorkflowEngine, report: Report, n: nat)
    requires n <= RowCount(report)
    requires forall r :: 0 <= r < n ==> IsDuplicateRow(engine, report, r)
    ensures |DuplicateIndexesUpTo(engine, report, n)| == n
  {
    if n > 0 {
      AllDuplicatesIndexed(engine, report, n - 1);
    }
  }

  // ---------------------------------------------------------------------------------------
  // The receivers

  /** The logs after parsing, with the duplicate logs added when detection runs. */
  function CheckedLogs(engine: WorkflowEngine, report: Report, parseLogs: seq<ActionLog>, detect: bool): seq<ActionLog> {
    if detect then parseLogs + DuplicateLogs(engine, report) else parseLogs
  }

  /** Receiver for COVID submissions. */
  class CovidReceiver {
    const workflowEngine: WorkflowEngine

    constructor(workflowEngine: WorkflowEngine)
      ensures this.workflowEngine == workflowEngine
    {
      this.workflowEngine := workflowEngine;
    }

    /**
     * Parse, detect duplicates unless they are allowed, record the received report, throw if any
     * error was logged, track the logs, then either process asynchronously or route.
     */
    method ValidateAndMoveToProcessing(sender: Sender, content: string, defaults: map<string, string>, options: Options,
                                       routeTo: seq<string>, isAsync: bool, allowDuplicates: bool,
                                       payloadName: Option<string>)
      returns (effects: seq<Effect>, outcome: Outcome)
      ensures (effects, outcome) == CovidIngestion(workflowEngine, sender, content, defaults, options, routeTo,
                                                   isAsync, allowDuplicates, payloadName)
    {
      if !sender.isCovidSender {
        return [], Aborted(NotACovidSender);
      }
      var (report, parseLogs) := workflowEngine.parseCovidReport(sender, content, defaults);
      var actionLogs := new ActionLogger(parseLogs);
      if !allowDuplicates {
        DoDuplicateDetection(workflowEngine, report, actionLogs);
      }
      effects := [RecordReceivedReport(report, content, sender, payloadName)];
      if actionLogs.HasErrors() {
        return effects, Rejected(actionLogs.logs);
      }
      effects := effects + [TrackLogs(actionLogs.logs)];
      if isAsync {
        var asyncEffects, asyncOutcome := ProcessAsync(report, options, defaults, routeTo);
        effects := effects + asyncEffects;
        outcome := asyncOutcome;
      } else {
        var routingWarnings := workflowEngine.routeReport(report, options, defaults, routeTo);
        effects := effects + [RouteReport(report, options, defaults, routeTo), TrackLogs(routingWarnings)];
        outcome := Accepted;
      }
    }

    /** `processAsync`: check the sources and the format, upload the body, track it, add the process task. */
    method ProcessAsync(parsedReport: Report, options: Options, defaults: map<string, string>, routeTo: seq<string>)
      returns (effects: seq<Effect>, outcome: Outcome)
      ensures (effects, outcome) == AsyncProcessing(workflowEngine, parsedReport, options, defaults, routeTo)
    {
      var report := workflowEngine.copyReport(parsedReport);
      if |parsedReport.sources| == 0 {
        return [], Aborted(EmptySources(report.id));
      }
      var senderSource := parsedReport.sources[0];
      if !senderSource.ClientSource? {
        return [], Aborted(SourceNotClientSource);
      }
      if report.bodyFormat != Internal {
        return [], Aborted(NonInternalAsync);
      }
      var processEvent := ProcessEvent(report.id, options, defaults, routeTo);
      var blobInfo := workflowEngine.generateBodyAndUploadReport(report, senderSource);
      effects := [UploadReport(report, senderSource), TrackCreatedReport(processEvent, report, blobInfo),
                  InsertProcessTask(report, report.bodyFormat, blobInfo.blobUrl, processEvent)];
      outcome := Accepted;
    }
  }

  /** What the COVID receiver does, as effects and an outcome. */
  function CovidIngestion(engine: WorkflowEngine, sender: Sender, content: string, defaults: map<string, string>,
                          options: Options, routeTo: seq<string>, isAsync: bool, allowDuplicates: bool,
                          payloadName: Option<string>): (r: (seq<Effect>, Outcome))
    ensures !sender.isCovidSender ==> r == ([], Aborted(NotACovidSender))
    ensures sender.isCovidSender ==>
              var (report, parseLogs) := engine.parseCovidReport(sender, content, defaults);
              var logs := CheckedLogs(engine, report, parseLogs, !allowDuplicates);
              && |r.0| >= 1
              && r.0[0] == RecordReceivedReport(report, content, sender, payloadName)
              && (r.1.Rejected? <==> HasErrorLog(logs))
              && (r.1.Rejected? ==> r.0 == [r.0[0]] && r.1.logs == logs)
              && (!HasErrorLog(logs) ==> |r.0| >= 2 && r.0[1] == TrackLogs(logs))
              && (!HasErrorLog(logs) && !isAsync ==>
                    && r.1 == Accepted
                    && r.0 == [r.0[0], r.0[1], RouteReport(report, options, defaults, routeTo),
                               TrackLogs(engine.routeReport(report, options, defaults, routeTo))])
              && (!HasErrorLog(logs) && isAsync ==>
                    var (asyncEffects, asyncOutcome) := AsyncProcessing(engine, report, options, defaults, routeTo);
                    r.0 == [r.0[0], r.0[1]] + asyncEffects && r.1 == asyncOutcome)
  {
    if !sender.isCovidSender then ([], Aborted(NotACovidSender))
    else
      var (report, parseLogs) := engine.parseCovidReport(sender, content, defaults);
      var logs := CheckedLogs(engine, report, parseLogs, !allowDuplicates);
      var recorded := [RecordReceivedReport(report, content, sender, payloadName)];
      if HasErrorLog(logs) then (recorded, Rejected(logs))
      else
        var tracked := recorded + [TrackLogs(logs)];
        if isAsync then
          var (asyncEffects, asyncOutcome) := AsyncProcessing(engine, report, options, defaults, routeTo);
          (tracked + asyncEffects, asyncOutcome)
        else
          (tracked + [RouteReport(report, options, defaults, routeTo),
                      TrackLogs(engine.routeReport(report, options, defaults, routeTo))], Accepted)
  }

  /**
   * A COVID submission that is accepted either inserts one process task or routes, never both;
   * it inserts exactly when it is processed asynchronously. One that is not accepted does neither.
   */
  lemma CovidEffectCounts(engine: WorkflowEngine, sender: Sender, content: string, defaults: map<string, string>,
                          options: Options, routeTo: seq<string>, isAsync: bool, allowDuplicates: bool,
                          payloadName: Option<string>)
    ensures var (effects, outcome) := CovidIngestion(engine, sender, content, defaults, options, routeTo,
                                                     isAsync, allowDuplicates, payloadName);
            && (outcome.Accepted? ==> CountWhere(effects, IsInsert) + CountWhere(effects, IsRoute) == 1)
            && (outcome.Accepted? ==> (CountWhere(effects, IsInsert) == 1 <==> isAsync))
            && (!outcome.Accepted? ==> CountWhere(effects, IsInsert) == 0 && CountWhere(effects, IsRoute) == 0)
  {
    var (effects, outcome) := CovidIngestion(engine, sender, content, defaults, options, routeTo,
                                             isAsync, allowDuplicates, payloadName);
    if sender.isCovidSender {
      var (report, parseLogs) := engine.parseCovidReport(sender, content, defaults);
      var logs := CheckedLogs(engine, report, parseLogs, !allowDuplicates);
      var recorded := [RecordReceivedReport(report, content, sender, payloadName)];
      if HasErrorLog(logs) {
        assert effects == recorded;
      } else {
        var tracked := recorded + [TrackLogs(logs)];
        if isAsync {
          var (asyncEffects, asyncOutcome) := AsyncProcessing(engine, report, options, defaults, routeTo);
          assert effects == tracked + asyncEffects;
          AsyncEffectCounts(engine, report, options, defaults, routeTo);
          CountWhereAppend(tracked, asyncEffects, IsInsert);
          CountWhereAppend(tracked, asyncEffects, IsRoute);
        } else {
          assert effects[..3][..2] == tracked;
          assert CountWhere(effects[..3], IsRoute) == 1;
        }
      }
    }
  }

  /** What `processAsync` does, as effects and an outcome. */
  function AsyncProcessing(engine: WorkflowEngine, parsedReport: Report, options: Options,
                           defaults: map<string, string>, routeTo: seq<string>): (r: (seq<Effect>, Outcome))
    ensures r.1.Accepted? <==> |parsedReport.sources| > 0 && parsedReport.sources[0].ClientSource?
                               && engine.copyReport(parsedReport).bodyFormat == Internal
    ensures !r.1.Accepted? ==> r.0 == []
    ensures r.1.Accepted? ==>
              var report := engine.copyReport(parsedReport);
              var event := ProcessEvent(report.id, options, defaults, routeTo);
              var blob := engine.generateBodyAndUploadReport(report, parsedReport.sources[0]);
              r.0 == [UploadReport(report, parsedReport.sources[0]), TrackCreatedReport(event, report, blob),
                      InsertProcessTask(report, Internal, blob.blobUrl, event)]
  {
    var report := engine.copyReport(parsedReport);
    if |parsedReport.sources| == 0 then ([], Aborted(EmptySources(report.id)))
    else if !parsedReport.sources[0].ClientSource? then ([], Aborted(SourceNotClientSource))
    else if report.bodyFormat != Internal then ([], Aborted(NonInternalAsync))
    else
      var event := ProcessEvent(report.id, options, defaults, routeTo);
      var blob := engine.generateBodyAndUploadReport(report, parsedReport.sources[0]);
      ([UploadReport(report, parsedReport.sources[0]), TrackCreatedReport(event, report, blob),
        InsertProcessTask(report, report.bodyFormat, blob.blobUrl, event)], Accepted)
  }

  /** Asynchronous processing inserts exactly one process task when it succeeds, and never routes. */
  lemma AsyncEffectCounts(engine: WorkflowEngine, parsedReport: Report, options: Options,
                          defaults: map<string, string>, routeTo: seq<string>)
    ensures var (effects, outcome) := AsyncProcessing(engine, parsedReport, options, defaults, routeTo);
            && CountWhere(effects, IsRoute) == 0
            && CountWhere(effects, IsInsert) == (if outcome.Accepted? then 1 else 0)
            && (outcome.Accepted? ==> effects[|effects| - 1].InsertProcessTask?)
  {
    var (effects, outcome) := AsyncProcessing(engine, parsedReport, options, defaults, routeTo);
    if outcome.Accepted? {
      assert effects[..2][..1] == [effects[0]];
      assert effects[..1] == [effects[0]];
      assert CountWhere(effects[..2], IsInsert) == 0;
    }
  }

  lemma {:induction false} CountWhereAppend(xs: seq<Effect>, ys: seq<Effect>, p: Effect -> bool)
    ensures CountWhere(xs + ys, p) == CountWhere(xs, p) + CountWhere(ys, p)
    decreases |ys|
  {
    if ys == [] {
      assert xs + ys == xs;
    } else {
      var init := ys[..|ys| - 1];
      assert (xs + ys)[..|xs + ys| - 1] == xs + init;
      CountWhereAppend(xs, init, p);
    }
  }

  /** Receiver for full-ELR submissions. */
  class ELRReceiver {
    const workflowEngine: WorkflowEngine

    constructor(workflowEngine: WorkflowEngine)
      ensures this.workflowEngine == workflowEngine
    {
      this.workflowEngine := workflowEngine;
    }

    /**
     * Read the HL7 messages, make a report of them, detect duplicates unless they are allowed or
     * parsing already failed, record the received report, throw if any error was logged, track
     * the logs, add the process task and queue the submission for ELR processing. `isAsync` is
     * not read. `newReportId` is the random id the new report gets.
     */
    method ValidateAndMoveToProcessing(sender: Sender, content: string, defaults: map<string, string>, options: Options,
                                       routeTo: seq<string>, isAsync: bool, allowDuplicates: bool,
                                       payloadName: Option<string>, newReportId: ReportId)
      returns (report: Report, effects: seq<Effect>, outcome: Outcome)
      ensures var (messages, parseLogs) := workflowEngine.getMessages(content);
              var logs := CheckedLogs(workflowEngine, report, parseLogs, !allowDuplicates && !HasErrorLog(parseLogs));
              var blob := workflowEngine.recordReceivedReport(report, content, sender, payloadName);
              var event := ProcessEvent(report.id, options, defaults, routeTo);
              && report == Report(newReportId, Hl7, [ClientSource(sender.organizationName, sender.name)], |messages|)
              && !outcome.Aborted?
              && (outcome.Rejected? <==> HasErrorLog(logs))
              && (outcome.Rejected? ==> effects == [RecordReceivedReport(report, content, sender, payloadName)] && outcome.logs == logs)
              && (outcome.Accepted? ==>
                    effects == [RecordReceivedReport(report, content, sender, payloadName),
                                TrackLogs(logs),
                                InsertProcessTask(report, Hl7, blob.blobUrl, event),
                                SendMessage(ElrProcessQueue, RawSubmission(blob.blobUrl, workflowEngine.digestToString(blob.digest), sender.fullName))])
      ensures outcome.Accepted? ==> CountWhere(effects, IsInsert) == 1 && CountWhere(effects, IsQueue) == 1
                                    && CountWhere(effects, IsRoute) == 0
      ensures outcome.Rejected? ==> CountWhere(effects, IsInsert) == 0 && CountWhere(effects, IsQueue) == 0
    {
      var (messages, parseLogs) := workflowEngine.getMessages(content);
      var actionLogs := new ActionLogger(parseLogs);
      // the tracked report: one HL7 item per parsed message, sourced from the sender
      var sources := [ClientSource(sender.organizationName, sender.name)];
      report := Report(newReportId, Hl7, sources, |messages|);
      // rows are checked for duplicates only when `!allowDuplicates && !HasErrorLog(parseLogs)`
      if !allowDuplicates && !actionLogs.HasErrors() {
        DoDuplicateDetection(workflowEngine, report, actionLogs);
      }
      var blobInfo := workflowEngine.recordReceivedReport(report, content, sender, payloadName);
      effects := [RecordReceivedReport(report, content, sender, payloadName)];
      if actionLogs.HasErrors() {
        return report, effects, Rejected(actionLogs.logs);
      }
      effects := effects + [TrackLogs(actionLogs.logs)];
      var processEvent := ProcessEvent(report.id, options, defaults, routeTo);
      effects := effects + [InsertProcessTask(report, report.bodyFormat, blobInfo.blobUrl, processEvent)];
      var message := RawSubmission(blobInfo.blobUrl, workflowEngine.digestToString(blobInfo.digest), sender.fullName);
      effects := effects + [SendMessage(ElrProcessQueue, message)];
      outcome := Accepted;
      assert effects[..3][..2][..1] == [effects[0]];
      assert effects[..3][..2] == effects[..2];
      assert effects[..2][..1] == [effects[0]];
    }
  }
}
