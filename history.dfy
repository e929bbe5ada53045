/**
 * The detailed history of one submission: the receive action, seeded from its own reports and
 * logs, then enriched with the process, send and download actions that descend from it, and
 * finally summarised into an overall status and completion times.
 *
 * The specification functions come first; the class `DetailedSubmissionHistory` at the end
 * changes its fields in place, as the source does, and each of its methods is proved against
 * those functions.
 */
module SubmissionHistory {
  import opened Wrappers

  type ReportId = string

  /** An `OffsetDateTime`, as a position on one time line. */
  type Timestamp = int

  /** The kinds of pipeline action; `Other` stands for the kinds this history never reads. */
  datatype TaskAction = Receive | Process | Batch | Send | Download | Other

  datatype ActionLogLevel = Info | Warning | Error | Filter

  /** What a quality or jurisdiction filter recorded when it excluded rows. */
  datatype FilterResult = FilterResult(
    filterType: string,
    filterName: string,
    filteredTrackingElement: string,
    filterArgs: seq<string>,
    message: string)

  /** The detail of an action log: a filter result, or any other kind of message. */
  datatype LogDetail = FilterDetail(result: FilterResult) | MessageDetail(text: string) {
    function Message(): string {
      match this
      case FilterDetail(r) => r.message
      case MessageDetail(t) => t
    }
  }

  datatype DetailedActionLog = DetailedActionLog(level: ActionLogLevel, reportId: Option<ReportId>, detail: LogDetail)

  datatype DetailedReport = DetailedReport(
    reportId: ReportId,
    receivingOrg: Option<string>,
    receivingOrgSvc: Option<string>,
    sendingOrg: Option<string>,
    sendingOrgClient: Option<string>,
    externalName: Option<string>,
    schemaTopic: Option<string>,
    itemCount: int,
    itemCountBeforeQualFilter: Option<int>,
    nextActionAt: Option<Timestamp>,
    createdAt: Timestamp)

  /** A receiving organisation and service, as seen from one submission. */
  datatype Destination = Destination(
    organizationId: string,
    service: string,
    filteredReportRows: Option<seq<string>>,
    filteredReportItems: Option<seq<FilterResult>>,
    sendingAt: Option<Timestamp>,
    itemCount: int,
    itemCountBeforeQualFilter: Option<int>,
    sentReports: seq<DetailedReport>,
    downloadedReports: seq<DetailedReport>)

  datatype Status = Error | Received | NotDelivering | WaitingToDeliver | PartiallyDelivered | Delivered {
    function PrintableName(): string {
      match this
      case Error => "Error"
      case Received => "Received"
      case NotDelivering => "Not Delivering"
      case WaitingToDeliver => "Waiting to Deliver"
      case PartiallyDelivered => "Partially Delivered"
      case Delivered => "Delivered"
    }
  }

  /** The sender of the inbound report, `ClientSource(sendingOrg, sendingOrgClient ?: "")`. */
  datatype ClientSource = ClientSource(organization: string, client: string)

  /** What seeding a history from its reports can throw. */
  datatype InitError =
    | FilterDetailNotFilterResult(reportId: ReportId)  // the cast of a filter log's detail fails
    | MissingReceivingService(reportId: ReportId)      // `receivingOrgSvc!!` on a null service
    | SecondSenderReport(reportId: ReportId)           // `check(id == null)` fails

  /** Every field of a history, as one value. */
  datatype HistoryState = HistoryState(
    actionId: int,
    actionName: TaskAction,
    createdAt: Timestamp,
    httpStatus: Option<int>,
    reports: Option<seq<DetailedReport>>,
    logs: seq<DetailedActionLog>,
    errors: seq<DetailedActionLog>,
    warnings: seq<DetailedActionLog>,
    id: Option<ReportId>,
    externalName: Option<string>,
    reportItemCount: Option<int>,
    sender: Option<ClientSource>,
    topic: Option<string>,
    destinations: seq<Destination>,
    overallStatus: Status,
    plannedCompletionAt: Option<Timestamp>,
    actualCompletionAt: Option<Timestamp>)

  // ---------------------------------------------------------------------------------------
  // Seeding from the receive action's own reports and logs

  /** The logs of one level, in order: how the history's `errors` and `warnings` are formed. */
  function LogsAt(logs: seq<DetailedActionLog>, level: ActionLogLevel): (r: seq<DetailedActionLog>)
    ensures forall l :: l in r <==> l in logs && l.level == level
    ensures |r| <= |logs|
  {
    if logs == [] then []
    else
      var last := logs[|logs| - 1];
      assert logs == logs[..|logs| - 1] + [last];
      LogsAt(logs[..|logs| - 1], level) + (if last.level == level then [last] else [])
  }

  /** The filter-level logs that concern the report `reportId`, in order. */
  function FilterLogs(logs: seq<DetailedActionLog>, reportId: ReportId): seq<DetailedActionLog> {
    if logs == [] then []
    else
      var last := logs[|logs| - 1];
      FilterLogs(logs[..|logs| - 1], reportId)
        + (if last.level == ActionLogLevel.Filter && last.reportId == Some(reportId) then [last] else [])
  }

  /** The filter logs of `reportId` are the action logs at the filter level that concern that report. */
  lemma {:induction false} FilterLogsMembers(logs: seq<DetailedActionLog>, reportId: ReportId)
    ensures forall l :: l in FilterLogs(logs, reportId) <==>
              l in logs && l.level == ActionLogLevel.Filter && l.reportId == Some(reportId)
    ensures |FilterLogs(logs, reportId)| <= |logs|
  {
    if logs != [] {
      var init := logs[..|logs| - 1];
      FilterLogsMembers(init, reportId);
      assert logs == init + [logs[|logs| - 1]];
    }
  }

  /** `filteredReportRows`: the message of each log. */
  function Rows(ls: seq<DetailedActionLog>): seq<string> {
    seq(|ls|, i requires 0 <= i < |ls| => ls[i].detail.Message())
  }

  /** `filteredReportItems`: each log's filter result, or nothing when some detail is not one. */
  function FilterItems(ls: seq<DetailedActionLog>): Option<seq<FilterResult>> {
    if forall i :: 0 <= i < |ls| ==> ls[i].detail.FilterDetail? then
      Some(seq(|ls|, i requires 0 <= i < |ls| => ls[i].detail.result))
    else None
  }

  /** The fields that seeding assigns. */
  datatype Seed = Seed(
    destinations: seq<Destination>,
    id: Option<ReportId>,
    externalName: Option<string>,
    reportItemCount: Option<int>,
    sender: Option<ClientSource>,
    topic: Option<string>)

  /** The part of seeding that handles a report sent to a destination. */
  function ReceivingStep(seed: Seed, report: DetailedReport, logs: seq<DetailedActionLog>): (r: Result<Seed, InitError>)
    ensures r.Failure? ==> report.receivingOrg.Some?
    ensures r.Failure? ==> r.error.reportId == report.reportId
    ensures r.Success? ==> r.value.(destinations := seed.destinations) == seed
    ensures r.Success? ==> seed.destinations <= r.value.destinations
    ensures r.Success? ==> |r.value.destinations| == |seed.destinations| + (if report.receivingOrg.Some? then 1 else 0)
    ensures r.Success? && report.receivingOrg.Some? ==>
              var d := r.value.destinations[|seed.destinations|];
              Matches(d, report) && d.itemCount == report.itemCount && d.sendingAt == report.nextActionAt
              && d.sentReports == [] && d.downloadedReports == []
  {
    if report.receivingOrg.None? then Success(seed)
    else
      var filterLogs := FilterLogs(logs, report.reportId);
      var items := FilterItems(filterLogs);
      if items.None? then Failure(FilterDetailNotFilterResult(report.reportId))
      else if report.receivingOrgSvc.None? then Failure(MissingReceivingService(report.reportId))
      else
        var d := Destination(report.receivingOrg.value, report.receivingOrgSvc.value, Some(Rows(filterLogs)), items,
                             report.nextActionAt, report.itemCount, report.itemCountBeforeQualFilter, [], []);
        Success(seed.(destinations := seed.destinations + [d]))
  }

  /** The part of seeding that handles the report received from the sender. */
  function SenderStep(seed: Seed, report: DetailedReport, errorCount: nat): (r: Result<Seed, InitError>)
    ensures r.Failure? <==> report.sendingOrg.Some? && seed.id.Some?
    ensures r.Failure? ==> r.error == SecondSenderReport(report.reportId)
    ensures r.Success? ==> r.value.destinations == seed.destinations
    ensures r.Success? && report.sendingOrg.None? ==> r.value == seed
    ensures r.Success? && report.sendingOrg.Some? ==>
              && (r.value.id.Some? <==> errorCount == 0)
              && (errorCount == 0 ==> r.value.id == Some(report.reportId))
              && r.value.sender == Some(ClientSource(report.sendingOrg.value, report.sendingOrgClient.GetOr("")))
              && r.value.reportItemCount == Some(report.itemCount)
              && r.value.externalName == report.externalName
              && r.value.topic == report.schemaTopic
  {
    if report.sendingOrg.None? then Success(seed)
    else if seed.id.Some? then Failure(SecondSenderReport(report.reportId))
    else
      Success(seed.(id := if errorCount == 0 then Some(report.reportId) else None,
                    externalName := report.externalName,
                    reportItemCount := Some(report.itemCount),
                    sender := Some(ClientSource(report.sendingOrg.value, report.sendingOrgClient.GetOr(""))),
                    topic := report.schemaTopic))
  }

  const EmptySeed := Seed([], None, None, None, None, None)

  /** Seeding over the reports in order, stopping at the first report that throws. */
  function SeedReports(rs: seq<DetailedReport>, logs: seq<DetailedActionLog>, errorCount: nat): (r: Result<Seed, InitError>)
    ensures r.Success? ==> |r.value.destinations| <= |rs|
  {
    if rs == [] then Success(EmptySeed)
    else
      var last := rs[|rs| - 1];
      match SeedReports(rs[..|rs| - 1], logs, errorCount)
      case Failure(e) => Failure(e)
      case Success(seed) =>
        match ReceivingStep(seed, last, logs)
        case Failure(e) => Failure(e)
        case Success(seed') => SenderStep(seed', last, errorCount)
  }

  /** Once seeding has thrown on a prefix of the reports, it throws the same on all of them. */
  lemma {:induction false} SeedFailureSticky(rs: seq<DetailedReport>, logs: seq<DetailedActionLog>, errorCount: nat, k: nat)
    requires k <= |rs|
    requires SeedReports(rs[..k], logs, errorCount).Failure?
    ensures SeedReports(rs, logs, errorCount) == SeedReports(rs[..k], logs, errorCount)
    decreases |rs|
  {
    if k == |rs| {
      assert rs[..k] == rs;
    } else {
      var prefix := rs[..|rs| - 1];
      assert prefix[..k] == rs[..k];
      SeedFailureSticky(prefix, logs, errorCount, k);
    }
  }

  /** The state `init` leaves, or what it throws. */
  function Initial(actionId: int, actionName: TaskAction, createdAt: Timestamp, httpStatus: Option<int>,
                   reports: Option<seq<DetailedReport>>, logs: seq<DetailedActionLog>): Result<HistoryState, InitError>
  {
    var errors := LogsAt(logs, ActionLogLevel.Error);
    match SeedReports(reports.GetOr([]), logs, |errors|)
    case Failure(e) => Failure(e)
    case Success(seed) =>
      Success(HistoryState(actionId, actionName, createdAt, httpStatus, reports, logs,
                           errors, LogsAt(logs, ActionLogLevel.Warning),
                           seed.id, seed.externalName, seed.reportItemCount, seed.sender, seed.topic,
                           seed.destinations, Status.Received, None, None))
  }

  // ---------------------------------------------------------------------------------------
  // Enrichment with descendant actions

  /** A destination is the one a report is for when both its organisation and its service agree. */
  predicate Matches(d: Destination, report: DetailedReport) {
    report.receivingOrg == Some(d.organizationId) && report.receivingOrgSvc == Some(d.service)
  }

  /** `destinations.find { … }`: the index of the first destination the report is for. */
  function FindDestination(ds: seq<Destination>, report: DetailedReport): (k: Option<nat>)
    ensures k.Some? ==> k.value < |ds| && Matches(ds[k.value], report)
    ensures k.Some? ==> forall j :: 0 <= j < k.value ==> !Matches(ds[j], report)
    ensures k.None? ==> forall j :: 0 <= j < |ds| ==> !Matches(ds[j], report)
  {
    if ds == [] then None
    else if Matches(ds[0], report) then Some(0)
    else
      match FindDestination(ds[1..], report)
      case None => None
      case Some(k) => Some(k + 1)
  }

  /** Each destination already there changes only by sent reports appended to it. */
  ghost predicate OnlySentGrows(before: seq<Destination>, after: seq<Destination>) {
    && |before| <= |after|
    && forall i :: 0 <= i < |before| ==>
         after[i].(sentReports := before[i].sentReports) == before[i] && before[i].sentReports <= after[i].sentReports
  }

  /** Each destination already there changes only by downloaded reports appended to it. */
  ghost predicate OnlyDownloadedGrows(before: seq<Destination>, after: seq<Destination>) {
    && |before| <= |after|
    && forall i :: 0 <= i < |before| ==>
         && after[i].(downloadedReports := before[i].downloadedReports) == before[i]
         && before[i].downloadedReports <= after[i].downloadedReports
  }

  /** Every destination added after `before` has no filter rows, no filter items and no sending time. */
  ghost predicate AddedUnfiltered(before: seq<Destination>, after: seq<Destination>) {
    forall i :: |before| <= i < |after| ==>
      after[i].filteredReportRows.None? && after[i].filteredReportItems.None? && after[i].sendingAt.None?
  }

  /** A destination that first appears at the send or download stage: no filters, no `sendingAt`. */
  function NewDestination(report: DetailedReport): (d: Destination)
    requires report.receivingOrg.Some? && report.receivingOrgSvc.Some?
    ensures Matches(d, report)
    ensures d.itemCount == report.itemCount && d.itemCountBeforeQualFilter == report.itemCountBeforeQualFilter
    ensures AddedUnfiltered([], [d]) && d.sentReports == [] && d.downloadedReports == []
  {
    Destination(report.receivingOrg.value, report.receivingOrgSvc.value, None, None, None,
                report.itemCount, report.itemCountBeforeQualFilter, [], [])
  }

  /** One report of a send action. */
  function AddSentReport(ds: seq<Destination>, report: DetailedReport): (r: seq<Destination>)
    ensures |r| <= |ds| + 1
    ensures OnlySentGrows(ds, r) && AddedUnfiltered(ds, r)
  {
    match FindDestination(ds, report)
    case Some(k) => ds[k := ds[k].(sentReports := ds[k].sentReports + [report])]
    case None =>
      if report.receivingOrg.Some? && report.receivingOrgSvc.Some? then ds + [NewDestination(report)] else ds
  }

  /** One report of a download action. */
  function AddDownloadedReport(ds: seq<Destination>, report: DetailedReport): (r: seq<Destination>)
    ensures |r| <= |ds| + 1
    ensures OnlyDownloadedGrows(ds, r) && AddedUnfiltered(ds, r)
  {
    match FindDestination(ds, report)
    case Some(k) => ds[k := ds[k].(downloadedReports := ds[k].downloadedReports + [report])]
    case None =>
      if report.receivingOrg.Some? && report.receivingOrgSvc.Some? then
        ds + [NewDestination(report).(downloadedReports := [report])]
      else ds
  }

  /** All reports of a send action, in order. */
  function SendReports(ds: seq<Destination>, rs: seq<DetailedReport>): (r: seq<Destination>)
    ensures |r| <= |ds| + |rs|
    ensures OnlySentGrows(ds, r) && AddedUnfiltered(ds, r)
  {
    if rs == [] then ds
    else
      var mid := SendReports(ds, rs[..|rs| - 1]);
      var r := AddSentReport(mid, rs[|rs| - 1]);
      assert forall i :: |ds| <= i < |mid| ==>
               r[i].filteredReportRows == mid[i].filteredReportRows
               && r[i].filteredReportItems == mid[i].filteredReportItems && r[i].sendingAt == mid[i].sendingAt;
      r
  }

  /** All reports of a download action, in order. */
  function DownloadReports(ds: seq<Destination>, rs: seq<DetailedReport>): (r: seq<Destination>)
    ensures |r| <= |ds| + |rs|
    ensures OnlyDownloadedGrows(ds, r) && AddedUnfiltered(ds, r)
  {
    if rs == [] then ds
    else
      var mid := DownloadReports(ds, rs[..|rs| - 1]);
      var r := AddDownloadedReport(mid, rs[|rs| - 1]);
      assert forall i :: |ds| <= i < |mid| ==>
               r[i].filteredReportRows == mid[i].filteredReportRows
               && r[i].filteredReportItems == mid[i].filteredReportItems && r[i].sendingAt == mid[i].sendingAt;
      r
  }

  /** What one descendant contributes to the history being enriched. */
  function Step(s: HistoryState, d: HistoryState): HistoryState {
    match d.actionName
    case Process =>
      s.(destinations := s.destinations + d.destinations, errors := s.errors + d.errors, warnings := s.warnings + d.warnings)
    case Send => s.(destinations := SendReports(s.destinations, d.reports.GetOr([])))
    case Download => s.(destinations := DownloadReports(s.destinations, d.reports.GetOr([])))
    case _ => s
  }

  /** The descendants in order, one step each. */
  function Fold(s: HistoryState, ds: seq<HistoryState>): HistoryState {
    if ds == [] then s else Step(Fold(s, ds[..|ds| - 1]), ds[|ds| - 1])
  }

  /** The descendants of one kind, in their original order. */
  function OfKind(ds: seq<HistoryState>, kind: TaskAction): (r: seq<HistoryState>)
  {
    if ds == [] then []
    else
      var last := ds[|ds| - 1];
      OfKind(ds[..|ds| - 1], kind) + (if last.actionName == kind then [last] else [])
  }

  /** `enrichWithDescendants` when its check passes: every process, then every send, then every download. */
  function Enrich(s: HistoryState, ds: seq<HistoryState>): HistoryState {
    Fold(Fold(Fold(s, OfKind(ds, Process)), OfKind(ds, Send)), OfKind(ds, Download))
  }

  predicate DistinctActionIds(ds: seq<HistoryState>) {
    forall i, j :: 0 <= i < j < |ds| ==> ds[i].actionId != ds[j].actionId
  }

  lemma FoldSnoc(s: HistoryState, ds: seq<HistoryState>, d: HistoryState)
    ensures Fold(s, ds + [d]) == Step(Fold(s, ds), d)
  {
    assert (ds + [d])[..|ds|] == ds;
  }

  /** One stage as a single pass over the descendants: a step for each one of the stage's kind. */
  function StageFold(s: HistoryState, ds: seq<HistoryState>, kind: TaskAction): HistoryState {
    if ds == [] then s
    else
      var prev := StageFold(s, ds[..|ds| - 1], kind);
      if ds[|ds| - 1].actionName == kind then Step(prev, ds[|ds| - 1]) else prev
  }

  lemma {:induction false} StageFoldIsFoldOfKind(s: HistoryState, ds: seq<HistoryState>, kind: TaskAction)
    ensures StageFold(s, ds, kind) == Fold(s, OfKind(ds, kind))
  {
    if ds != [] {
      var init := ds[..|ds| - 1];
      var last := ds[|ds| - 1];
      StageFoldIsFoldOfKind(s, init, kind);
      assert ds == init + [last];
      OfKindSnoc(init, last, kind);
      if last.actionName == kind {
        assert OfKind(ds, kind) == OfKind(init, kind) + [last];
        FoldSnoc(s, OfKind(init, kind), last);
      } else {
        assert OfKind(ds, kind) == OfKind(init, kind);
      }
    }
  }

  lemma OfKindSnoc(ds: seq<HistoryState>, d: HistoryState, kind: TaskAction)
    ensures OfKind(ds + [d], kind) == OfKind(ds, kind) + (if d.actionName == kind then [d] else [])
  {
    assert (ds + [d])[..|ds|] == ds;
  }

  // ---------------------------------------------------------------------------------------
  // Summary

  /** `realDestinations`: the destinations that actually receive items, in order. */
  function RealDestinations(ds: seq<Destination>): seq<Destination> {
    if ds == [] then []
    else
      var last := ds[|ds| - 1];
      RealDestinations(ds[..|ds| - 1]) + (if last.itemCount != 0 then [last] else [])
  }

  /** The real destinations are the destinations with items; all of them are kept only when none is empty. */
  lemma {:induction false} RealDestinationsMembers(ds: seq<Destination>)
    ensures forall d :: d in RealDestinations(ds) <==> d in ds && d.itemCount != 0
    ensures |RealDestinations(ds)| <= |ds|
    ensures |RealDestinations(ds)| == |ds| <==> forall i :: 0 <= i < |ds| ==> ds[i].itemCount != 0
  {
    if ds != [] {
      var init := ds[..|ds| - 1];
      var last := ds[|ds| - 1];
      RealDestinationsMembers(init);
      assert ds == init + [last];
      if last.itemCount == 0 {
        assert |RealDestinations(ds)| < |ds|;
      } else if |RealDestinations(ds)| == |ds| {
        forall i | 0 <= i < |ds| ensures ds[i].itemCount != 0 {
          if i < |init| {
            assert ds[i] == init[i];
          }
        }
      }
    }
  }

  /** The positions of the destinations that have items. */
  ghost function RealIndexes(ds: seq<Destination>): set<int> {
    set i | 0 <= i < |ds| && ds[i].itemCount != 0
  }

  /** Extending the destinations by one extends their positions with items by at most that one. */
  lemma RealIndexesSnoc(ds: seq<Destination>)
    requires ds != []
    ensures |RealIndexes(ds)| == |RealIndexes(ds[..|ds| - 1])| + (if ds[|ds| - 1].itemCount != 0 then 1 else 0)
  {
    var n := |ds| - 1;
    var before := RealIndexes(ds[..n]);
    var after := RealIndexes(ds);
    var last: set<int> := if ds[n].itemCount != 0 then {n} else {};
    forall k ensures k in after <==> k in before + last {
      if 0 <= k < n {
        assert ds[k] == ds[..n][k];
      }
    }
    assert after == before + last;
    assert before * last == {};
  }

  /** There are as many real destinations as positions of destinations with items. */
  lemma {:induction false} RealDestinationsCount(ds: seq<Destination>)
    ensures |RealDestinations(ds)| == |RealIndexes(ds)|
  {
    if ds != [] {
      var n := |ds| - 1;
      RealDestinationsCount(ds[..n]);
      RealIndexesSnoc(ds);
      assert RealDestinations(ds) == RealDestinations(ds[..n]) + (if ds[n].itemCount != 0 then [ds[n]] else []);
    }
  }

  /** The sum of the reports' item counts. */
  function ItemSum(rs: seq<DetailedReport>): int {
    if rs == [] then 0 else ItemSum(rs[..|rs| - 1]) + rs[|rs| - 1].itemCount
  }

  /** A destination is finished once its sent, or its downloaded, items cover its item count. */
  predicate Finished(d: Destination) {
    ItemSum(d.sentReports) >= d.itemCount || ItemSum(d.downloadedReports) >= d.itemCount
  }

  function FinishedCount(ds: seq<Destination>): nat {
    if ds == [] then 0 else FinishedCount(ds[..|ds| - 1]) + (if Finished(ds[|ds| - 1]) then 1 else 0)
  }

  predicate HttpOk(httpStatus: Option<int>) {
    httpStatus == Some(200) || httpStatus == Some(201)
  }

  /** `calculateStatus`, given how many destinations there are and which of them are real. */
  function StatusFor(httpStatus: Option<int>, destinationTotal: nat, realDests: seq<Destination>): Status {
    if !HttpOk(httpStatus) then Status.Error
    else if destinationTotal == 0 then Received
    else if |realDests| == 0 then NotDelivering
    else
      var finished := FinishedCount(realDests);
      if finished >= |realDests| then Delivered
      else if finished > 0 then PartiallyDelivered
      else WaitingToDeliver
  }

  /** The status a history with these destinations is summarised to. */
  function OverallStatus(httpStatus: Option<int>, ds: seq<Destination>): Status {
    StatusFor(httpStatus, |ds|, RealDestinations(ds))
  }

  /** The latest `sendingAt` among the destinations that have one. */
  function MaxSendingAt(ds: seq<Destination>): (r: Option<Timestamp>)
    ensures r.None? <==> forall i :: 0 <= i < |ds| ==> ds[i].sendingAt.None?
    ensures r.Some? ==> exists i :: 0 <= i < |ds| && ds[i].sendingAt == r
    ensures r.Some? ==> forall i :: 0 <= i < |ds| && ds[i].sendingAt.Some? ==> ds[i].sendingAt.value <= r.value
  {
    if ds == [] then None
    else
      var rest := MaxSendingAt(ds[..|ds| - 1]);
      var here := ds[|ds| - 1].sendingAt;
      var r := if here.None? then rest
               else if rest.None? || rest.value < here.value then here
               else rest;
      assert forall i :: 0 <= i < |ds| - 1 ==> ds[..|ds| - 1][i] == ds[i];
      r
  }

  /** The latest `createdAt` among the reports. */
  function MaxCreatedAt(rs: seq<DetailedReport>): (r: Option<Timestamp>)
    ensures r.None? <==> rs == []
    ensures r.Some? ==> exists i :: 0 <= i < |rs| && rs[i].createdAt == r.value
    ensures r.Some? ==> forall i :: 0 <= i < |rs| ==> rs[i].createdAt <= r.value
  {
    if rs == [] then None
    else
      var rest := MaxCreatedAt(rs[..|rs| - 1]);
      var here := rs[|rs| - 1].createdAt;
      var r := if rest.None? || rest.value < here then Some(here) else rest;
      assert forall i :: 0 <= i < |rs| - 1 ==> rs[..|rs| - 1][i] == rs[i];
      r
  }

  /** `plannedCompletionAt`: null before delivery is planned, else the latest `sendingAt`. */
  function PlannedCompletionAt(status: Status, realDests: seq<Destination>): (r: Option<Timestamp>)
    ensures status == Status.Error || status == Received || status == NotDelivering ==> r.None?
    ensures !(status == Status.Error || status == Received || status == NotDelivering) ==>
              (r.None? <==> forall i :: 0 <= i < |realDests| ==> realDests[i].sendingAt.None?)
    ensures r.Some? ==> exists i :: 0 <= i < |realDests| && realDests[i].sendingAt == r
    ensures r.Some? ==> forall i :: 0 <= i < |realDests| && realDests[i].sendingAt.Some? ==> realDests[i].sendingAt.value <= r.value
  {
    if status == Status.Error || status == Received || status == NotDelivering then None
    else MaxSendingAt(realDests)
  }

  /** Every sent report of the destinations, then every downloaded one. */
  function AllSent(ds: seq<Destination>): seq<DetailedReport> {
    if ds == [] then [] else AllSent(ds[..|ds| - 1]) + ds[|ds| - 1].sentReports
  }

  function AllDownloaded(ds: seq<Destination>): seq<DetailedReport> {
    if ds == [] then [] else AllDownloaded(ds[..|ds| - 1]) + ds[|ds| - 1].downloadedReports
  }

  /** `actualCompletionAt`: null unless delivered, else the latest report sent or downloaded. */
  function ActualCompletionAt(status: Status, realDests: seq<Destination>): (r: Option<Timestamp>)
    ensures status != Delivered ==> r.None?
    ensures r.Some? ==> exists rep :: rep in AllSent(realDests) + AllDownloaded(realDests) && rep.createdAt == r.value
    ensures r.Some? ==> forall rep :: rep in AllSent(realDests) + AllDownloaded(realDests) ==> rep.createdAt <= r.value
    ensures status == Delivered ==> (r.None? <==> AllSent(realDests) + AllDownloaded(realDests) == [])
  {
    if status != Delivered then None else MaxCreatedAt(AllSent(realDests) + AllDownloaded(realDests))
  }

  /** `enrichWithSummary`: the status first, then the two times, which read the new status. */
  function Summarize(s: HistoryState): (r: HistoryState)
    ensures r.(overallStatus := s.overallStatus, plannedCompletionAt := s.plannedCompletionAt,
               actualCompletionAt := s.actualCompletionAt) == s
    ensures r.actualCompletionAt.Some? ==> r.overallStatus == Delivered
    ensures r.plannedCompletionAt.Some? ==> r.overallStatus in {WaitingToDeliver, PartiallyDelivered, Delivered}
  {
    var realDests := RealDestinations(s.destinations);
    var status := OverallStatus(s.httpStatus, s.destinations);
    s.(overallStatus := status,
       plannedCompletionAt := PlannedCompletionAt(status, realDests),
       actualCompletionAt := ActualCompletionAt(status, realDests))
  }

  // ---------------------------------------------------------------------------------------
  // The history object

  class DetailedSubmissionHistory {
    const actionId: int
    const actionName: TaskAction
    const createdAt: Timestamp
    const httpStatus: Option<int>
    const reports: Option<seq<DetailedReport>>
    const logs: seq<DetailedActionLog>
    var errors: seq<DetailedActionLog>
    var warnings: seq<DetailedActionLog>
    var id: Option<ReportId>
    var externalName: Option<string>
    var reportItemCount: Option<int>
    var sender: Option<ClientSource>
    var topic: Option<string>
    var destinations: seq<Destination>
    var overallStatus: Status
    var plannedCompletionAt: Option<Timestamp>
    var actualCompletionAt: Option<Timestamp>

    function State(): HistoryState
      reads this
    {
      HistoryState(actionId, actionName, createdAt, httpStatus, reports, logs, errors, warnings,
                   id, externalName, reportItemCount, sender, topic, destinations,
                   overallStatus, plannedCompletionAt, actualCompletionAt)
    }

    function ErrorCount(): nat
      reads this
    {
      |errors|
    }

    /** How many destinations hold a non-zero item count. */
    function DestinationCount(): (n: nat)
      reads this
      ensures n == |RealIndexes(destinations)|
      ensures n <= |destinations|
      ensures n == 0 <==> forall i :: 0 <= i < |destinations| ==> destinations[i].itemCount == 0
      ensures n == |destinations| <==> forall i :: 0 <= i < |destinations| ==> destinations[i].itemCount != 0
    {
      var realDests := RealDestinations(destinations);
      RealDestinationsCount(destinations);
      RealDestinationsMembers(destinations);
      assert |realDests| != 0 ==> realDests[0] in realDests;
      assert forall i :: 0 <= i < |destinations| ==> destinations[i].itemCount == 0 || destinations[i] in realDests;
      |realDests|
    }

    constructor FromSeed(actionId: int, actionName: TaskAction, createdAt: Timestamp, httpStatus: Option<int>,
                         reports: Option<seq<DetailedReport>>, logs: seq<DetailedActionLog>,
                         errors: seq<DetailedActionLog>, warnings: seq<DetailedActionLog>, seed: Seed)
      ensures State() == HistoryState(actionId, actionName, createdAt, httpStatus, reports, logs, errors, warnings,
                                      seed.id, seed.externalName, seed.reportItemCount, seed.sender, seed.topic,
                                      seed.destinations, Status.Received, None, None)
    {
      this.actionId := actionId;
      this.actionName := actionName;
      this.createdAt := createdAt;
      this.httpStatus := httpStatus;
      this.reports := reports;
      this.logs := logs;
      this.errors := errors;
      this.warnings := warnings;
      this.id := seed.id;
      this.externalName := seed.externalName;
      this.reportItemCount := seed.reportItemCount;
      this.sender := seed.sender;
      this.topic := seed.topic;
      this.destinations := seed.destinations;
      this.overallStatus := Status.Received;
      this.plannedCompletionAt := None;
      this.actualCompletionAt := None;
    }

    /**
     * Constructing a history runs `init`: one destination per report sent to a receiver, and the
     * sender fields from the one report received from a sender. What `init` throws is a `Failure`.
     */
    static method Create(actionId: int, actionName: TaskAction, createdAt: Timestamp, httpStatus: Option<int>,
                         reports: Option<seq<DetailedReport>>, logs: seq<DetailedActionLog>)
      returns (r: Result<DetailedSubmissionHistory, InitError>)
      ensures r.Failure? <==> Initial(actionId, actionName, createdAt, httpStatus, reports, logs).Failure?
      ensures r.Failure? ==> r.error == Initial(actionId, actionName, createdAt, httpStatus, reports, logs).error
      ensures r.Success? ==> fresh(r.value)
      ensures r.Success? ==> r.value.State() == Initial(actionId, actionName, createdAt, httpStatus, reports, logs).value
    {
      var errors := LogsAt(logs, ActionLogLevel.Error);
      var warnings := LogsAt(logs, ActionLogLevel.Warning);
      var seeded := SeedAll(reports.GetOr([]), logs, |errors|);
      if seeded.Failure? {
        return Failure(seeded.error);
      }
      var h := new DetailedSubmissionHistory.FromSeed(actionId, actionName, createdAt, httpStatus, reports, logs,
                                                      errors, warnings, seeded.value);
      r := Success(h);
    }

    /** The loop of `init` over the reports, stopping at the first report that throws. */
    static method SeedAll(rs: seq<DetailedReport>, logs: seq<DetailedActionLog>, errorCount: nat)
      returns (r: Result<Seed, InitError>)
      ensures r == SeedReports(rs, logs, errorCount)
    {
      var seed := EmptySeed;
      for i := 0 to |rs|
        invariant SeedReports(rs[..i], logs, errorCount) == Success(seed)
      {
        var report := rs[i];
        assert rs[..i + 1][..i] == rs[..i];
        var received := SeedReceivingReport(seed, report, logs);
        if received.Failure? {
          SeedFailureSticky(rs, logs, errorCount, i + 1);
          return Failure(received.error);
        }
        var sent := SeedSenderReport(received.value, report, errorCount);
        if sent.Failure? {
          SeedFailureSticky(rs, logs, errorCount, i + 1);
          return Failure(sent.error);
        }
        seed := sent.value;
      }
      assert rs[..|rs|] == rs;
      return Success(seed);
    }

    /** The body of `init` for a report sent to a destination. */
    static method SeedReceivingReport(seed: Seed, report: DetailedReport, logs: seq<DetailedActionLog>)
      returns (r: Result<Seed, InitError>)
      ensures r == ReceivingStep(seed, report, logs)
    {
      if report.receivingOrg.None? {
        return Success(seed);
      }
      var filterLogs := FilterLogs(logs, report.reportId);
      var filteredReportRows := Rows(filterLogs);
      var filteredReportItems := FilterItems(filterLogs);
      if filteredReportItems.None? {
        return Failure(FilterDetailNotFilterResult(report.reportId));
      }
      if report.receivingOrgSvc.None? {
        return Failure(MissingReceivingService(report.reportId));
      }
      var d := Destination(report.receivingOrg.value, report.receivingOrgSvc.value, Some(filteredReportRows),
                           filteredReportItems, report.nextActionAt, report.itemCount,
                           report.itemCountBeforeQualFilter, [], []);
      return Success(seed.(destinations := seed.destinations + [d]));
    }

    /** The body of `init` for the report received from a sender. */
    static method SeedSenderReport(seed: Seed, report: DetailedReport, errorCount: nat)
      returns (r: Result<Seed, InitError>)
      ensures r == SenderStep(seed, report, errorCount)
    {
      if report.sendingOrg.None? {
        return Success(seed);
      }
      if seed.id.Some? {
        return Failure(SecondSenderReport(report.reportId));
      }
      var id := if errorCount == 0 then Some(report.reportId) else None;
      var sender := ClientSource(report.sendingOrg.value, report.sendingOrgClient.GetOr(""));
      return Success(seed.(id := id, externalName := report.externalName, reportItemCount := Some(report.itemCount),
                           sender := Some(sender), topic := report.schemaTopic));
    }

    /**
     * `enrichWithDescendants`: checks that no action appears twice, then folds in every process
     * descendant, then every send, then every download. A failed check changes nothing.
     */
    method EnrichWithDescendants(descendants: seq<DetailedSubmissionHistory>) returns (ok: bool)
      requires this !in descendants
      modifies this
      ensures States(descendants) == old(States(descendants))
      ensures ok == DistinctActionIds(States(descendants))
      ensures State() == if ok then Enrich(old(State()), States(descendants)) else old(State())
    {
      if !DistinctActionIds(States(descendants)) {
        return false;
      }
      // the order of the stages is fixed: process, send, download; batch actions are not used
      EnrichWithStage(descendants, Process);
      EnrichWithStage(descendants, Send);
      EnrichWithStage(descendants, Download);
      ok := true;
    }

    /** `descendants.filter { it.actionName == stage }.forEach { … }` for one stage. */
    method EnrichWithStage(descendants: seq<DetailedSubmissionHistory>, stage: TaskAction)
      requires this !in descendants
      requires stage == Process || stage == Send || stage == Download
      modifies this
      ensures States(descendants) == old(States(descendants))
      ensures State() == Fold(old(State()), OfKind(States(descendants), stage))
    {
      ghost var views := States(descendants);
      for i := 0 to |descendants|
        invariant State() == StageFold(old(State()), views[..i], stage)
      {
        assert views[..i + 1][..i] == views[..i];
        if descendants[i].actionName == stage {
          EnrichWithAction(descendants[i]);
        }
      }
      StageFoldIsFoldOfKind(old(State()), views, stage);
      assert views[..|descendants|] == views;
    }

    /** The enrichment for one process, send or download descendant. */
    method EnrichWithAction(descendant: DetailedSubmissionHistory)
      requires descendant.actionName == Process || descendant.actionName == Send || descendant.actionName == Download
      requires descendant != this
      modifies this
      ensures State() == Step(old(State()), descendant.State())
    {
      if descendant.actionName == Process {
        EnrichWithProcessAction(descendant);
      } else if descendant.actionName == Send {
        EnrichWithSendAction(descendant);
      } else {
        EnrichWithDownloadAction(descendant);
      }
    }

    /** Adds the process action's destinations, errors and warnings after the existing ones. */
    method EnrichWithProcessAction(descendant: DetailedSubmissionHistory)
      requires descendant.actionName == Process
      requires descendant != this
      modifies this
      ensures State() == Step(old(State()), descendant.State())
    {
      destinations := destinations + descendant.destinations;
      errors := errors + descendant.errors;
      warnings := warnings + descendant.warnings;
    }

    /** Records each sent report on the destination it is for, or opens a destination for it. */
    method EnrichWithSendAction(descendant: DetailedSubmissionHistory)
      requires descendant.actionName == Send
      requires descendant != this
      modifies this
      ensures State() == Step(old(State()), descendant.State())
    {
      var rs := descendant.reports.GetOr([]);
      for i := 0 to |rs|
        invariant State() == old(State()).(destinations := SendReports(old(destinations), rs[..i]))
      {
        assert rs[..i + 1][..i] == rs[..i];
        AddSend(rs[i]);
      }
      assert rs[..|rs|] == rs;
    }

    /** One sent report: onto the first destination it is for, or a destination opened without it. */
    method AddSend(report: DetailedReport)
      modifies this
      ensures State() == old(State()).(destinations := AddSentReport(old(destinations), report))
    {
      var k := FindDestination(destinations, report);
      if k.Some? {
        var d := destinations[k.value];
        destinations := destinations[k.value := d.(sentReports := d.sentReports + [report])];
      } else if report.receivingOrg.Some? && report.receivingOrgSvc.Some? {
        destinations := destinations + [NewDestination(report)];
      }
    }

    /** Records each downloaded report on the destination it is for, or opens a destination holding it. */
    method EnrichWithDownloadAction(descendant: DetailedSubmissionHistory)
      requires descendant.actionName == Download
      requires descendant != this
      modifies this
      ensures State() == Step(old(State()), descendant.State())
    {
      var rs := descendant.reports.GetOr([]);
      for i := 0 to |rs|
        invariant State() == old(State()).(destinations := DownloadReports(old(destinations), rs[..i]))
      {
        assert rs[..i + 1][..i] == rs[..i];
        AddDownload(rs[i]);
      }
      assert rs[..|rs|] == rs;
    }

    /** One downloaded report: onto the first destination it is for, or onto a destination opened for it. */
    method AddDownload(report: DetailedReport)
      modifies this
      ensures State() == old(State()).(destinations := AddDownloadedReport(old(destinations), report))
    {
      var k := FindDestination(destinations, report);
      if k.Some? {
        var d := destinations[k.value];
        destinations := destinations[k.value := d.(downloadedReports := d.downloadedReports + [report])];
      } else if report.receivingOrg.Some? && report.receivingOrgSvc.Some? {
        var dest := NewDestination(report);
        destinations := destinations + [dest];
        destinations := destinations[|destinations| - 1 := dest.(downloadedReports := dest.downloadedReports + [report])];
        assert dest.(downloadedReports := dest.downloadedReports + [report]) == NewDestination(report).(downloadedReports := [report]);
      }
    }

    /** Sets the status, then the planned and the actual completion times, from the destinations. */
    method EnrichWithSummary()
      modifies this
      ensures State() == Summarize(old(State()))
    {
      var realDestinations := RealDestinations(destinations);
      overallStatus := CalculateStatus(realDestinations);
      plannedCompletionAt := PlannedCompletionAt(overallStatus, realDestinations);
      actualCompletionAt := ActualCompletionAt(overallStatus, realDestinations);
    }

    /** `calculateStatus`, with its counting loops. */
    method CalculateStatus(realDestinations: seq<Destination>) returns (status: Status)
      ensures status == StatusFor(httpStatus, |destinations|, realDestinations)
    {
      if httpStatus != Some(200) && httpStatus != Some(201) {
        return Status.Error;
      }
      if |destinations| == 0 {
        return Received;
      } else if |realDestinations| == 0 {
        return NotDelivering;
      }
      var finishedDestinations := 0;
      for i := 0 to |realDestinations|
        invariant finishedDestinations == FinishedCount(realDestinations[..i])
      {
        var d := realDestinations[i];
        var sentItemCount := 0;
        for j := 0 to |d.sentReports|
          invariant sentItemCount == ItemSum(d.sentReports[..j])
        {
          assert d.sentReports[..j + 1][..j] == d.sentReports[..j];
          sentItemCount := sentItemCount + d.sentReports[j].itemCount;
        }
        assert d.sentReports[..|d.sentReports|] == d.sentReports;
        var downloadedItemCount := 0;
        for j := 0 to |d.downloadedReports|
          invariant downloadedItemCount == ItemSum(d.downloadedReports[..j])
        {
          assert d.downloadedReports[..j + 1][..j] == d.downloadedReports[..j];
          downloadedItemCount := downloadedItemCount + d.downloadedReports[j].itemCount;
        }
        assert d.downloadedReports[..|d.downloadedReports|] == d.downloadedReports;
        assert realDestinations[..i + 1][..i] == realDestinations[..i];
        if sentItemCount >= d.itemCount || downloadedItemCount >= d.itemCount {
          finishedDestinations := finishedDestinations + 1;
        }
      }
      assert realDestinations[..|realDestinations|] == realDestinations;
      if finishedDestinations >= |realDestinations| {
        return Delivered;
      } else if finishedDestinations > 0 {
        return PartiallyDelivered;
      }
      return WaitingToDeliver;
    }
  }

  /** The states of the given histories, in order. */
  function States(hs: seq<DetailedSubmissionHistory>): (r: seq<HistoryState>)
    reads hs
    ensures |r| == |hs|
    ensures forall i :: 0 <= i < |hs| ==> r[i] == hs[i].State()
  {
    if hs == [] then [] else States(hs[..|hs| - 1]) + [hs[|hs| - 1].State()]
  }
}
