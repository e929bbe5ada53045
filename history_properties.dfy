/**
 * What the submission history promises: how seeding turns reports into destinations and
 * exposes the sender's report id, how each enrichment stage changes the lists, and the rules
 * that reduce the destinations to a status and completion times.
 */
module SubmissionHistoryProperties {
  import opened Wrappers
  import opened SubmissionHistory

  // ---------------------------------------------------------------------------------------
  // Seeding

  /** The reports that `init` turns into destinations, in order. */
  function ReceivingReports(rs: seq<DetailedReport>): seq<DetailedReport> {
    if rs == [] then []
    else ReceivingReports(rs[..|rs| - 1]) + (if rs[|rs| - 1].receivingOrg.Some? then [rs[|rs| - 1]] else [])
  }

  /** The destination `init` builds for the report `r`. */
  ghost predicate SeededFrom(d: Destination, r: DetailedReport, logs: seq<DetailedActionLog>) {
    && r.receivingOrg == Some(d.organizationId)
    && r.receivingOrgSvc == Some(d.service)
    && d.filteredReportRows == Some(Rows(FilterLogs(logs, r.reportId)))
    && d.filteredReportItems == FilterItems(FilterLogs(logs, r.reportId))
    && d.filteredReportItems.Some?
    && d.sendingAt == r.nextActionAt
    && d.itemCount == r.itemCount
    && d.itemCountBeforeQualFilter == r.itemCountBeforeQualFilter
    && d.sentReports == []
    && d.downloadedReports == []
  }

  /** Seeding that succeeds on all the reports succeeds on every prefix of them. */
  lemma SeedPrefixSucceeds(rs: seq<DetailedReport>, logs: seq<DetailedActionLog>, errorCount: nat)
    requires rs != []
    requires SeedReports(rs, logs, errorCount).Success?
    ensures SeedReports(rs[..|rs| - 1], logs, errorCount).Success?
  {
  }

  /** One destination per report with a receiving organisation, in report order, built from that report. */
  lemma {:induction false} SeedOneDestinationPerReceivingReport(rs: seq<DetailedReport>, logs: seq<DetailedActionLog>, errorCount: nat)
    requires SeedReports(rs, logs, errorCount).Success?
    ensures var ds := SeedReports(rs, logs, errorCount).value.destinations;
            && |ds| == |ReceivingReports(rs)|
            && forall i :: 0 <= i < |ds| ==> SeededFrom(ds[i], ReceivingReports(rs)[i], logs)
  {
    if rs != [] {
      var init := rs[..|rs| - 1];
      SeedPrefixSucceeds(rs, logs, errorCount);
      SeedOneDestinationPerReceivingReport(init, logs, errorCount);
    }
  }

  /** The filter items of a seeded destination come only from filter logs about its own report. */
  lemma FilterItemsFromOwnReport(logs: seq<DetailedActionLog>, reportId: ReportId)
    requires FilterItems(FilterLogs(logs, reportId)).Some?
    ensures var items := FilterItems(FilterLogs(logs, reportId)).value;
            forall k :: 0 <= k < |items| ==>
              exists l :: l in logs && l.level == ActionLogLevel.Filter && l.reportId == Some(reportId)
                          && l.detail == FilterDetail(items[k])
  {
    var fl := FilterLogs(logs, reportId);
    var items := FilterItems(fl).value;
    FilterLogsMembers(logs, reportId);
    forall k | 0 <= k < |items|
      ensures exists l :: l in logs && l.level == ActionLogLevel.Filter && l.reportId == Some(reportId)
                          && l.detail == FilterDetail(items[k])
    {
      assert fl[k] in fl;
    }
  }

  /** Each log is kept as often as it occurs, exactly when it is a filter log about `reportId`. */
  lemma {:induction false} FilterLogsCounts(logs: seq<DetailedActionLog>, reportId: ReportId)
    ensures forall l :: multiset(FilterLogs(logs, reportId))[l] ==
              if l.level == ActionLogLevel.Filter && l.reportId == Some(reportId) then multiset(logs)[l] else 0
  {
    if logs != [] {
      var init := logs[..|logs| - 1];
      var last := logs[|logs| - 1];
      assert logs == init + [last];
      FilterLogsCounts(init, reportId);
      assert multiset(logs) == multiset(init) + multiset{last};
    }
  }

  /** The filter logs keep the order of the action logs: selecting distributes over concatenation. */
  lemma {:induction false} FilterLogsAppend(xs: seq<DetailedActionLog>, ys: seq<DetailedActionLog>, reportId: ReportId)
    ensures FilterLogs(xs + ys, reportId) == FilterLogs(xs, reportId) + FilterLogs(ys, reportId)
    decreases |ys|
  {
    if ys == [] {
      assert xs + ys == xs;
    } else {
      var init := ys[..|ys| - 1];
      var last := ys[|ys| - 1];
      var zs := xs + ys;
      assert zs[..|zs| - 1] == xs + init;
      assert zs[|zs| - 1] == last;
      assert ys == init + [last];
      var tail := if last.level == ActionLogLevel.Filter && last.reportId == Some(reportId) then [last] else [];
      assert FilterLogs(zs, reportId) == FilterLogs(xs + init, reportId) + tail;
      assert FilterLogs(ys, reportId) == FilterLogs(init, reportId) + tail;
      FilterLogsAppend(xs, init, reportId);
    }
  }

  /**
   * The filter items of two runs of logs are those of each run, one after the other, and one
   * log whose detail is not a filter result spoils the whole list.
   */
  lemma FilterItemsAppend(xs: seq<DetailedActionLog>, ys: seq<DetailedActionLog>)
    ensures FilterItems(xs + ys).Some? <==> FilterItems(xs).Some? && FilterItems(ys).Some?
    ensures FilterItems(xs + ys).Some? ==> FilterItems(xs + ys).value == FilterItems(xs).value + FilterItems(ys).value
  {
    var zs := xs + ys;
    assert forall i :: 0 <= i < |xs| ==> zs[i] == xs[i];
    assert forall j :: 0 <= j < |ys| ==> zs[|xs| + j] == ys[j];
    if FilterItems(zs).Some? {
      assert FilterItems(xs).Some? by {
        forall i | 0 <= i < |xs| ensures xs[i].detail.FilterDetail? {
          assert zs[i] == xs[i];
        }
      }
      assert FilterItems(ys).Some? by {
        forall j | 0 <= j < |ys| ensures ys[j].detail.FilterDetail? {
          assert zs[|xs| + j] == ys[j];
        }
      }
    }
  }

  /** Receiving-report handling never touches the sender fields. */
  lemma ReceivingStepKeepsId(seed: Seed, r: DetailedReport, logs: seq<DetailedActionLog>)
    requires ReceivingStep(seed, r, logs).Success?
    ensures ReceivingStep(seed, r, logs).value.id == seed.id
  {
  }

  /** A history whose receive action logged an error never shows a report id. */
  lemma {:induction false} SeedIdSuppressedOnErrors(rs: seq<DetailedReport>, logs: seq<DetailedActionLog>, errorCount: nat)
    requires errorCount != 0
    requires SeedReports(rs, logs, errorCount).Success?
    ensures SeedReports(rs, logs, errorCount).value.id == None
  {
    if rs != [] {
      SeedPrefixSucceeds(rs, logs, errorCount);
      SeedIdSuppressedOnErrors(rs[..|rs| - 1], logs, errorCount);
    }
  }

  /** Without errors, the id is present exactly when some report came from a sender, and is that report's id. */
  lemma {:induction false} SeedIdWithoutErrors(rs: seq<DetailedReport>, logs: seq<DetailedActionLog>)
    requires SeedReports(rs, logs, 0).Success?
    ensures var id := SeedReports(rs, logs, 0).value.id;
            && (id.Some? <==> exists i :: 0 <= i < |rs| && rs[i].sendingOrg.Some?)
            && (id.Some? ==> exists i :: 0 <= i < |rs| && rs[i].sendingOrg.Some? && id.value == rs[i].reportId)
  {
    if rs != [] {
      var init := rs[..|rs| - 1];
      SeedPrefixSucceeds(rs, logs, 0);
      SeedIdWithoutErrors(init, logs);
      assert forall i :: 0 <= i < |init| ==> init[i] == rs[i];
    }
  }

  /** Without errors, a second report from a sender makes `init` throw. */
  lemma SecondSenderRejected(rs: seq<DetailedReport>, logs: seq<DetailedActionLog>, i: nat, j: nat)
    requires i < j < |rs|
    requires rs[i].sendingOrg.Some? && rs[j].sendingOrg.Some?
    ensures SeedReports(rs, logs, 0).Failure?
  {
    var upTo := rs[..j + 1];
    assert upTo[..j] == rs[..j];
    if SeedReports(rs[..j], logs, 0).Success? {
      SeedIdWithoutErrors(rs[..j], logs);
      assert rs[..j][i] == rs[i];
      var seed := SeedReports(rs[..j], logs, 0).value;
      if ReceivingStep(seed, rs[j], logs).Success? {
        ReceivingStepKeepsId(seed, rs[j], logs);
      }
    } else {
      SeedFailureSticky(upTo, logs, 0, j);
    }
    assert SeedReports(upTo, logs, 0).Failure?;
    SeedFailureSticky(rs, logs, 0, j + 1);
  }

  /**
   * With an error logged the id stays null, so the one-sender check never fires: reports that go
   * to no receiver are always accepted, however many of them came from a sender.
   */
  lemma {:induction false} SenderCheckOnlyWithoutErrors(rs: seq<DetailedReport>, logs: seq<DetailedActionLog>, errorCount: nat)
    requires errorCount != 0
    requires forall i :: 0 <= i < |rs| ==> rs[i].receivingOrg.None?
    ensures SeedReports(rs, logs, errorCount).Success?
  {
    if rs != [] {
      var init := rs[..|rs| - 1];
      assert forall i :: 0 <= i < |init| ==> init[i] == rs[i];
      SenderCheckOnlyWithoutErrors(init, logs, errorCount);
      SeedIdSuppressedOnErrors(init, logs, errorCount);
    }
  }

  // ---------------------------------------------------------------------------------------
  // Enrichment: the stage order

  /** The descendants one stage keeps are exactly those of its kind. */
  lemma {:induction false} OfKindMembers(ds: seq<HistoryState>, kind: TaskAction)
    ensures forall d :: d in OfKind(ds, kind) <==> d in ds && d.actionName == kind
  {
    if ds != [] {
      var init := ds[..|ds| - 1];
      OfKindMembers(init, kind);
      assert ds == init + [ds[|ds| - 1]];
    }
  }

  lemma {:induction false} OfKindAppend(xs: seq<HistoryState>, ys: seq<HistoryState>, kind: TaskAction)
    ensures OfKind(xs + ys, kind) == OfKind(xs, kind) + OfKind(ys, kind)
    decreases |ys|
  {
    if ys == [] {
      assert xs + ys == xs;
    } else {
      var init := ys[..|ys| - 1];
      var last := ys[|ys| - 1];
      assert xs + ys == (xs + init) + [last];
      assert ys == init + [last];
      var tail := if last.actionName == kind then [last] else [];
      OfKindAppend(xs, init, kind);
      OfKindSnoc(xs + init, last, kind);
      OfKindSnoc(init, last, kind);
      assert OfKind(xs + ys, kind) == OfKind(xs + init, kind) + tail;
      assert OfKind(ys, kind) == OfKind(init, kind) + tail;
      assert (OfKind(xs, kind) + OfKind(init, kind)) + tail == OfKind(xs, kind) + (OfKind(init, kind) + tail);
    }
  }

  lemma {:induction false} OfKindAbsent(xs: seq<HistoryState>, kind: TaskAction)
    requires forall i :: 0 <= i < |xs| ==> xs[i].actionName != kind
    ensures OfKind(xs, kind) == []
  {
    if xs != [] {
      var init := xs[..|xs| - 1];
      assert forall i :: 0 <= i < |init| ==> init[i] == xs[i];
      OfKindAbsent(init, kind);
    }
  }

  lemma {:induction false} OfKindAll(xs: seq<HistoryState>, kind: TaskAction)
    requires forall i :: 0 <= i < |xs| ==> xs[i].actionName == kind
    ensures OfKind(xs, kind) == xs
  {
    if xs != [] {
      var init := xs[..|xs| - 1];
      assert forall i :: 0 <= i < |init| ==> init[i] == xs[i];
      OfKindAll(init, kind);
      assert xs == init + [xs[|xs| - 1]];
    }
  }

  lemma OfKindSwap(xs: seq<HistoryState>, ys: seq<HistoryState>, kind: TaskAction)
    requires forall i, j :: 0 <= i < |xs| && 0 <= j < |ys| ==> xs[i].actionName != ys[j].actionName
    ensures OfKind(xs + ys, kind) == OfKind(ys + xs, kind)
  {
    OfKindAppend(xs, ys, kind);
    OfKindAppend(ys, xs, kind);
    if exists i :: 0 <= i < |xs| && xs[i].actionName == kind {
      OfKindAbsent(ys, kind);
    } else {
      OfKindAbsent(xs, kind);
    }
  }

  /**
   * The stages run in their fixed order whatever order the descendants come in: when no kind of
   * action occurs in both groups, swapping the groups changes nothing.
   */
  lemma EnrichIgnoresOrderAcrossKinds(s: HistoryState, xs: seq<HistoryState>, ys: seq<HistoryState>)
    requires forall i, j :: 0 <= i < |xs| && 0 <= j < |ys| ==> xs[i].actionName != ys[j].actionName
    ensures Enrich(s, xs + ys) == Enrich(s, ys + xs)
  {
    OfKindSwap(xs, ys, Process);
    OfKindSwap(xs, ys, Send);
    OfKindSwap(xs, ys, Download);
  }

  /** Batch actions, and any kind other than process, send and download, contribute nothing. */
  lemma EnrichIgnoresOtherKinds(s: HistoryState, ds: seq<HistoryState>, d: HistoryState)
    requires d.actionName != Process && d.actionName != Send && d.actionName != Download
    ensures Enrich(s, ds + [d]) == Enrich(s, ds)
  {
    OfKindSnoc(ds, d, Process);
    OfKindSnoc(ds, d, Send);
    OfKindSnoc(ds, d, Download);
    assert OfKind(ds + [d], Process) == OfKind(ds, Process);
    assert OfKind(ds + [d], Send) == OfKind(ds, Send);
    assert OfKind(ds + [d], Download) == OfKind(ds, Download);
  }

  /** Enrichment with no descendants leaves the history as it was. */
  lemma EnrichWithNothing(s: HistoryState)
    ensures Enrich(s, []) == s
  {
  }

  // ---------------------------------------------------------------------------------------
  // Enrichment: the process stage

  function DestinationsOf(ps: seq<HistoryState>): seq<Destination> {
    if ps == [] then [] else DestinationsOf(ps[..|ps| - 1]) + ps[|ps| - 1].destinations
  }

  function ErrorsOf(ps: seq<HistoryState>): seq<DetailedActionLog> {
    if ps == [] then [] else ErrorsOf(ps[..|ps| - 1]) + ps[|ps| - 1].errors
  }

  function WarningsOf(ps: seq<HistoryState>): seq<DetailedActionLog> {
    if ps == [] then [] else WarningsOf(ps[..|ps| - 1]) + ps[|ps| - 1].warnings
  }

  /**
   * The process stage appends every process descendant's destinations, errors and warnings, in
   * order, after the existing ones, and changes nothing else.
   */
  lemma ProcessStageAppends(s: HistoryState, ps: seq<HistoryState>)
    requires forall i :: 0 <= i < |ps| ==> ps[i].actionName == Process
    ensures Fold(s, ps) == s.(destinations := s.destinations + DestinationsOf(ps),
                              errors := s.errors + ErrorsOf(ps),
                              warnings := s.warnings + WarningsOf(ps))
    ensures Fold(s, ps).destinations[..|s.destinations|] == s.destinations
  {
    ProcessStageKeepsRest(s, ps);
    ProcessStageDestinations(s, ps);
    ProcessStageErrors(s, ps);
    ProcessStageWarnings(s, ps);
    assert (s.destinations + DestinationsOf(ps))[..|s.destinations|] == s.destinations;
  }

  lemma {:induction false} ProcessStageKeepsRest(s: HistoryState, ps: seq<HistoryState>)
    requires forall i :: 0 <= i < |ps| ==> ps[i].actionName == Process
    ensures Fold(s, ps).(destinations := s.destinations, errors := s.errors, warnings := s.warnings) == s
  {
    if ps != [] {
      ProcessStageKeepsRest(s, ps[..|ps| - 1]);
    }
  }

  lemma {:induction false} ProcessStageDestinations(s: HistoryState, ps: seq<HistoryState>)
    requires forall i :: 0 <= i < |ps| ==> ps[i].actionName == Process
    ensures Fold(s, ps).destinations == s.destinations + DestinationsOf(ps)
  {
    if ps != [] {
      var init := ps[..|ps| - 1];
      var last := ps[|ps| - 1];
      ProcessStageDestinations(s, init);
      assert Fold(s, ps) == Step(Fold(s, init), last);
      assert last.actionName == Process;
      assert s.destinations + DestinationsOf(init) + last.destinations == s.destinations + DestinationsOf(ps);
    }
  }

  lemma {:induction false} ProcessStageErrors(s: HistoryState, ps: seq<HistoryState>)
    requires forall i :: 0 <= i < |ps| ==> ps[i].actionName == Process
    ensures Fold(s, ps).errors == s.errors + ErrorsOf(ps)
  {
    if ps != [] {
      var init := ps[..|ps| - 1];
      var last := ps[|ps| - 1];
      ProcessStageErrors(s, init);
      assert Fold(s, ps) == Step(Fold(s, init), last);
      assert last.actionName == Process;
      assert s.errors + ErrorsOf(init) + last.errors == s.errors + ErrorsOf(ps);
    }
  }

  lemma {:induction false} ProcessStageWarnings(s: HistoryState, ps: seq<HistoryState>)
    requires forall i :: 0 <= i < |ps| ==> ps[i].actionName == Process
    ensures Fold(s, ps).warnings == s.warnings + WarningsOf(ps)
  {
    if ps != [] {
      var init := ps[..|ps| - 1];
      var last := ps[|ps| - 1];
      ProcessStageWarnings(s, init);
      assert Fold(s, ps) == Step(Fold(s, init), last);
      assert last.actionName == Process;
      assert s.warnings + WarningsOf(init) + last.warnings == s.warnings + WarningsOf(ps);
    }
  }

  /** Send and download descendants change the destinations and nothing else. */
  lemma {:induction false} DeliveryStagesOnlyTouchDestinations(s: HistoryState, xs: seq<HistoryState>)
    requires forall i :: 0 <= i < |xs| ==> xs[i].actionName != Process
    ensures Fold(s, xs).(destinations := s.destinations) == s
  {
    if xs != [] {
      DeliveryStagesOnlyTouchDestinations(s, xs[..|xs| - 1]);
    }
  }

  // ---------------------------------------------------------------------------------------
  // Enrichment: the send and download stages

  ghost predicate FirstMatch(ds: seq<Destination>, r: DetailedReport, i: int) {
    0 <= i < |ds| && Matches(ds[i], r) && forall j :: 0 <= j < i ==> !Matches(ds[j], r)
  }

  ghost predicate NoMatch(ds: seq<Destination>, r: DetailedReport) {
    forall j :: 0 <= j < |ds| ==> !Matches(ds[j], r)
  }

  /** A sent report for an existing destination grows that destination's sent reports, and nothing else. */
  lemma SentReportJoinsMatchingDestination(ds: seq<Destination>, r: DetailedReport, i: int)
    requires FirstMatch(ds, r, i)
    ensures var res := AddSentReport(ds, r);
            && |res| == |ds|
            && (forall j :: 0 <= j < |ds| && j != i ==> res[j] == ds[j])
            && res[i].sentReports == ds[i].sentReports + [r]
            && res[i].(sentReports := ds[i].sentReports) == ds[i]
  {
    FindDestinationIsFirstMatch(ds, r, i);
  }

  /**
   * A sent report for no existing destination opens one with no filters and no `sendingAt`,
   * whose sent reports are EMPTY; without both an organisation and a service it is dropped.
   */
  lemma SentReportWithoutDestination(ds: seq<Destination>, r: DetailedReport)
    requires NoMatch(ds, r)
    ensures r.receivingOrg.Some? && r.receivingOrgSvc.Some? ==>
              AddSentReport(ds, r) == ds + [Destination(r.receivingOrg.value, r.receivingOrgSvc.value, None, None, None,
                                                        r.itemCount, r.itemCountBeforeQualFilter, [], [])]
    ensures r.receivingOrg.None? || r.receivingOrgSvc.None? ==> AddSentReport(ds, r) == ds
  {
  }

  /** A downloaded report for an existing destination grows that destination's downloaded reports, and nothing else. */
  lemma DownloadedReportJoinsMatchingDestination(ds: seq<Destination>, r: DetailedReport, i: int)
    requires FirstMatch(ds, r, i)
    ensures var res := AddDownloadedReport(ds, r);
            && |res| == |ds|
            && (forall j :: 0 <= j < |ds| && j != i ==> res[j] == ds[j])
            && res[i].downloadedReports == ds[i].downloadedReports + [r]
            && res[i].(downloadedReports := ds[i].downloadedReports) == ds[i]
  {
    FindDestinationIsFirstMatch(ds, r, i);
  }

  /**
   * A downloaded report for no existing destination opens one that already holds exactly that
   * report among its downloads; without both an organisation and a service it is dropped.
   */
  lemma DownloadedReportWithoutDestination(ds: seq<Destination>, r: DetailedReport)
    requires NoMatch(ds, r)
    ensures r.receivingOrg.Some? && r.receivingOrgSvc.Some? ==>
              AddDownloadedReport(ds, r) == ds + [Destination(r.receivingOrg.value, r.receivingOrgSvc.value, None, None, None,
                                                              r.itemCount, r.itemCountBeforeQualFilter, [], [r])]
    ensures r.receivingOrg.None? || r.receivingOrgSvc.None? ==> AddDownloadedReport(ds, r) == ds
  {
  }

  lemma FindDestinationIsFirstMatch(ds: seq<Destination>, r: DetailedReport, i: int)
    requires FirstMatch(ds, r, i)
    ensures FindDestination(ds, r) == Some(i)
  {
  }

  /** No two destinations share an organisation and a service. */
  ghost predicate UniqueKeys(ds: seq<Destination>) {
    forall i, j :: 0 <= i < j < |ds| ==> ds[i].organizationId != ds[j].organizationId || ds[i].service != ds[j].service
  }

  lemma AddSentReportKeepsKeysUnique(ds: seq<Destination>, r: DetailedReport)
    requires UniqueKeys(ds)
    ensures UniqueKeys(AddSentReport(ds, r))
  {
  }

  lemma AddDownloadedReportKeepsKeysUnique(ds: seq<Destination>, r: DetailedReport)
    requires UniqueKeys(ds)
    ensures UniqueKeys(AddDownloadedReport(ds, r))
  {
  }

  /** The send stage never creates a second destination for an (organisation, service) pair. */
  lemma {:induction false} SendReportsKeepKeysUnique(ds: seq<Destination>, rs: seq<DetailedReport>)
    requires UniqueKeys(ds)
    ensures UniqueKeys(SendReports(ds, rs))
  {
    if rs != [] {
      SendReportsKeepKeysUnique(ds, rs[..|rs| - 1]);
      AddSentReportKeepsKeysUnique(SendReports(ds, rs[..|rs| - 1]), rs[|rs| - 1]);
    }
  }

  /** The download stage never creates a second destination for an (organisation, service) pair. */
  lemma {:induction false} DownloadReportsKeepKeysUnique(ds: seq<Destination>, rs: seq<DetailedReport>)
    requires UniqueKeys(ds)
    ensures UniqueKeys(DownloadReports(ds, rs))
  {
    if rs != [] {
      DownloadReportsKeepKeysUnique(ds, rs[..|rs| - 1]);
      AddDownloadedReportKeepsKeysUnique(DownloadReports(ds, rs[..|rs| - 1]), rs[|rs| - 1]);
    }
  }

  /** After a send, a report that names both an organisation and a service has a destination. */
  lemma SentReportHasDestination(ds: seq<Destination>, r: DetailedReport)
    requires r.receivingOrg.Some? && r.receivingOrgSvc.Some?
    ensures exists k :: 0 <= k < |AddSentReport(ds, r)| && Matches(AddSentReport(ds, r)[k], r)
  {
    var res := AddSentReport(ds, r);
    match FindDestination(ds, r)
    case Some(k) =>
      assert Matches(res[k], r);
    case None =>
      assert Matches(res[|ds|], r);
  }

  /**
   * The order among send descendants matters: two reports for one new destination leave a
   * different destination depending on which comes first.
   */
  lemma SendOrderMatters(s: HistoryState, d1: HistoryState, d2: HistoryState, r1: DetailedReport, r2: DetailedReport)
    requires s.destinations == []
    requires d1.actionName == Send && d1.reports == Some([r1])
    requires d2.actionName == Send && d2.reports == Some([r2])
    requires r1.receivingOrg.Some? && r1.receivingOrgSvc.Some?
    requires r2.receivingOrg == r1.receivingOrg && r2.receivingOrgSvc == r1.receivingOrgSvc
    requires r1.itemCount != r2.itemCount
    ensures Enrich(s, [d1, d2]) != Enrich(s, [d2, d1])
  {
    TwoSends(s, d1, d2, r1, r2);
    TwoSends(s, d2, d1, r2, r1);
    assert Enrich(s, [d1, d2]).destinations[0].itemCount == r1.itemCount;
  }

  /** Two send descendants for one new destination: the first opens it, the second is recorded on it. */
  lemma TwoSends(s: HistoryState, d1: HistoryState, d2: HistoryState, r1: DetailedReport, r2: DetailedReport)
    requires s.destinations == []
    requires d1.actionName == Send && d1.reports == Some([r1])
    requires d2.actionName == Send && d2.reports == Some([r2])
    requires r1.receivingOrg.Some? && r1.receivingOrgSvc.Some?
    requires r2.receivingOrg == r1.receivingOrg && r2.receivingOrgSvc == r1.receivingOrgSvc
    ensures |Enrich(s, [d1, d2]).destinations| == 1
    ensures Enrich(s, [d1, d2]).destinations[0].itemCount == r1.itemCount
  {
    EnrichOfSendsOnly(s, [d1, d2]);
    FoldTwo(s, d1, d2);
    var first := Step(s, d1);
    SendOne(s, d1, r1);
    SentReportWithoutDestination([], r1);
    SendOne(first, d2, r2);
    SentReportJoinsMatchingDestination(first.destinations, r2, 0);
  }

  lemma FoldTwo(s: HistoryState, d1: HistoryState, d2: HistoryState)
    ensures Fold(s, [d1, d2]) == Step(Step(s, d1), d2)
  {
    assert [d1, d2][..1] == [d1] && [d1][..0] == [];
    assert Fold(s, [d1]) == Step(Fold(s, []), d1);
  }

  lemma SendOne(s: HistoryState, d: HistoryState, r: DetailedReport)
    requires d.actionName == Send && d.reports == Some([r])
    ensures Step(s, d).destinations == AddSentReport(s.destinations, r)
  {
    assert [r][..0] == [];
    assert SendReports(s.destinations, [r]) == AddSentReport(SendReports(s.destinations, []), r);
  }

  /** With send descendants only, enrichment is the send stage alone. */
  lemma EnrichOfSendsOnly(s: HistoryState, ds: seq<HistoryState>)
    requires forall i :: 0 <= i < |ds| ==> ds[i].actionName == Send
    ensures Enrich(s, ds) == Fold(s, ds)
  {
    OfKindAbsent(ds, Process);
    OfKindAbsent(ds, Download);
    OfKindAll(ds, Send);
  }

  // ---------------------------------------------------------------------------------------
  // Status

  lemma {:induction false} FinishedCountBounds(xs: seq<Destination>)
    ensures FinishedCount(xs) <= |xs|
    ensures FinishedCount(xs) == |xs| <==> forall i :: 0 <= i < |xs| ==> Finished(xs[i])
    ensures FinishedCount(xs) == 0 <==> forall i :: 0 <= i < |xs| ==> !Finished(xs[i])
  {
    if xs != [] {
      var init := xs[..|xs| - 1];
      FinishedCountBounds(init);
      assert forall i :: 0 <= i < |init| ==> init[i] == xs[i];
    }
  }

  /** Membership in the real destinations, by index. */
  lemma RealDestinationsByIndex(ds: seq<Destination>)
    ensures var realDests := RealDestinations(ds);
            && (forall i :: 0 <= i < |realDests| ==> realDests[i] in ds && realDests[i].itemCount != 0)
            && (forall d :: d in ds && d.itemCount != 0 ==> exists i :: 0 <= i < |realDests| && realDests[i] == d)
  {
    var realDests := RealDestinations(ds);
    RealDestinationsMembers(ds);
    forall i | 0 <= i < |realDests| ensures realDests[i] in ds && realDests[i].itemCount != 0 {
      assert realDests[i] in realDests;
    }
    forall d | d in ds && d.itemCount != 0
      ensures exists i :: 0 <= i < |realDests| && realDests[i] == d
    {
      assert d in realDests;
      var i :| 0 <= i < |realDests| && realDests[i] == d;
    }
  }

  /** Each destination with items is kept as often as it occurs; the empty ones are all dropped. */
  lemma {:induction false} RealDestinationsCounts(ds: seq<Destination>)
    ensures forall d :: multiset(RealDestinations(ds))[d] == if d.itemCount != 0 then multiset(ds)[d] else 0
  {
    if ds != [] {
      var init := ds[..|ds| - 1];
      var last := ds[|ds| - 1];
      assert ds == init + [last];
      RealDestinationsCounts(init);
      assert multiset(ds) == multiset(init) + multiset{last};
    }
  }

  /** Dropping the empty destinations keeps the order of the rest: it distributes over concatenation. */
  lemma {:induction false} RealDestinationsAppend(xs: seq<Destination>, ys: seq<Destination>)
    ensures RealDestinations(xs + ys) == RealDestinations(xs) + RealDestinations(ys)
    decreases |ys|
  {
    if ys == [] {
      assert xs + ys == xs;
    } else {
      var init := ys[..|ys| - 1];
      var last := ys[|ys| - 1];
      var zs := xs + ys;
      assert zs[..|zs| - 1] == xs + init;
      assert zs[|zs| - 1] == last;
      assert ys == init + [last];
      var tail := if last.itemCount != 0 then [last] else [];
      assert RealDestinations(zs) == RealDestinations(xs + init) + tail;
      assert RealDestinations(ys) == RealDestinations(init) + tail;
      RealDestinationsAppend(xs, init);
    }
  }

  /** The statuses that hold before anything is delivered. */
  lemma StatusBeforeDelivery(httpStatus: Option<int>, ds: seq<Destination>)
    ensures OverallStatus(httpStatus, ds) == Status.Error <==> !HttpOk(httpStatus)
    ensures OverallStatus(httpStatus, ds) == Received <==> HttpOk(httpStatus) && ds == []
    ensures OverallStatus(httpStatus, ds) == NotDelivering <==>
              HttpOk(httpStatus) && ds != [] && forall d :: d in ds ==> d.itemCount == 0
  {
    var realDests := RealDestinations(ds);
    RealDestinationsMembers(ds);
    if |realDests| != 0 {
      assert realDests[0] in realDests;
    }
  }

  /** How far delivery has got decides the remaining statuses. */
  lemma StatusOfDelivery(httpStatus: Option<int>, ds: seq<Destination>)
    ensures OverallStatus(httpStatus, ds) == Delivered <==>
              && HttpOk(httpStatus)
              && (exists d :: d in ds && d.itemCount != 0)
              && (forall d :: d in ds && d.itemCount != 0 ==> Finished(d))
    ensures OverallStatus(httpStatus, ds) == PartiallyDelivered <==>
              && HttpOk(httpStatus)
              && (exists d :: d in ds && d.itemCount != 0 && Finished(d))
              && (exists d :: d in ds && d.itemCount != 0 && !Finished(d))
    ensures OverallStatus(httpStatus, ds) == WaitingToDeliver <==>
              && HttpOk(httpStatus)
              && (exists d :: d in ds && d.itemCount != 0)
              && (forall d :: d in ds && d.itemCount != 0 ==> !Finished(d))
  {
    var realDests := RealDestinations(ds);
    FinishedCountBounds(realDests);
    RealDestinationsMembers(ds);
    RealDestinationsByIndex(ds);
    if |realDests| != 0 {
      assert realDests[0] in realDests;
    }
  }

  /**
   * Once a history has some destination, one with no items changes neither the status nor the
   * completion times.
   */
  lemma ZeroItemDestinationIgnored(s: HistoryState, d: Destination)
    requires s.destinations != []
    requires d.itemCount == 0
    ensures var t := s.(destinations := s.destinations + [d]);
            && Summarize(t).overallStatus == Summarize(s).overallStatus
            && Summarize(t).plannedCompletionAt == Summarize(s).plannedCompletionAt
            && Summarize(t).actualCompletionAt == Summarize(s).actualCompletionAt
  {
    assert (s.destinations + [d])[..|s.destinations|] == s.destinations;
    assert RealDestinations(s.destinations + [d]) == RealDestinations(s.destinations) + [];
    assert RealDestinations(s.destinations + [d]) == RealDestinations(s.destinations);
  }

  /** On a history with no destinations at all, one with no items does change the status. */
  lemma ZeroItemDestinationLeavesReceived(d: Destination)
    requires d.itemCount == 0
    ensures OverallStatus(Some(200), []) == Received
    ensures OverallStatus(Some(200), [d]) == NotDelivering
  {
    assert RealDestinations([d]) == [];
  }

  /** The worked example: one destination of 10 items, fully sent, is delivered when that report was created. */
  lemma DeliveredExample()
    ensures var sent := DetailedReport("r", Some("orgA"), Some("elr"), None, None, None, None, 10, None, None, 42);
            var ds := AddSentReport([Destination("orgA", "elr", Some([]), Some([]), Some(5), 10, Some(10), [], [])], sent);
            && OverallStatus(Some(201), ds) == Delivered
            && ActualCompletionAt(Delivered, RealDestinations(ds)) == Some(42)
            && PlannedCompletionAt(Delivered, RealDestinations(ds)) == Some(5)
  {
    var sent := DetailedReport("r", Some("orgA"), Some("elr"), None, None, None, None, 10, None, None, 42);
    var d0 := Destination("orgA", "elr", Some([]), Some([]), Some(5), 10, Some(10), [], []);
    var d1 := d0.(sentReports := [sent]);
    assert FindDestination([d0], sent) == Some(0);
    assert [d0][0 := d1] == [d1];
    assert d0.sentReports + [sent] == [sent];
    assert AddSentReport([d0], sent) == [d1];
    assert [sent][..0] == [];
    assert ItemSum([sent]) == 10;
    assert [d1][..0] == [];
    assert RealDestinations([d1]) == [d1];
    assert FinishedCount([d1]) == 1;
    assert AllSent([d1]) == [sent];
    assert AllDownloaded([d1]) == [];
    assert [sent] + [] == [sent];
    assert MaxCreatedAt([sent]) == Some(42);
    assert MaxSendingAt([d1]) == Some(5);
  }

  /** The worked example: an untouched real destination beside an empty one is waiting, not not-delivering. */
  lemma WaitingExample(s: HistoryState)
    requires s.httpStatus == Some(200)
    requires s.destinations == [Destination("orgA", "elr", None, None, None, 5, None, [], []),
                                Destination("orgB", "elr", None, None, None, 0, None, [], [])]
    ensures |RealDestinations(s.destinations)| == 1
    ensures Summarize(s).overallStatus == WaitingToDeliver
  {
    var dA := Destination("orgA", "elr", None, None, None, 5, None, [], []);
    assert s.destinations[..1] == [dA];
    assert [dA][..0] == [];
    assert RealDestinations([dA]) == [dA];
    assert RealDestinations(s.destinations) == [dA];
    assert FinishedCount([dA]) == 0;
  }
}
