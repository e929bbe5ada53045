/**
 * The submissions facade: validates the arguments of a submission listing and delegates it to
 * the submission store, and assembles one detailed submission history from its root action and
 * the actions that descend from it.
 *
 * The stores are the fields of `SubmissionAccess` and `DatabaseAccess`, total functions the model
 * does not look inside; each operation also returns the store calls it made, in order. A row
 * the store maps to a `DetailedSubmissionHistory` is an `ActionRecord`: the arguments of the
 * history's constructor, which runs `init` and may throw.
 */
module SubmissionsFacade {
  import opened Wrappers
  import opened SubmissionHistory

  datatype SortOrder = Asc | Desc
  datatype SortColumn = CreatedAt

  /** The arguments of a submission listing. */
  datatype ActionQuery = ActionQuery(
    organizationName: string,
    sortOrder: SortOrder,
    sortColumn: SortColumn,
    offset: Option<Timestamp>,
    toEnd: Option<Timestamp>,
    pageSize: int,
    showFailed: bool)

  /** One action row, as the history constructor receives it. */
  datatype ActionRecord = ActionRecord(
    actionId: int,
    actionName: TaskAction,
    createdAt: Timestamp,
    httpStatus: Option<int>,
    reports: Option<seq<DetailedReport>>,
    logs: seq<DetailedActionLog>)

  /** The submission store, by what each query returns; `Listing` is the type of a listed submission. */
  datatype SubmissionAccess<Listing> = SubmissionAccess(
    fetchActions: ActionQuery -> seq<Listing>,
    fetchAction: (string, int) -> Option<ActionRecord>,
    fetchRelatedActions: int -> seq<ActionRecord>)

  datatype DatabaseAccess = DatabaseAccess(fetchActionIdForReport: ReportId -> Option<int>)

  datatype AccessCall =
    | FetchActions(query: ActionQuery)
    | FetchAction(organizationName: string, submissionId: int)
    | FetchRelatedActions(actionId: int)
    | FetchActionIdForReport(reportId: ReportId)

  datatype FacadeError =
    | InvalidOrganization
    | InvalidPageSize
    | HistoryInitError(cause: InitError)   // a history's `init` threw while the store mapped it
    | DuplicateDescendants                 // the check of `enrichWithDescendants` failed
  {
    /** The messages of the two argument checks. */
    function Message(): string
      requires InvalidOrganization? || InvalidPageSize?
    {
      if InvalidOrganization? then "Invalid organization." else "pageSize must be a positive integer."
    }
  }

  /** Kotlin's `Char.isWhitespace`: the Java whitespace controls and every space, line or paragraph separator. */
  predicate IsWhitespace(c: char) {
    || ('\t' <= c <= '\r')
    || ('\U{1C}' <= c <= '\U{1F}')
    || c == ' ' || c == '\U{A0}' || c == '\U{1680}'
    || ('\U{2000}' <= c <= '\U{200A}')
    || c == '\U{2028}' || c == '\U{2029}' || c == '\U{202F}' || c == '\U{205F}' || c == '\U{3000}'
  }

  /** `isBlank`: empty, or whitespace only. */
  predicate IsBlank(s: string) {
    forall i :: 0 <= i < |s| ==> IsWhitespace(s[i])
  }

  /** The history the store would build from a row, or what its `init` throws. */
  function Seeded(rec: ActionRecord): Result<HistoryState, InitError> {
    Initial(rec.actionId, rec.actionName, rec.createdAt, rec.httpStatus, rec.reports, rec.logs)
  }

  /** The histories built from the rows in order, or the first error thrown. */
  function SeededAll(recs: seq<ActionRecord>): (r: Result<seq<HistoryState>, InitError>)
    ensures r.Success? <==> forall i :: 0 <= i < |recs| ==> Seeded(recs[i]).Success?
    ensures r.Success? ==> |r.value| == |recs| && forall i :: 0 <= i < |recs| ==> r.value[i] == Seeded(recs[i]).value
  {
    if recs == [] then Success([])
    else
      match Seeded(recs[0])
      case Failure(e) => Failure(e)
      case Success(h) =>
        match SeededAll(recs[1..])
        case Failure(e) => Failure(e)
        case Success(hs) =>
          assert forall i :: 1 <= i < |recs| ==> recs[1..][i - 1] == recs[i];
          Success([h] + hs)
  }

  class SubmissionsFacade<Listing> {
    const dbSubmissionAccess: SubmissionAccess<Listing>
    const dbAccess: DatabaseAccess

    constructor(dbSubmissionAccess: SubmissionAccess<Listing>, dbAccess: DatabaseAccess)
      ensures this.dbSubmissionAccess == dbSubmissionAccess && this.dbAccess == dbAccess
    {
      this.dbSubmissionAccess := dbSubmissionAccess;
      this.dbAccess := dbAccess;
    }

    /**
     * `findSubmissions`: a blank organisation, then a non-positive page size, fail before the
     * store is asked; otherwise the listing is exactly what the store returns.
     */
    function FindSubmissions(query: ActionQuery): (r: (seq<AccessCall>, Result<seq<Listing>, FacadeError>))
      ensures r.1 == Failure(InvalidOrganization) <==> IsBlank(query.organizationName)
      ensures r.1 == Failure(InvalidPageSize) <==> !IsBlank(query.organizationName) && query.pageSize <= 0
      ensures r.1.Failure? ==> r.0 == []
      ensures r.1.Success? ==> r.0 == [FetchActions(query)] && r.1.value == dbSubmissionAccess.fetchActions(query)
    {
      if IsBlank(query.organizationName) then ([], Failure(InvalidOrganization))
      else if query.pageSize <= 0 then ([], Failure(InvalidPageSize))
      else ([FetchActions(query)], Success(dbSubmissionAccess.fetchActions(query)))
    }

    /** The store calls `findSubmission` makes. */
    function SubmissionCalls(organizationName: string, submissionId: int): (calls: seq<AccessCall>)
      ensures |calls| >= 1 && calls[0] == FetchAction(organizationName, submissionId)
      ensures |calls| == 2 <==> dbSubmissionAccess.fetchAction(organizationName, submissionId).Some?
                                && Seeded(dbSubmissionAccess.fetchAction(organizationName, submissionId).value).Success?
      ensures |calls| <= 2
    {
      match dbSubmissionAccess.fetchAction(organizationName, submissionId)
      case None => [FetchAction(organizationName, submissionId)]
      case Some(rec) =>
        if Seeded(rec).Failure? then [FetchAction(organizationName, submissionId)]
        else [FetchAction(organizationName, submissionId), FetchRelatedActions(rec.actionId)]
    }

    /** The history `findSubmission` returns, or why it throws. */
    function SubmissionLookup(organizationName: string, submissionId: int): (r: Result<Option<HistoryState>, FacadeError>)
      ensures dbSubmissionAccess.fetchAction(organizationName, submissionId).None? ==> r == Success(None)
      ensures r.Success? && r.value.Some? ==>
                var rec := dbSubmissionAccess.fetchAction(organizationName, submissionId).value;
                && dbSubmissionAccess.fetchAction(organizationName, submissionId).Some?
                && r.value.value.actionId == rec.actionId
                && r.value.value.httpStatus == rec.httpStatus
                && r.value.value.logs == rec.logs
      ensures var root := dbSubmissionAccess.fetchAction(organizationName, submissionId);
              root.Some? && Seeded(root.value).Success? && dbSubmissionAccess.fetchRelatedActions(root.value.actionId) == [] ==>
                r == Success(Some(Seeded(root.value).value))
      ensures r == Failure(DuplicateDescendants) ==>
                var root := dbSubmissionAccess.fetchAction(organizationName, submissionId);
                && root.Some?
                && SeededAll(dbSubmissionAccess.fetchRelatedActions(root.value.actionId)).Success?
                && !DistinctActionIds(SeededAll(dbSubmissionAccess.fetchRelatedActions(root.value.actionId)).value)
    {
      match dbSubmissionAccess.fetchAction(organizationName, submissionId)
      case None => Success(None)
      case Some(rec) =>
        match Seeded(rec)
        case Failure(e) => Failure(HistoryInitError(e))
        case Success(root) => Assembled(root, dbSubmissionAccess.fetchRelatedActions(rec.actionId))
    }

    /**
     * `findSubmission`: fetch the root action; when there is one, fetch the actions related to it
     * and enrich the root with them, once.
     */
    method FindSubmission(organizationName: string, submissionId: int)
      returns (calls: seq<AccessCall>, r: Result<Option<DetailedSubmissionHistory>, FacadeError>)
      ensures calls == SubmissionCalls(organizationName, submissionId)
      ensures r.Success? <==> SubmissionLookup(organizationName, submissionId).Success?
      ensures r.Failure? ==> r.error == SubmissionLookup(organizationName, submissionId).error
      ensures r.Success? ==> (r.value.Some? <==> SubmissionLookup(organizationName, submissionId).value.Some?)
      ensures r.Success? && r.value.Some? ==>
                fresh(r.value.value) && r.value.value.State() == SubmissionLookup(organizationName, submissionId).value.value
    {
      calls := [FetchAction(organizationName, submissionId)];
      var found := dbSubmissionAccess.fetchAction(organizationName, submissionId);
      if found.None? {
        return calls, Success(None);
      }
      var rec := found.value;
      var created := DetailedSubmissionHistory.Create(rec.actionId, rec.actionName, rec.createdAt, rec.httpStatus,
                                                      rec.reports, rec.logs);
      if created.Failure? {
        return calls, Failure(HistoryInitError(created.error));
      }
      var submission := created.value;
      calls := calls + [FetchRelatedActions(submission.actionId)];
      var relatedRecords := dbSubmissionAccess.fetchRelatedActions(submission.actionId);
      var failure := EnrichFromRecords(submission, relatedRecords);
      if failure.Some? {
        return calls, Failure(failure.value);
      }
      r := Success(Some(submission));
    }

    /**
     * `findReport`: the history of the action that received the report, when the report is
     * known, else nothing.
     */
    method FindReport(organizationName: string, reportId: ReportId)
      returns (calls: seq<AccessCall>, r: Result<Option<DetailedSubmissionHistory>, FacadeError>)
      ensures dbAccess.fetchActionIdForReport(reportId).None? ==>
                calls == [FetchActionIdForReport(reportId)] && r == Success(None)
      ensures dbAccess.fetchActionIdForReport(reportId).Some? ==>
                var submissionId := dbAccess.fetchActionIdForReport(reportId).value;
                var lookup := SubmissionLookup(organizationName, submissionId);
                && calls == [FetchActionIdForReport(reportId)] + SubmissionCalls(organizationName, submissionId)
                && (r.Success? <==> lookup.Success?)
                && (r.Failure? ==> r.error == lookup.error)
                && (r.Success? ==> (r.value.Some? <==> lookup.value.Some?))
                && (r.Success? && r.value.Some? ==> fresh(r.value.value) && r.value.value.State() == lookup.value.value)
    {
      var submissionId := dbAccess.fetchActionIdForReport(reportId);
      if submissionId.None? {
        return [FetchActionIdForReport(reportId)], Success(None);
      }
      var submissionCalls;
      submissionCalls, r := FindSubmission(organizationName, submissionId.value);
      calls := [FetchActionIdForReport(reportId)] + submissionCalls;
    }
  }

  /** What enriching the root `root` with the related rows gives, or why it throws. */
  function Assembled(root: HistoryState, relatedRecords: seq<ActionRecord>): (r: Result<Option<HistoryState>, FacadeError>)
    ensures r.Success? ==> r.value.Some?
    ensures r.Success? ==> && r.value.value.actionId == root.actionId
                           && r.value.value.httpStatus == root.httpStatus
                           && r.value.value.logs == root.logs
    ensures relatedRecords == [] ==> r == Success(Some(root))
    ensures r == Failure(DuplicateDescendants) ==>
              SeededAll(relatedRecords).Success? && !DistinctActionIds(SeededAll(relatedRecords).value)
  {
    match SeededAll(relatedRecords)
    case Failure(e) => Failure(HistoryInitError(e))
    case Success(related) =>
      if !DistinctActionIds(related) then Failure(DuplicateDescendants)
      else
        DeliveryKeepsIdentity(root, related);
        Success(Some(Enrich(root, related)))
  }

  /** Builds the related histories and enriches `submission` with them; what was thrown, if anything. */
  method EnrichFromRecords(submission: DetailedSubmissionHistory, relatedRecords: seq<ActionRecord>)
    returns (failure: Option<FacadeError>)
    modifies submission
    ensures failure.None? <==> Assembled(old(submission.State()), relatedRecords).Success?
    ensures failure.Some? ==> failure.value == Assembled(old(submission.State()), relatedRecords).error
    ensures failure.Some? ==> submission.State() == old(submission.State())
    ensures failure.None? ==> submission.State() == Assembled(old(submission.State()), relatedRecords).value.value
  {
    var relatedSubmissions, initFailure := BuildHistories(relatedRecords);
    if initFailure.Some? {
      return Some(HistoryInitError(initFailure.value));
    }
    ghost var related := SeededAll(relatedRecords).value;
    assert States(relatedSubmissions) == related;
    assert submission !in relatedSubmissions;
    var ok := submission.EnrichWithDescendants(relatedSubmissions);
    assert States(relatedSubmissions) == related;
    if !ok {
      return Some(DuplicateDescendants);
    }
    failure := None;
  }

  /** Builds one history per row, in order, stopping at the first row whose `init` throws. */
  method BuildHistories(recs: seq<ActionRecord>) returns (hs: seq<DetailedSubmissionHistory>, failure: Option<InitError>)
    ensures failure.None? <==> SeededAll(recs).Success?
    ensures failure.Some? ==> failure.value == SeededAll(recs).error
    ensures failure.None? ==> |hs| == |recs| && States(hs) == SeededAll(recs).value
    ensures forall h :: h in hs ==> fresh(h)
  {
    hs := [];
    for i := 0 to |recs|
      invariant |hs| == i
      invariant forall h :: h in hs ==> fresh(h)
      invariant forall j :: 0 <= j < i ==> Seeded(recs[j]).Success? && hs[j].State() == Seeded(recs[j]).value
    {
      var rec := recs[i];
      var created := DetailedSubmissionHistory.Create(rec.actionId, rec.actionName, rec.createdAt, rec.httpStatus,
                                                      rec.reports, rec.logs);
      if created.Failure? {
        SeededAllStopsAtFirstFailure(recs, i);
        return hs, Some(created.error);
      }
      hs := hs + [created.value];
    }
    failure := None;
  }

  /** The error reported is the one thrown by the first row that fails. */
  lemma {:induction false} SeededAllStopsAtFirstFailure(recs: seq<ActionRecord>, i: nat)
    requires i < |recs|
    requires forall j :: 0 <= j < i ==> Seeded(recs[j]).Success?
    requires Seeded(recs[i]).Failure?
    ensures SeededAll(recs) == Failure(Seeded(recs[i]).error)
  {
    if i > 0 {
      var rest := recs[1..];
      assert Seeded(recs[0]).Success?;
      assert forall j :: 0 <= j < i - 1 ==> rest[j] == recs[j + 1];
      assert rest[i - 1] == recs[i];
      SeededAllStopsAtFirstFailure(rest, i - 1);
    }
  }

  /** Once a prefix of the rows fails to build, so do all the rows, with the same error. */
  lemma {:induction false} SeededAllFailureSticky(recs: seq<ActionRecord>, k: nat)
    requires k <= |recs|
    requires SeededAll(recs[..k]).Failure?
    ensures SeededAll(recs) == SeededAll(recs[..k])
  {
    assert k > 0;
    assert recs[..k][0] == recs[0];
    if Seeded(recs[0]).Success? {
      assert recs[..k][1..] == recs[1..][..k - 1];
      SeededAllFailureSticky(recs[1..], k - 1);
    }
  }

  /** Enrichment keeps the action id, the status and the logs of the root. */
  lemma DeliveryKeepsIdentity(s: HistoryState, ds: seq<HistoryState>)
    ensures Enrich(s, ds).actionId == s.actionId
    ensures Enrich(s, ds).httpStatus == s.httpStatus
    ensures Enrich(s, ds).logs == s.logs
  {
    FoldKeepsIdentity(s, OfKind(ds, Process));
    FoldKeepsIdentity(Fold(s, OfKind(ds, Process)), OfKind(ds, Send));
    FoldKeepsIdentity(Fold(Fold(s, OfKind(ds, Process)), OfKind(ds, Send)), OfKind(ds, Download));
  }

  lemma {:induction false} FoldKeepsIdentity(s: HistoryState, ds: seq<HistoryState>)
    ensures Fold(s, ds).actionId == s.actionId
    ensures Fold(s, ds).httpStatus == s.httpStatus
    ensures Fold(s, ds).logs == s.logs
  {
    if ds != [] {
      FoldKeepsIdentity(s, ds[..|ds| - 1]);
    }
  }

  /** The blank organisation names the facade's users rely on being refused. */
  lemma BlankOrganizations()
    ensures IsBlank("")
    ensures IsBlank("  \t\n")
    ensures !IsBlank(" org ")
  {
    assert !IsWhitespace(" org "[1]);
  }
}
