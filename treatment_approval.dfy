/** The administrator's treatment-approval page: the payload transform with its
    defaults, the search and status filter, single and bulk status updates,
    and the status counts. */
module TreatmentApproval {
  import opened Common
  import opened Records

  const LoadError: string := "Failed to load treatments. Please try again."
  const All: string := "all"
  const UnknownPatient: string := "Unknown Patient"
  const NotAvailable: string := "N/A"
  const SystemUser: string := "System"

  /** A treatment as the list endpoint returns it; `None` stands for a missing or null field. */
  datatype ApiTreatment = ApiTreatment(
    id: string,
    patientName: Option<string>,
    patientId: Option<string>,
    code: string,
    description: string,
    codeSystem: string,
    status: string,
    validationDate: Option<string>,
    createdAt: Option<string>,
    validatedBy: Option<string>)

  /** A row of the page. `submittedDate` may still be missing when both dates are. */
  datatype Treatment = Treatment(
    id: string,
    patientName: string,
    patientId: string,
    code: string,
    description: string,
    codeSystem: string,
    status: string,
    submittedDate: Option<string>,
    submittedBy: string)

  /** The transform: a falsy patient name, patient id or validator takes its default,
      the submission date is the validation date if truthy, else the creation date. */
  function Transform(t: ApiTreatment): (r: Treatment)
    ensures r.id == t.id && r.code == t.code && r.description == t.description
    ensures r.codeSystem == t.codeSystem && r.status == t.status
    ensures Truthy(t.patientName) ==> Some(r.patientName) == t.patientName
    ensures !Truthy(t.patientName) ==> r.patientName == UnknownPatient
    ensures Truthy(t.patientId) ==> Some(r.patientId) == t.patientId
    ensures !Truthy(t.patientId) ==> r.patientId == NotAvailable
    ensures Truthy(t.validatedBy) ==> Some(r.submittedBy) == t.validatedBy
    ensures !Truthy(t.validatedBy) ==> r.submittedBy == SystemUser
    ensures r.submittedDate == if Truthy(t.validationDate) then t.validationDate else t.createdAt
  {
    Treatment(t.id, OrElse(t.patientName, UnknownPatient), OrElse(t.patientId, NotAvailable), t.code,
              t.description, t.codeSystem, t.status,
              if Truthy(t.validationDate) then t.validationDate else t.createdAt,
              OrElse(t.validatedBy, SystemUser))
  }

  /** After the transform no row shows an empty patient name, patient id or submitter. */
  lemma TransformNeverBlank(t: ApiTreatment)
    ensures Transform(t).patientName != "" && Transform(t).patientId != "" && Transform(t).submittedBy != ""
  {
  }

  function TransformAll(ts: seq<ApiTreatment>): (rs: seq<Treatment>)
    ensures |rs| == |ts|
    ensures forall k :: 0 <= k < |ts| ==> rs[k] == Transform(ts[k])
  {
    seq(|ts|, k requires 0 <= k < |ts| => Transform(ts[k]))
  }

  // ---------------------------------------------------------------------------
  // The filter effect

  predicate MatchesSearch(t: Treatment, term: string)
  {
    Includes(t.patientName, term) || Includes(t.patientId, term) || Includes(t.code, term)
  }

  predicate MatchesStatus(t: Treatment, status: string)
  {
    status == All || t.status == status
  }

  function Keep(term: string, status: string): Treatment -> bool
  {
    (t: Treatment) => MatchesSearch(t, term) && MatchesStatus(t, status)
  }

  function FilteredTreatments(ts: seq<Treatment>, term: string, status: string): (r: seq<Treatment>)
    ensures |r| <= |ts|
    ensures forall t :: t in r ==> t in ts && MatchesSearch(t, term) && (status == All || t.status == status)
  {
    Filter(ts, Keep(term, status))
  }

  /** A treatment is shown iff the term occurs in its patient name, patient id or
      code and the status selector is `'all'` or its status; order is kept. */
  lemma FilteredTreatmentsSpec(ts: seq<Treatment>, term: string, status: string)
    ensures forall t :: t in FilteredTreatments(ts, term, status) <==>
              t in ts && MatchesSearch(t, term) && (status == All || t.status == status)
    ensures IsSubsequence(FilteredTreatments(ts, term, status), ts)
  {
    FilterMembers(ts, Keep(term, status));
    FilterIsSubsequence(ts, Keep(term, status));
  }

  lemma NeutralFilters(ts: seq<Treatment>)
    ensures FilteredTreatments(ts, "", All) == ts
  {
    forall t | t in ts ensures Keep("", All)(t) {
      EmptyTermIncluded(t.patientName);
    }
    FilterKeepsAll(ts, Keep("", All));
  }

  // ---------------------------------------------------------------------------
  // Counts

  function TreatmentHasStatus(status: string): Treatment -> bool
  {
    (t: Treatment) => t.status == status
  }

  function StatusCount(ts: seq<Treatment>, status: string): nat
  {
    |Filter(ts, TreatmentHasStatus(status))|
  }

  /** With every status one of the three, the three counts add up to the number of treatments. */
  lemma {:induction false} CountsPartition(ts: seq<Treatment>)
    requires forall k :: 0 <= k < |ts| ==> IsValidationStatus(ts[k].status)
    ensures StatusCount(ts, Pending) + StatusCount(ts, Approved) + StatusCount(ts, Rejected) == |ts|
  {
    if ts != [] {
      assert forall k :: 0 <= k < |ts[1..]| ==> ts[1..][k] == ts[k + 1];
      CountsPartition(ts[1..]);
    }
  }

  // ---------------------------------------------------------------------------
  // Status updates on the local list

  /** `prev.map(t => t.id === id ? { ...t, status } : t)`. */
  function SetStatus(ts: seq<Treatment>, id: string, status: string): (r: seq<Treatment>)
    ensures |r| == |ts|
    ensures forall k :: 0 <= k < |ts| ==> r[k].status == (if ts[k].id == id then status else ts[k].status)
    ensures forall k :: 0 <= k < |ts| ==> r[k].(status := ts[k].status) == ts[k]
  {
    seq(|ts|, k requires 0 <= k < |ts| => if ts[k].id == id then ts[k].(status := status) else ts[k])
  }

  /** `prev.map(t => ids.includes(t.id) ? { ...t, status: 'approved' } : t)`. */
  function ApproveIds(ts: seq<Treatment>, ids: seq<string>): (r: seq<Treatment>)
    ensures |r| == |ts|
    ensures forall k :: 0 <= k < |ts| ==> r[k].status == (if ts[k].id in ids then Approved else ts[k].status)
    ensures forall k :: 0 <= k < |ts| ==> r[k].(status := ts[k].status) == ts[k]
  {
    seq(|ts|, k requires 0 <= k < |ts| => if ts[k].id in ids then ts[k].(status := Approved) else ts[k])
  }

  /** Approving ids one at a time is the same as approving them all at once. */
  lemma {:induction false} ApproveIdsOneByOne(ts: seq<Treatment>, ids: seq<string>)
    ensures ids != [] ==> ApproveIds(ts, ids) == SetStatus(ApproveIds(ts, ids[..|ids| - 1]), ids[|ids| - 1], Approved)
  {
    if ids != [] {
      var init := ids[..|ids| - 1];
      assert ids == init + [ids[|ids| - 1]];
      var lhs, rhs := ApproveIds(ts, ids), SetStatus(ApproveIds(ts, init), ids[|ids| - 1], Approved);
      assert |lhs| == |rhs|;
      forall k | 0 <= k < |ts| ensures lhs[k] == rhs[k] {
        assert ts[k].id in ids <==> ts[k].id in init || ts[k].id == ids[|ids| - 1];
      }
    }
  }

  function TreatmentIds(ts: seq<Treatment>): (ids: seq<string>)
    ensures |ids| == |ts|
    ensures forall k :: 0 <= k < |ts| ==> ids[k] == ts[k].id
  {
    seq(|ts|, k requires 0 <= k < |ts| => ts[k].id)
  }

  /** `treatments.filter(t => t.status === 'pending').map(t => t.id)`. */
  function PendingIds(ts: seq<Treatment>): (ids: seq<string>)
    ensures |ids| == StatusCount(ts, Pending)
  {
    TreatmentIds(Filter(ts, TreatmentHasStatus(Pending)))
  }

  /** The pending ids are the ids of the pending treatments, one per pending treatment. */
  lemma PendingIdsSpec(ts: seq<Treatment>)
    ensures |PendingIds(ts)| == StatusCount(ts, Pending)
    ensures forall x :: x in PendingIds(ts) <==> exists t :: t in ts && t.status == Pending && t.id == x
  {
    var pending := Filter(ts, TreatmentHasStatus(Pending));
    FilterMembers(ts, TreatmentHasStatus(Pending));
    forall x ensures x in PendingIds(ts) <==> exists t :: t in ts && t.status == Pending && t.id == x {
      if x in PendingIds(ts) {
        var k :| 0 <= k < |pending| && PendingIds(ts)[k] == x;
        assert pending[k] in pending;
      }
      if exists t :: t in ts && t.status == Pending && t.id == x {
        var t :| t in ts && t.status == Pending && t.id == x;
        var k :| 0 <= k < |pending| && pending[k] == t;
        assert PendingIds(ts)[k] == x;
      }
    }
  }

  /** Approving every pending id leaves no treatment pending. */
  lemma ApprovePendingClearsPending(ts: seq<Treatment>)
    ensures StatusCount(ApproveIds(ts, PendingIds(ts)), Pending) == 0
  {
    var r := ApproveIds(ts, PendingIds(ts));
    PendingIdsSpec(ts);
    FilterMembers(r, TreatmentHasStatus(Pending));
    forall x | x in r ensures x.status != Pending {
      var k :| 0 <= k < |r| && r[k] == x;
      assert ts[k] in ts;
    }
    if Filter(r, TreatmentHasStatus(Pending)) != [] {
      assert Filter(r, TreatmentHasStatus(Pending))[0] in Filter(r, TreatmentHasStatus(Pending));
    }
  }

  /** The row actions: approve and reject exist only while the treatment is pending. */
  function Actions(t: Treatment): (actions: seq<string>)
    ensures actions != [] <==> t.status == Pending
    ensures forall a :: a in actions ==> a == Approved || a == Rejected
  {
    if t.status == Pending then [Approved, Rejected] else []
  }

  // ---------------------------------------------------------------------------
  // The bulk-approval outcome

  /** What `handleBulkApproval` reports: every call succeeded, some did not, or one threw. */
  datatype BulkResult = AllApproved(count: nat) | PartlyApproved(successCount: nat, requested: nat) | BulkError

  predicate AnyThrew(outcomes: seq<ApiResult<bool>>)
  {
    exists k :: 0 <= k < |outcomes| && outcomes[k].Threw?
  }

  function Succeeded(): ApiResult<bool> -> bool
  {
    (r: ApiResult<bool>) => r.Resolved? && r.value
  }

  /** `results.filter(r => r).length` over the resolved results. */
  function SuccessCount(outcomes: seq<ApiResult<bool>>): (n: nat)
    ensures n <= |outcomes|
  {
    |Filter(outcomes, Succeeded())|
  }

  /** Every call succeeded iff the success count reaches the number of calls. */
  lemma {:induction false} SuccessCountFull(outcomes: seq<ApiResult<bool>>)
    ensures SuccessCount(outcomes) == |outcomes| <==> forall k :: 0 <= k < |outcomes| ==> Succeeded()(outcomes[k])
  {
    if outcomes != [] {
      SuccessCountFull(outcomes[1..]);
      assert forall k :: 1 <= k < |outcomes| ==> outcomes[k] == outcomes[1..][k - 1];
      if !Succeeded()(outcomes[0]) {
        assert SuccessCount(outcomes) == SuccessCount(outcomes[1..]);
      }
    }
  }

  // ---------------------------------------------------------------------------
  // The page state

  class TreatmentApprovalPage {
    var treatments: seq<Treatment>
    var filteredTreatments: seq<Treatment>
    var searchTerm: string
    var statusFilter: string
    var isLoading: bool
    var error: Option<string>

    constructor ()
      ensures treatments == [] && filteredTreatments == [] && searchTerm == "" && statusFilter == All
      ensures isLoading && error == None
    {
      treatments := [];
      filteredTreatments := [];
      searchTerm := "";
      statusFilter := All;
      isLoading := true;
      error := None;
    }

    /** The filter effect, re-run whenever the treatments, the term or the selector change. */
    method ApplyFilters()
      modifies this
      ensures filteredTreatments == FilteredTreatments(treatments, searchTerm, statusFilter)
      ensures treatments == old(treatments) && searchTerm == old(searchTerm) && statusFilter == old(statusFilter)
      ensures isLoading == old(isLoading) && error == old(error)
    {
      filteredTreatments := Filter(treatments, Keep(searchTerm, statusFilter));
    }

    /** The mount effect: the transformed list on success, the error on failure; loading ends. */
    method FetchTreatments(outcome: ApiResult<seq<ApiTreatment>>)
      modifies this
      ensures outcome.Resolved? ==> treatments == TransformAll(outcome.value) && error == None &&
                                    filteredTreatments == FilteredTreatments(treatments, searchTerm, statusFilter)
      ensures outcome.Threw? ==> treatments == old(treatments) && filteredTreatments == old(filteredTreatments) &&
                                 error == Some(LoadError)
      ensures !isLoading && searchTerm == old(searchTerm) && statusFilter == old(statusFilter)
    {
      isLoading := true;
      error := None;
      if outcome.Resolved? {
        var transformed := TransformAll(outcome.value);
        treatments := transformed;
        filteredTreatments := transformed;
        ApplyFilters();
      } else {
        error := Some(LoadError);
      }
      isLoading := false;
    }

    method SetFilters(term: string, status: string)
      modifies this
      ensures searchTerm == term && statusFilter == status
      ensures filteredTreatments == FilteredTreatments(treatments, term, status)
      ensures treatments == old(treatments) && isLoading == old(isLoading) && error == old(error)
    {
      searchTerm := term;
      statusFilter := status;
      ApplyFilters();
    }

    /** `handleStatusUpdate`: after a successful call only the treatments with that id
        take the new status; after a failed call nothing changes. */
    method HandleStatusUpdate(id: string, newStatus: string, outcome: ApiResult<bool>)
      requires newStatus == Approved || newStatus == Rejected
      modifies this
      ensures outcome.Resolved? ==> treatments == SetStatus(old(treatments), id, newStatus) &&
                                    filteredTreatments == FilteredTreatments(treatments, searchTerm, statusFilter)
      ensures outcome.Threw? ==> treatments == old(treatments) && filteredTreatments == old(filteredTreatments)
      ensures searchTerm == old(searchTerm) && statusFilter == old(statusFilter)
      ensures isLoading == old(isLoading) && error == old(error)
    {
      if outcome.Resolved? {
        treatments := SetStatus(treatments, id, newStatus);
        ApplyFilters();
      }
    }

    /** `handleBulkApproval`: one outcome per id, as `Promise.all` delivers them. The list
        changes only when no call threw and every result is truthy; then exactly the
        listed ids become approved. */
    method HandleBulkApproval(ids: seq<string>, outcomes: seq<ApiResult<bool>>) returns (result: BulkResult)
      requires |outcomes| == |ids|
      modifies this
      ensures AnyThrew(outcomes) ==> result == BulkError
      ensures !AnyThrew(outcomes) && SuccessCount(outcomes) == |ids| ==>
                result == AllApproved(|ids|) && treatments == ApproveIds(old(treatments), ids) &&
                filteredTreatments == FilteredTreatments(treatments, searchTerm, statusFilter)
      ensures !AnyThrew(outcomes) && SuccessCount(outcomes) < |ids| ==> result == PartlyApproved(SuccessCount(outcomes), |ids|)
      ensures !result.AllApproved? ==> treatments == old(treatments) && filteredTreatments == old(filteredTreatments)
      ensures searchTerm == old(searchTerm) && statusFilter == old(statusFilter)
      ensures isLoading == old(isLoading) && error == old(error)
    {
      if AnyThrew(outcomes) {
        result := BulkError;
      } else {
        var successCount := SuccessCount(outcomes);
        if successCount == |ids| {
          treatments := ApproveIds(treatments, ids);
          ApplyFilters();
          result := AllApproved(successCount);
        } else {
          result := PartlyApproved(successCount, |ids|);
        }
      }
    }

    /** "Approve All Pending": bulk-approves exactly the pending ids, and does nothing
        (no request, no result) when there are none. */
    method ApproveAllPending(outcomes: seq<ApiResult<bool>>) returns (result: Option<BulkResult>)
      requires |outcomes| == StatusCount(treatments, Pending)
      modifies this
      ensures result.Some? <==> StatusCount(old(treatments), Pending) > 0
      ensures result.Some? && AnyThrew(outcomes) ==> result.value == BulkError
      ensures result.Some? && !AnyThrew(outcomes) && SuccessCount(outcomes) == |outcomes| ==>
                result.value == AllApproved(|outcomes|) &&
                treatments == ApproveIds(old(treatments), PendingIds(old(treatments))) &&
                StatusCount(treatments, Pending) == 0 &&
                filteredTreatments == FilteredTreatments(treatments, searchTerm, statusFilter)
      ensures result.Some? && !AnyThrew(outcomes) && SuccessCount(outcomes) < |outcomes| ==>
                result.value == PartlyApproved(SuccessCount(outcomes), |outcomes|)
      ensures !(result.Some? && result.value.AllApproved?) ==>
                treatments == old(treatments) && filteredTreatments == old(filteredTreatments)
      ensures searchTerm == old(searchTerm) && statusFilter == old(statusFilter)
      ensures isLoading == old(isLoading) && error == old(error)
    {
      var pendingIds := PendingIds(treatments);
      PendingIdsSpec(treatments);
      ApprovePendingClearsPending(treatments);
      if |pendingIds| > 0 {
        var r := HandleBulkApproval(pendingIds, outcomes);
        result := Some(r);
      } else {
        result := None;
      }
    }
  }
}
