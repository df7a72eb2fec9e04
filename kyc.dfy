/**
 * The KYC review page: the identity requests, latest first, filtered by status and by
 * username or email, and the approve/reject action that patches the request and the
 * user before the list shows the new status.
 */
module Kyc {
  import opened Wrappers
  import opened Text
  import opened Collections
  import opened Effects

  // ---------------------------------------------------------------- data

  /**
   * A KYC request; `username` and `email` are None when missing, `submissionTime` is
   * None when `new Date(...)` is an invalid date.
   */
  datatype KycRequest = KycRequest(id: string, username: Option<string>, email: Option<string>,
                                   status: string, submissionTime: Option<int>)

  /** The confirmation dialog; `kind` is "confirm" or "success". */
  datatype Confirm = Confirm(isOpen: bool, request: Option<KycRequest>, newStatus: string, kind: string)

  const Closed := Confirm(false, None, "", "confirm")

  /** A PATCH the page sends: the request's status, then the user's verification flag. */
  datatype Patch = KycStatus(username: Option<string>, status: string) | UserVerify(username: Option<string>, isVerify: string)

  /** What the row's last cell offers. */
  datatype RowAction = ApproveOrReject | Completed

  // ---------------------------------------------------------------- load and filter

  /** `new Date(b.submissionTime) - new Date(a.submissionTime)`, an invalid date a tie. */
  predicate SubmittedLater(a: KycRequest, b: KycRequest) {
    a.submissionTime.None? || b.submissionTime.None? || a.submissionTime.value >= b.submissionTime.value
  }

  function Newest(data: seq<KycRequest>): seq<KycRequest> {
    SortWith(data, SubmittedLater)
  }

  /** The loaded list is the fetched one, latest submission first wherever neighbours have dates. */
  lemma NewestFirst(data: seq<KycRequest>)
    ensures multiset(Newest(data)) == multiset(data)
    ensures forall i :: 0 <= i < |Newest(data)| - 1 ==>
      (Newest(data)[i].submissionTime.Some? && Newest(data)[i + 1].submissionTime.Some? ==>
        Newest(data)[i].submissionTime.value >= Newest(data)[i + 1].submissionTime.value)
  {
    assert Total(SubmittedLater);
    SortWithSorted(data, SubmittedLater);
  }

  /** `field?.toLowerCase().includes(term.toLowerCase())`: a missing field matches nothing. */
  predicate FieldHas(field: Option<string>, term: string) {
    field.Some? && Contains(Lower(field.value), Lower(term))
  }

  function ByStatus(status: string): KycRequest -> bool {
    (r: KycRequest) => r.status == status
  }

  function ByTerm(term: string): KycRequest -> bool {
    (r: KycRequest) => FieldHas(r.username, term) || FieldHas(r.email, term)
  }

  /** The status equals the filter unless it is "All", and the username or email holds the term. */
  predicate Matches(r: KycRequest, statusFilter: string, searchTerm: string) {
    (statusFilter == "All" || r.status == statusFilter)
    && (searchTerm == "" || FieldHas(r.username, searchTerm) || FieldHas(r.email, searchTerm))
  }

  function Matcher(statusFilter: string, searchTerm: string): KycRequest -> bool {
    r => Matches(r, statusFilter, searchTerm)
  }

  /** Only the status stage, for the step in between. */
  function StatusStage(statusFilter: string): KycRequest -> bool {
    (r: KycRequest) => statusFilter == "All" || r.status == statusFilter
  }

  /** The status step of the filter effect. */
  lemma StatusStep(data: seq<KycRequest>, statusFilter: string)
    ensures (if statusFilter != "All" then Filter(data, ByStatus(statusFilter)) else data)
         == Filter(data, StatusStage(statusFilter))
  {
    if statusFilter != "All" {
      FilterCongruent(data, ByStatus(statusFilter), StatusStage(statusFilter));
    } else {
      FilterAllPass(data, StatusStage(statusFilter));
    }
  }

  /** The search step of the filter effect. */
  lemma TermStep(data: seq<KycRequest>, statusFilter: string, searchTerm: string, result: seq<KycRequest>)
    requires result == Filter(data, StatusStage(statusFilter))
    ensures (if searchTerm != "" then Filter(result, ByTerm(searchTerm)) else result)
         == Filter(data, Matcher(statusFilter, searchTerm))
  {
    if searchTerm != "" {
      FilterRefine(data, StatusStage(statusFilter), ByTerm(searchTerm), Matcher(statusFilter, searchTerm));
    } else {
      FilterCongruent(data, StatusStage(statusFilter), Matcher(statusFilter, searchTerm));
    }
  }

  /** A request is shown exactly when it passes both filters. */
  lemma FilterFinds(data: seq<KycRequest>, statusFilter: string, searchTerm: string)
    ensures forall r :: r in Filter(data, Matcher(statusFilter, searchTerm)) <==>
      r in data && Matches(r, statusFilter, searchTerm)
    ensures statusFilter != "All" ==>
      forall r :: r in Filter(data, Matcher(statusFilter, searchTerm)) ==> r.status == statusFilter
  {
  }

  // ---------------------------------------------------------------- decisions

  /** The flag sent for the user. */
  function VerifyFlag(newStatus: string): (r: string)
    ensures r == "Verified" <==> newStatus == "Approved"
    ensures r == "Verified" || r == "Unverified"
  {
    if newStatus == "Approved" then "Verified" else "Unverified"
  }

  /** Approve and Reject are offered only on a pending request. */
  function Actions(r: KycRequest): (a: RowAction)
    ensures a == ApproveOrReject <==> r.status == "Pending"
  {
    if r.status == "Pending" then ApproveOrReject else Completed
  }

  /** The list with the request of that id given the new status. */
  function WithStatus(data: seq<KycRequest>, id: string, status: string): (r: seq<KycRequest>)
    ensures |r| == |data|
    ensures forall i :: 0 <= i < |data| ==> r[i] == if data[i].id == id then data[i].(status := status) else data[i]
  {
    Map(data, (q: KycRequest) => if q.id == id then q.(status := status) else q)
  }

  /** Only requests of that id change, and only in their status. */
  lemma WithStatusOnlyThatId(data: seq<KycRequest>, id: string, status: string)
    ensures forall i :: 0 <= i < |data| && data[i].id != id ==> WithStatus(data, id, status)[i] == data[i]
    ensures forall i :: 0 <= i < |data| && data[i].id == id ==>
      WithStatus(data, id, status)[i].status == status
      && WithStatus(data, id, status)[i].(status := data[i].status) == data[i]
  {
  }

  /** Once decided, a request offers no more actions. */
  lemma DecidedIsCompleted(data: seq<KycRequest>, id: string, status: string)
    requires status == "Approved" || status == "Rejected"
    ensures forall i :: 0 <= i < |data| && data[i].id == id ==> Actions(WithStatus(data, id, status)[i]) == Completed
  {
  }

  // ---------------------------------------------------------------- the page

  class KycPage {
    var kycRequests: seq<KycRequest>
    var filteredRequests: seq<KycRequest>
    var loading: bool
    var actionLoading: Option<string>
    var statusFilter: string
    var searchTerm: string
    var confirm: Confirm

    constructor()
      ensures kycRequests == [] && filteredRequests == [] && loading && actionLoading.None?
      ensures statusFilter == "All" && searchTerm == "" && confirm == Closed
    {
      kycRequests := [];
      filteredRequests := [];
      loading := true;
      actionLoading := None;
      statusFilter := "All";
      searchTerm := "";
      confirm := Closed;
    }

    /** The filter effect: the status step, then the search step. */
    method ApplyFilters()
      modifies this`filteredRequests
      ensures filteredRequests == Filter(kycRequests, Matcher(statusFilter, searchTerm))
    {
      var status := statusFilter;
      var term := searchTerm;
      var result := kycRequests;
      if status != "All" {
        result := Filter(result, ByStatus(status));
      }
      StatusStep(kycRequests, status);
      var afterStatus := result;
      if term != "" {
        result := Filter(result, ByTerm(term));
      }
      TermStep(kycRequests, status, term, afterStatus);
      filteredRequests := result;
    }

    /**
     * `fetchKycData`: an array is stored latest first (the effect then filters it);
     * anything else, or a failure, stores nothing. The spinner stops either way.
     */
    method Load(fetched: Option<seq<KycRequest>>)
      modifies this`kycRequests, this`filteredRequests, this`loading
      ensures fetched.Some? ==> kycRequests == Newest(fetched.value)
      ensures fetched.None? ==> kycRequests == old(kycRequests)
      ensures filteredRequests == Filter(kycRequests, Matcher(statusFilter, searchTerm))
      ensures !loading
    {
      if fetched.Some? {
        kycRequests := Newest(fetched.value);
      }
      ApplyFilters();
      loading := false;
    }

    /** Choosing a status or typing a search term; the effect follows. */
    method EditFilters(status: string, term: string)
      modifies this`statusFilter, this`searchTerm, this`filteredRequests
      ensures statusFilter == status && searchTerm == term
      ensures filteredRequests == Filter(kycRequests, Matcher(status, term))
    {
      statusFilter := status;
      searchTerm := term;
      ApplyFilters();
    }

    /** Approve or Reject on a row opens the confirmation. */
    method OpenConfirm(request: KycRequest, newStatus: string)
      modifies this`confirm
      ensures confirm == Confirm(true, Some(request), newStatus, "confirm")
    {
      confirm := Confirm(true, Some(request), newStatus, "confirm");
    }

    /** Cancel closes the confirmation and sends nothing. */
    method CancelConfirm()
      modifies this`confirm
      ensures confirm == old(confirm).(isOpen := false)
    {
      confirm := confirm.(isOpen := false);
    }

    /**
     * `handleStatusUpdate`. With no request it does nothing. Otherwise the dialog closes,
     * the request's status is sent and then the user's flag (unless the first call
     * failed); only when both answers are ok does the list take the new status and the
     * success dialog open. The row spinner is cleared at the end.
     */
    method StatusUpdate(kycReply: Reply, userReply: Reply) returns (sent: seq<Patch>, alert: Option<string>)
      modifies this`kycRequests, this`filteredRequests, this`actionLoading, this`confirm
      ensures old(confirm).request.None? ==>
        sent == [] && alert.None? && kycRequests == old(kycRequests) && filteredRequests == old(filteredRequests)
        && actionLoading == old(actionLoading) && confirm == old(confirm)
      ensures old(confirm).request.Some? ==>
        var req := old(confirm).request.value;
        var status := old(confirm).newStatus;
        var ok := kycReply == Answered(true) && userReply == Answered(true);
        sent == [KycStatus(req.username, status)] + (if kycReply.Raised? then [] else [UserVerify(req.username, VerifyFlag(status))])
        && kycRequests == (if ok then WithStatus(old(kycRequests), req.id, status) else old(kycRequests))
        && filteredRequests == (if ok then Filter(kycRequests, Matcher(statusFilter, searchTerm)) else old(filteredRequests))
        && confirm == (if ok then Confirm(true, None, status, "success") else old(confirm).(isOpen := false))
        && alert == (if ok then None
                     else if kycReply.Raised? || userReply.Raised? then Some("Network error.")
                     else Some("Failed to update status."))
        && actionLoading.None?
    {
      sent := [];
      alert := None;
      if confirm.request.None? {
        return;
      }
      var req := confirm.request.value;
      var status := confirm.newStatus;
      actionLoading := Some(req.id);
      confirm := confirm.(isOpen := false);
      sent := [KycStatus(req.username, status)];
      if kycReply.Raised? {
        alert := Some("Network error.");
      } else {
        sent := sent + [UserVerify(req.username, VerifyFlag(status))];
        if userReply.Raised? {
          alert := Some("Network error.");
        } else if kycReply.ok && userReply.ok {
          kycRequests := WithStatus(kycRequests, req.id, status);
          confirm := Confirm(true, None, status, "success");
          ApplyFilters();
        } else {
          alert := Some("Failed to update status.");
        }
      }
      actionLoading := None;
    }
  }
}
