/**
 * The officer's view of one request: it fetches the request named by the route
 * parameter, falls back to a sample request, and offers approve and reject
 * decisions while the request is pending; a rejection needs notes.
 */
module RequestDetail {
  import opened Wrappers
  import opened Js
  import opened Domain
  import opened Api
  import opened RequestList

  datatype Document = Document(name: string, size: string)

  /** The request as this page shows it; `id` is whatever the backend or the route gave. */
  datatype RequestRecord = RequestRecord(
    id: Value,
    serviceName: Option<string>,
    citizenName: Option<string>,
    citizenEmail: Option<string>,
    description: Option<string>,
    status: string,
    documents: seq<Document>)

  /** `response.data.request`, which may be missing. */
  datatype DetailBody = DetailBody(request: Option<RequestRecord>)

  /** The sample request shown when the fetch fails; it carries the route's id. */
  function MockRequest(id: string): RequestRecord {
    RequestRecord(
      Str(id), Some("Business License"), Some("John Smith"), Some("john.smith@example.com"),
      Some("New business registration for tech startup"), "pending",
      [Document("business_plan.pdf", "2.5 MB"), Document("id_card.pdf", "1.2 MB")])
  }

  const DashboardPath := "/officer/dashboard"
  const ApprovedText := "Request approved successfully!"
  const ApproveFailed := "Failed to approve request"
  const RejectedText := "Request rejected"
  const RejectFailed := "Failed to reject request"
  const ReasonMissing := "Please provide rejection reason"

  /**
   * The status update a decision sends: approval always (even with empty
   * notes), rejection only with non-empty notes; the notes go along verbatim.
   */
  function StatusUpdate(id: string, approve: bool, notes: string): (call: Option<ApiCall>)
    ensures call.Some? <==> approve || notes != ""
    ensures call.Some? ==> call.value.UpdateRequestStatus? && call.value.requestId == id && call.value.officerNotes == notes
    ensures call.Some? ==> call.value.status == (if approve then "approved" else "rejected")
  {
    if !approve && notes == "" then None
    else Some(UpdateRequestStatus(id, if approve then "approved" else "rejected", notes))
  }

  /** The effects of a decision with the update's outcome: success toasts and returns to the dashboard. */
  function DecisionEffects(id: string, approve: bool, notes: string, succeeded: bool): (effects: seq<Effect>)
    ensures StatusUpdate(id, approve, notes).None? ==> effects == [Toast(ToastError, ReasonMissing)]
    ensures StatusUpdate(id, approve, notes).Some? ==> |effects| >= 2 && effects[0] == Call(StatusUpdate(id, approve, notes).value)
    ensures Navigate(DashboardPath) in effects <==> StatusUpdate(id, approve, notes).Some? && succeeded
  {
    var update := StatusUpdate(id, approve, notes);
    if update.None? then [Toast(ToastError, ReasonMissing)]
    else if succeeded then [Call(update.value), Toast(ToastSuccess, if approve then ApprovedText else RejectedText), Navigate(DashboardPath)]
    else [Call(update.value), Toast(ToastError, if approve then ApproveFailed else RejectFailed)]
  }

  /**
   * This page's `getStatusBadge`. Its map has no "completed" entry, so it
   * agrees with the list pages' badge except that "completed" falls back to
   * the pending badge.
   */
  function DetailBadge(status: string): (badge: string)
    ensures status == "completed" ==> badge == "badge-pending" != StatusBadge(status)
    ensures status != "completed" ==> badge == StatusBadge(status)
  {
    var badges := map[
      "pending" := "badge-pending",
      "processing" := "badge-processing",
      "approved" := "badge-approved",
      "rejected" := "badge-rejected"];
    if status in badges then badges[status] else "badge-pending"
  }

  class RequestDetailPage {
    /** The `:id` route parameter. */
    const id: string
    var request: Option<RequestRecord>
    var loading: bool
    var actionLoading: bool
    var notes: string
    var effects: seq<Effect>

    /** The review card with the notes box and both buttons is rendered. */
    predicate ReviewShown()
      reads this
    {
      !loading && request.Some? && request.value.status == "pending"
    }

    constructor(id: string)
      ensures this.id == id
      ensures request.None? && loading && !actionLoading && notes == "" && effects == []
    {
      this.id := id;
      request := None;
      loading := true;
      actionLoading := false;
      notes := "";
      effects := [];
    }

    /** `fetchRequestDetail` with the backend's answer `o`. */
    method FetchRequestDetail(o: Outcome<DetailBody>)
      modifies this
      ensures request == (if o.Response? then o.body.request else Some(MockRequest(id)))
      ensures !loading
      ensures effects == old(effects) + [Call(GetRequest(id))]
      ensures actionLoading == old(actionLoading) && notes == old(notes)
    {
      loading := true;
      effects := effects + [Call(GetRequest(id))];
      request := if o.Response? then o.body.request else Some(MockRequest(id));
      loading := false;
    }

    /** Typing in the notes box. */
    method SetNotes(text: string)
      modifies this
      ensures notes == text
      ensures request == old(request) && loading == old(loading) && actionLoading == old(actionLoading) && effects == old(effects)
    {
      notes := text;
    }

    /** `handleApprove` with the update's outcome `o`. */
    method HandleApprove(o: Outcome<Obj>)
      modifies this
      ensures effects == old(effects) + DecisionEffects(id, true, notes, o.Response?)
      ensures !actionLoading
      ensures request == old(request) && loading == old(loading) && notes == old(notes)
    {
      actionLoading := true;
      effects := effects + [Call(UpdateRequestStatus(id, "approved", notes))];
      if o.Response? {
        effects := effects + [Toast(ToastSuccess, ApprovedText), Navigate(DashboardPath)];
      } else {
        effects := effects + [Toast(ToastError, ApproveFailed)];
      }
      actionLoading := false;
    }

    /** `handleReject` with the update's outcome `o`; without notes it only complains. */
    method HandleReject(o: Outcome<Obj>)
      modifies this
      ensures effects == old(effects) + DecisionEffects(id, false, notes, o.Response?)
      ensures notes == "" ==> actionLoading == old(actionLoading)
      ensures notes != "" ==> !actionLoading
      ensures request == old(request) && loading == old(loading) && notes == old(notes)
    {
      if notes == "" {
        effects := effects + [Toast(ToastError, ReasonMissing)];
        return;
      }
      actionLoading := true;
      effects := effects + [Call(UpdateRequestStatus(id, "rejected", notes))];
      if o.Response? {
        effects := effects + [Toast(ToastSuccess, RejectedText), Navigate(DashboardPath)];
      } else {
        effects := effects + [Toast(ToastError, RejectFailed)];
      }
      actionLoading := false;
    }
  }

  /** A failed fetch opens the sample request, which is pending, so the review card shows. */
  method FailedFetchOffersReview(id: string, e: AxiosError) returns (page: RequestDetailPage)
    ensures page.ReviewShown()
    ensures page.request == Some(MockRequest(id))
  {
    page := new RequestDetailPage(id);
    page.FetchRequestDetail(Failure(e));
  }
}
