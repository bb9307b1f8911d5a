/**
 * The citizen's request tracking page: it fetches the citizen's requests,
 * falls back to three sample requests when the fetch fails, filters them by
 * status and by a search over the service name and the description, and shows
 * each request's progress through the four review steps.
 */
module RequestTracking {
  import opened Wrappers
  import opened Domain
  import opened Seqs
  import opened Api
  import opened RequestList

  const FetchFailed := "Failed to fetch requests, showing sample data."

  /** The sample requests shown when the fetch fails (creation dates are not modelled). */
  const MockRequests := [
    ServiceRequest(1, Some("Business License"), None, Some("New business registration"), "pending"),
    ServiceRequest(2, Some("ID Renewal"), None, Some("National ID renewal"), "approved"),
    ServiceRequest(3, Some("Building Permit"), None, Some("Construction permit"), "processing")]

  /** The text test of this page: the service name or the description matches. */
  predicate MatchesSearch(r: ServiceRequest, term: string) {
    FieldMatches(r.serviceName, term) || FieldMatches(r.description, term)
  }

  /** The list this page shows for the given criteria. */
  function Shown(requests: seq<ServiceRequest>, statusFilter: string, searchTerm: string): seq<ServiceRequest> {
    Filtered(requests, statusFilter, searchTerm, MatchesSearch)
  }

  /** A request is shown exactly when it has the chosen status (or "all" is chosen) and matches the term. */
  lemma ShownMembership(requests: seq<ServiceRequest>, statusFilter: string, searchTerm: string, r: ServiceRequest)
    ensures r in Shown(requests, statusFilter, searchTerm) <==>
      && r in requests
      && (statusFilter == "all" || r.status == statusFilter)
      && (searchTerm == "" || FieldMatches(r.serviceName, searchTerm) || FieldMatches(r.description, searchTerm))
  {
    FilteredMembership(requests, statusFilter, searchTerm, MatchesSearch, r);
  }

  /** The search never looks at the citizen name on this page. */
  lemma CitizenNameIgnored(r: ServiceRequest, name: Option<string>, term: string)
    ensures MatchesSearch(r.(citizenName := name), term) == MatchesSearch(r, term)
  {
  }

  const StepNames := ["pending", "processing", "approved", "completed"]

  datatype Step = Step(name: string, completed: bool)

  /**
   * `getProgressSteps`: the four steps in order; a step is completed when the
   * status is that step or a later one, and no step is completed for a status
   * outside the four (such as "rejected").
   */
  function ProgressSteps(status: string): (steps: seq<Step>)
    ensures |steps| == |StepNames|
    ensures forall i :: 0 <= i < |steps| ==> steps[i].name == StepNames[i]
    ensures forall i :: 0 <= i < |steps| ==> (steps[i].completed <==> status in StepNames[i..])
  {
    var current := IndexOf(StepNames, status);
    seq(|StepNames|, i requires 0 <= i < |StepNames| => Step(StepNames[i], i <= current))
  }

  /** The completed steps form a prefix: a completed step has every earlier step completed. */
  lemma StepsCompletedInOrder(status: string, i: int, j: int)
    requires 0 <= i <= j < |StepNames|
    requires ProgressSteps(status)[j].completed
    ensures ProgressSteps(status)[i].completed
  {
    var steps := ProgressSteps(status);
    assert status in StepNames[j..];
    assert StepNames[j..] == StepNames[i..][j - i..];
  }

  /** A status that is not one of the four steps completes no step. */
  lemma UnknownStatusNoProgress(status: string, i: int)
    requires status !in StepNames
    requires 0 <= i < |StepNames|
    ensures !ProgressSteps(status)[i].completed
  {
  }

  class TrackingPage {
    var requests: seq<ServiceRequest>
    var filteredRequests: seq<ServiceRequest>
    var searchTerm: string
    var statusFilter: string
    var loading: bool
    var effects: seq<Effect>

    /** After every handler the shown list is the selection of the fetched one. */
    ghost predicate Valid()
      reads this
    {
      filteredRequests == Shown(requests, statusFilter, searchTerm)
    }

    /** The initial state: nothing fetched yet, no criteria, loading. */
    constructor()
      ensures Valid()
      ensures requests == [] && filteredRequests == []
      ensures searchTerm == "" && statusFilter == "all"
      ensures loading && effects == []
    {
      requests := [];
      filteredRequests := [];
      searchTerm := "";
      statusFilter := "all";
      loading := true;
      effects := [];
    }

    /** `filterRequests`: the status pass, then the search pass, over a copy of the list. */
    method FilterRequests()
      modifies this
      ensures Valid()
      ensures requests == old(requests) && searchTerm == old(searchTerm) && statusFilter == old(statusFilter)
      ensures loading == old(loading) && effects == old(effects)
    {
      var filtered := requests;
      if statusFilter != "all" {
        filtered := Filter(filtered, ByStatus(statusFilter));
      }
      if searchTerm != "" {
        filtered := Filter(filtered, BySearch(searchTerm, MatchesSearch));
      }
      TwoPassesSelect(requests, statusFilter, searchTerm, MatchesSearch);
      filteredRequests := filtered;
    }

    /** Typing in the search box; the effect on `searchTerm` re-filters. */
    method SetSearchTerm(term: string)
      modifies this
      ensures Valid()
      ensures searchTerm == term
      ensures requests == old(requests) && statusFilter == old(statusFilter)
      ensures loading == old(loading) && effects == old(effects)
    {
      searchTerm := term;
      FilterRequests();
    }

    /** Choosing a status; the effect on `statusFilter` re-filters. */
    method SetStatusFilter(status: string)
      modifies this
      ensures Valid()
      ensures statusFilter == status
      ensures requests == old(requests) && searchTerm == old(searchTerm)
      ensures loading == old(loading) && effects == old(effects)
    {
      statusFilter := status;
      FilterRequests();
    }

    /**
     * `fetchRequests` with the backend's answer `o`: the received list, or the
     * sample requests and an error toast on failure; loading ends either way and
     * the effect on `requests` re-filters.
     */
    method FetchRequests(o: Outcome<RequestsBody>)
      modifies this
      ensures Valid()
      ensures requests == (if o.Response? then Received(o.body) else MockRequests)
      ensures effects == old(effects) + [Call(GetRequests)] + (if o.Failure? then [Toast(ToastError, FetchFailed)] else [])
      ensures !loading
      ensures searchTerm == old(searchTerm) && statusFilter == old(statusFilter)
    {
      loading := true;
      effects := effects + [Call(GetRequests)];
      if o.Response? {
        requests := Received(o.body);
      } else {
        effects := effects + [Toast(ToastError, FetchFailed)];
        requests := MockRequests;
      }
      loading := false;
      FilterRequests();
    }
  }

  /** With no criteria, a failed fetch shows the three sample requests in order. */
  method FailedFetchShowsSamples(e: AxiosError) returns (page: TrackingPage)
    ensures page.filteredRequests == MockRequests
    ensures page.effects == [Call(GetRequests), Toast(ToastError, FetchFailed)]
  {
    page := new TrackingPage();
    page.FetchRequests(Failure(e));
    NoCriteriaShowsAll(MockRequests, MatchesSearch);
  }
}
