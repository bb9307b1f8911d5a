/**
 * The officer's request management page: the same fetch, fallback and
 * two-pass filter as the tracking page, with the citizen's name added to the
 * search, and four counters computed from the whole fetched list.
 */
module OfficerDashboard {
  import opened Wrappers
  import opened Domain
  import opened Js
  import opened Seqs
  import opened Api
  import opened RequestList

  const FetchFailed := "Failed to fetch requests. Using mock data."

  /** The sample requests shown when the fetch fails. */
  const MockRequests := [
    ServiceRequest(1, Some("Business License"), Some("John Smith"), Some("New business registration"), "pending"),
    ServiceRequest(2, Some("ID Renewal"), Some("Jane Doe"), Some("National ID renewal"), "processing"),
    ServiceRequest(3, Some("Building Permit"), Some("Bob Johnson"), Some("Construction permit"), "approved")]

  /** The text test of this page: service name, citizen name or description. */
  predicate MatchesSearch(r: ServiceRequest, term: string) {
    || FieldMatches(r.serviceName, term)
    || FieldMatches(r.citizenName, term)
    || FieldMatches(r.description, term)
  }

  function Shown(requests: seq<ServiceRequest>, statusFilter: string, searchTerm: string): seq<ServiceRequest> {
    Filtered(requests, statusFilter, searchTerm, MatchesSearch)
  }

  /** An officer finds a request by the citizen's name, whatever its service or description. */
  lemma CitizenNameFinds(requests: seq<ServiceRequest>, statusFilter: string, r: ServiceRequest, name: string)
    requires r in requests && r.citizenName == Some(name) && name != ""
    requires statusFilter == "all" || r.status == statusFilter
    ensures r in Shown(requests, statusFilter, name)
  {
    IncludesSelf(name);
    ContainedTermMatches(name, name);
    FilteredMembership(requests, statusFilter, name, MatchesSearch, r);
  }

  /** The officer's search finds everything the citizen's tracking search would find, and more. */
  lemma WiderThanNameAndDescription(r: ServiceRequest, term: string)
    requires FieldMatches(r.serviceName, term) || FieldMatches(r.description, term)
    ensures MatchesSearch(r, term)
  {
  }

  datatype Stats = Stats(total: nat, pending: nat, processing: nat, approved: nat)

  /** The `stats` object: the size of the whole list and the exact count of three statuses. */
  function StatsOf(requests: seq<ServiceRequest>): (s: Stats)
    ensures s.total == |requests|
    ensures s.pending == CountStatus(requests, "pending")
    ensures s.processing == CountStatus(requests, "processing")
    ensures s.approved == CountStatus(requests, "approved")
    ensures s.pending + s.processing + s.approved <= s.total
  {
    FilterLengthIsCount(requests, "pending");
    FilterLengthIsCount(requests, "processing");
    FilterLengthIsCount(requests, "approved");
    ThreeCountsBounded(requests, "pending", "processing", "approved");
    Stats(
      |requests|,
      |Filter(requests, ByStatus("pending"))|,
      |Filter(requests, ByStatus("processing"))|,
      |Filter(requests, ByStatus("approved"))|)
  }

  /** The sample data counts one request of each of the three statuses. */
  lemma SampleStats()
    ensures StatsOf(MockRequests) == Stats(3, 1, 1, 1)
  {
  }

  class OfficerDashboardPage {
    var requests: seq<ServiceRequest>
    var filteredRequests: seq<ServiceRequest>
    var searchTerm: string
    var statusFilter: string
    var loading: bool
    var effects: seq<Effect>

    ghost predicate Valid()
      reads this
    {
      filteredRequests == Shown(requests, statusFilter, searchTerm)
    }

    /** The counters shown above the table. */
    function CurrentStats(): (s: Stats)
      reads this
      ensures s == StatsOf(requests)
      ensures s.total == |requests|
    {
      StatsOf(requests)
    }

    constructor()
      ensures Valid()
      ensures requests == [] && filteredRequests == []
      ensures searchTerm == "" && statusFilter == "all"
      ensures loading && effects == []
    {
      requests := [];
      filteredRequests := [];
      searchTerm := "";
      statusFilter := "all";
      loading := true;
      effects := [];
    }

    /** `filterRequests`: the status pass, then the search pass. */
    method FilterRequests()
      modifies this
      ensures Valid()
      ensures requests == old(requests) && searchTerm == old(searchTerm) && statusFilter == old(statusFilter)
      ensures loading == old(loading) && effects == old(effects)
    {
      var filtered := requests;
      if statusFilter != "all" {
        filtered := Filter(filtered, ByStatus(statusFilter));
      }
      if searchTerm != "" {
        filtered := Filter(filtered, BySearch(searchTerm, MatchesSearch));
      }
      TwoPassesSelect(requests, statusFilter, searchTerm, MatchesSearch);
      filteredRequests := filtered;
    }

    method SetSearchTerm(term: string)
      modifies this
      ensures Valid()
      ensures searchTerm == term
      ensures requests == old(requests) && statusFilter == old(statusFilter)
      ensures loading == old(loading) && effects == old(effects)
    {
      searchTerm := term;
      FilterRequests();
    }

    method SetStatusFilter(status: string)
      modifies this
      ensures Valid()
      ensures statusFilter == status
      ensures requests == old(requests) && searchTerm == old(searchTerm)
      ensures loading == old(loading) && effects == old(effects)
    {
      statusFilter := status;
      FilterRequests();
    }

    /** `fetchRequests` with the backend's answer `o`. */
    method FetchRequests(o: Outcome<RequestsBody>)
      modifies this
      ensures Valid()
      ensures requests == (if o.Response? then Received(o.body) else MockRequests)
      ensures effects == old(effects) + [Call(GetRequests)] + (if o.Failure? then [Toast(ToastError, FetchFailed)] else [])
      ensures !loading
      ensures searchTerm == old(searchTerm) && statusFilter == old(statusFilter)
    {
      loading := true;
      effects := effects + [Call(GetRequests)];
      if o.Response? {
        requests := Received(o.body);
      } else {
        effects := effects + [Toast(ToastError, FetchFailed)];
        requests := MockRequests;
      }
      loading := false;
      FilterRequests();
    }
  }
}
