/**
 * The request-list logic shared by the citizen tracking page, the officer
 * dashboard and the citizen dashboard: the status filter followed by the text
 * search, status counts, and the status → badge class map.
 */
module RequestList {
  import opened Wrappers
  import opened Js
  import opened Domain
  import opened Seqs

  /** `field?.toLowerCase().includes(term.toLowerCase())`: case-insensitive, and a missing field never matches. */
  predicate FieldMatches(field: Option<string>, term: string) {
    field.Some? && Includes(Lower(field.value), Lower(term))
  }

  /** A text field that contains the term verbatim matches it. */
  lemma {:induction false} ContainedTermMatches(field: string, term: string)
    requires Includes(field, term)
    ensures FieldMatches(Some(field), term)
  {
    var i :| 0 <= i <= |field| && OccursAt(field, term, i);
    LowerSlice(field, i, i + |term|);
    assert OccursAt(Lower(field), Lower(term), i);
  }

  /** The search ignores the case of the term: lower-casing it first changes nothing. */
  lemma SearchIgnoresTermCase(field: Option<string>, term: string)
    ensures FieldMatches(field, Lower(term)) == FieldMatches(field, term)
  {
    LowerIdempotent(term);
  }

  /** `response.data.requests || []`: the body of a successful `requestsAPI.getAll()`. */
  datatype RequestsBody = RequestsBody(requests: Option<seq<ServiceRequest>>)

  /** The list a successful fetch yields: the body's requests, or none when the field is missing. */
  function Received(body: RequestsBody): seq<ServiceRequest> {
    body.requests.GetOr([])
  }

  /** `req.status === statusFilter`, the predicate of the first pass. */
  function ByStatus(status: string): ServiceRequest -> bool {
    (r: ServiceRequest) => r.status == status
  }

  /** The predicate of the second pass, for a page's own text test. */
  function BySearch(term: string, matches: (ServiceRequest, string) -> bool): ServiceRequest -> bool {
    (r: ServiceRequest) => matches(r, term)
  }

  /**
   * What a page's `filterRequests` keeps, as one condition: the status filter is
   * "all" or equals the status, and the search term is empty or matches the text.
   */
  predicate Selected(r: ServiceRequest, statusFilter: string, searchTerm: string, matches: (ServiceRequest, string) -> bool) {
    && (statusFilter == "all" || r.status == statusFilter)
    && (searchTerm == "" || matches(r, searchTerm))
  }

  function Selection(statusFilter: string, searchTerm: string, matches: (ServiceRequest, string) -> bool): ServiceRequest -> bool {
    (r: ServiceRequest) => Selected(r, statusFilter, searchTerm, matches)
  }

  /** The list a page shows: the requests selected by the criteria, in their original order. */
  function Filtered(requests: seq<ServiceRequest>, statusFilter: string, searchTerm: string, matches: (ServiceRequest, string) -> bool): seq<ServiceRequest> {
    Filter(requests, Selection(statusFilter, searchTerm, matches))
  }

  /** The first pass of `filterRequests`: every request for "all", else the exact status matches. */
  function StatusPass(requests: seq<ServiceRequest>, statusFilter: string): seq<ServiceRequest> {
    if statusFilter != "all" then Filter(requests, ByStatus(statusFilter)) else requests
  }

  /** The second pass: no text filtering for an empty term. */
  function SearchPass(requests: seq<ServiceRequest>, searchTerm: string, matches: (ServiceRequest, string) -> bool): seq<ServiceRequest> {
    if searchTerm != "" then Filter(requests, BySearch(searchTerm, matches)) else requests
  }

  /** The two passes, applied in the source's order, select exactly `Filtered`. */
  lemma TwoPassesSelect(requests: seq<ServiceRequest>, statusFilter: string, searchTerm: string, matches: (ServiceRequest, string) -> bool)
    ensures SearchPass(StatusPass(requests, statusFilter), searchTerm, matches) == Filtered(requests, statusFilter, searchTerm, matches)
  {
    var sel := Selection(statusFilter, searchTerm, matches);
    var search := BySearch(searchTerm, matches);
    var status := ByStatus(statusFilter);
    if statusFilter != "all" && searchTerm != "" {
      FilterFuse(requests, status, search, sel);
    } else if statusFilter != "all" {
      FilterFuse(requests, status, (r: ServiceRequest) => true, sel);
      FilterKeepsAll(Filter(requests, status), (r: ServiceRequest) => true);
    } else if searchTerm != "" {
      FilterFuse(requests, (r: ServiceRequest) => true, search, sel);
      FilterKeepsAll(requests, (r: ServiceRequest) => true);
    } else {
      FilterKeepsAll(requests, sel);
    }
  }

  /** A request is shown exactly when it is in the list and meets the criteria. */
  lemma FilteredMembership(requests: seq<ServiceRequest>, statusFilter: string, searchTerm: string, matches: (ServiceRequest, string) -> bool, r: ServiceRequest)
    ensures r in Filtered(requests, statusFilter, searchTerm, matches) <==> r in requests && Selected(r, statusFilter, searchTerm, matches)
  {
    FilterMembership(requests, Selection(statusFilter, searchTerm, matches), r);
  }

  /** The shown list is an order-preserving subsequence of the fetched list. */
  lemma FilteredIsSubsequence(requests: seq<ServiceRequest>, statusFilter: string, searchTerm: string, matches: (ServiceRequest, string) -> bool)
    ensures IsSubsequence(Filtered(requests, statusFilter, searchTerm, matches), requests)
  {
    FilterIsSubsequence(requests, Selection(statusFilter, searchTerm, matches));
  }

  /** Filtering an already filtered list with the same criteria changes nothing. */
  lemma FilteredIdempotent(requests: seq<ServiceRequest>, statusFilter: string, searchTerm: string, matches: (ServiceRequest, string) -> bool)
    ensures Filtered(Filtered(requests, statusFilter, searchTerm, matches), statusFilter, searchTerm, matches)
         == Filtered(requests, statusFilter, searchTerm, matches)
  {
    FilterIdempotent(requests, Selection(statusFilter, searchTerm, matches));
  }

  /** With status "all" and an empty term every request is shown, in order. */
  lemma NoCriteriaShowsAll(requests: seq<ServiceRequest>, matches: (ServiceRequest, string) -> bool)
    ensures Filtered(requests, "all", "", matches) == requests
  {
    FilterKeepsAll(requests, Selection("all", "", matches));
  }

  /** The number of requests whose status is `status`. */
  function CountStatus(requests: seq<ServiceRequest>, status: string): (n: nat)
    ensures n <= |requests|
  {
    if requests == [] then 0
    else (if requests[0].status == status then 1 else 0) + CountStatus(requests[1..], status)
  }

  /** `requests.filter(r => r.status === status).length` is the status count. */
  lemma {:induction false} FilterLengthIsCount(requests: seq<ServiceRequest>, status: string)
    ensures |Filter(requests, ByStatus(status))| == CountStatus(requests, status)
  {
    if requests != [] {
      FilterLengthIsCount(requests[1..], status);
    }
  }

  /** Counts of three different statuses add up to at most the number of requests. */
  lemma {:induction false} ThreeCountsBounded(requests: seq<ServiceRequest>, a: string, b: string, c: string)
    requires a != b && b != c && a != c
    ensures CountStatus(requests, a) + CountStatus(requests, b) + CountStatus(requests, c) <= |requests|
  {
    if requests != [] {
      ThreeCountsBounded(requests[1..], a, b, c);
    }
  }

  const KnownStatuses := {"pending", "processing", "approved", "rejected", "completed"}

  /** `getStatusBadge` of the tracking page and both dashboards. */
  function StatusBadge(status: string): (badge: string)
    ensures status in KnownStatuses ==> badge == "badge-" + status
    ensures status !in KnownStatuses ==> badge == "badge-pending"
  {
    var badges := map[
      "pending" := "badge-pending",
      "processing" := "badge-processing",
      "approved" := "badge-approved",
      "rejected" := "badge-rejected",
      "completed" := "badge-completed"];
    if status in badges then badges[status] else "badge-pending"
  }
}
