/**
 * The citizen's dashboard: the five most recent requests of the fetched list
 * and four counters over the whole list, or two sample requests and fixed
 * counters when the fetch fails.
 */
module CitizenDashboard {
  import opened Wrappers
  import opened Domain
  import opened Seqs
  import opened Api
  import opened RequestList

  const LoadFailed := "Failed to load requests"

  /** How many requests the dashboard lists. */
  const RecentCount := 5

  const MockRequests := [
    ServiceRequest(1, Some("Business License"), None, None, "pending"),
    ServiceRequest(2, Some("ID Renewal"), None, None, "approved")]

  datatype Stats = Stats(total: nat, pending: nat, approved: nat, rejected: nat)

  /** The counters shown when the fetch fails, written out as constants in the page. */
  const FallbackStats := Stats(2, 1, 1, 0)

  /** The counters over the whole fetched list (not the five shown). */
  function StatsOf(data: seq<ServiceRequest>): (s: Stats)
    ensures s.total == |data|
    ensures s.pending == CountStatus(data, "pending")
    ensures s.approved == CountStatus(data, "approved")
    ensures s.rejected == CountStatus(data, "rejected")
    ensures s.pending + s.approved + s.rejected <= s.total
  {
    FilterLengthIsCount(data, "pending");
    FilterLengthIsCount(data, "approved");
    FilterLengthIsCount(data, "rejected");
    ThreeCountsBounded(data, "pending", "approved", "rejected");
    Stats(
      |data|,
      |Filter(data, ByStatus("pending"))|,
      |Filter(data, ByStatus("approved"))|,
      |Filter(data, ByStatus("rejected"))|)
  }

  /** The fixed fallback counters agree with the sample requests they accompany. */
  lemma FallbackMatchesSamples()
    ensures StatsOf(MockRequests) == FallbackStats
  {
    assert MockRequests[1..][1..] == [];
  }

  /** A body without a `requests` field counts as an empty list: nothing listed, every counter zero. */
  lemma MissingListCountsNothing()
    ensures Take(Received(RequestsBody(None)), RecentCount) == []
    ensures StatsOf(Received(RequestsBody(None))) == Stats(0, 0, 0, 0)
  {
  }

  /** `data.slice(0, 5)`: at most five requests, the first ones of the list, in order. */
  lemma RecentArePrefix(data: seq<ServiceRequest>)
    ensures |Take(data, RecentCount)| <= RecentCount
    ensures Take(data, RecentCount) == data[..|Take(data, RecentCount)|]
    ensures |data| <= RecentCount ==> Take(data, RecentCount) == data
  {
  }

  class CitizenDashboardPage {
    var requests: seq<ServiceRequest>
    var stats: Stats
    var loading: bool
    var effects: seq<Effect>

    /** At most five requests are listed, no more than the total counted, and the counts fit in the total. */
    ghost predicate Valid()
      reads this
    {
      && |requests| <= RecentCount
      && |requests| <= stats.total
      && stats.pending + stats.approved + stats.rejected <= stats.total
    }

    constructor()
      ensures Valid()
      ensures requests == [] && stats == Stats(0, 0, 0, 0)
      ensures loading && effects == []
    {
      requests := [];
      stats := Stats(0, 0, 0, 0);
      loading := true;
      effects := [];
    }

    /**
     * `fetchRequests` with the backend's answer `o`: the first five received
     * requests and the counters of all of them, or the samples and the fixed
     * counters with an error toast.
     */
    method FetchRequests(o: Outcome<RequestsBody>)
      modifies this
      ensures Valid()
      ensures requests == (if o.Response? then Take(Received(o.body), RecentCount) else MockRequests)
      ensures stats == (if o.Response? then StatsOf(Received(o.body)) else FallbackStats)
      ensures effects == old(effects) + [Call(GetRequests)] + (if o.Failure? then [Toast(ToastError, LoadFailed)] else [])
      ensures !loading
    {
      loading := true;
      effects := effects + [Call(GetRequests)];
      if o.Response? {
        var data := Received(o.body);
        requests := Take(data, RecentCount);
        stats := StatsOf(data);
      } else {
        effects := effects + [Toast(ToastError, LoadFailed)];
        requests := MockRequests;
        stats := FallbackStats;
      }
      loading := false;
    }
  }
}
