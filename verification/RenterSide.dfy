/** p2p/renter_client.py: the provider cache, the bids, the choice of a winner and the results. */
module RenterSide {
  import opened Ids
  import opened Options
  import opened P2PTypes

  type Cache = map<PeerId, Option<Capacity>>

  /** A PEER_LIST only adds or overwrites. */
  function Listed(cache: Cache, entries: seq<Entry>): Cache {
    if entries == [] then cache
    else
      var last := entries[|entries| - 1];
      Listed(cache, entries[..|entries| - 1])[last.peer := last.capacity]
  }

  function CacheAfter(cache: Cache, msg: Msg): Cache {
    match msg
    case PeerList(entries) => Listed(cache, entries)
    case AnnounceCapacity(peer, capacity) => cache[peer := Some(capacity)]
    case PeerBye(gone) => cache - {gone}
    case _ => cache
  }

  function CacheFold(cache: Cache, msgs: seq<Msg>): Cache {
    if msgs == [] then cache
    else CacheAfter(CacheFold(cache, msgs[..|msgs| - 1]), msgs[|msgs| - 1])
  }

  function BidsAfter(bids: map<JobId, seq<Bid>>, msg: Msg): map<JobId, seq<Bid>> {
    match msg
    case JobBid(bid) => if bid.jobId in bids then bids[bid.jobId := bids[bid.jobId] + [bid]] else bids
    case _ => bids
  }

  function ResultsAfter(results: map<JobId, Result>, msg: Msg): map<JobId, Result> {
    match msg
    case JobResult(result) => results[result.jobId := result]
    case _ => results
  }

  function BidsFold(bids: map<JobId, seq<Bid>>, msgs: seq<Msg>): map<JobId, seq<Bid>> {
    if msgs == [] then bids
    else BidsAfter(BidsFold(bids, msgs[..|msgs| - 1]), msgs[|msgs| - 1])
  }

  /** The bids for one job among the messages, in order of arrival. */
  function BidsFor(msgs: seq<Msg>, job: JobId): seq<Bid> {
    if msgs == [] then []
    else
      var last := msgs[|msgs| - 1];
      BidsFor(msgs[..|msgs| - 1], job) + if last.JobBid? && last.bid.jobId == job then [last.bid] else []
  }

  /**
   * What opening a job starts: from then on its list holds exactly the bids for it that have arrived, in
   * order, and any other list grows by its own bids or, if never opened, stays away.
   */
  lemma {:induction false} OpenedJobCollectsItsBids(bids: map<JobId, seq<Bid>>, job: JobId, msgs: seq<Msg>,
                                                    other: JobId)
    ensures var after := BidsFold(bids[job := []], msgs);
      && job in after && after[job] == BidsFor(msgs, job)
      && (other != job ==> (other in after <==> other in bids))
      && (other != job && other in bids ==> after[other] == bids[other] + BidsFor(msgs, other))
  {
    if msgs != [] {
      OpenedJobCollectsItsBids(bids, job, msgs[..|msgs| - 1], other);
    } else if other in bids {
      assert bids[other] + [] == bids[other];
    }
  }

  function ResultsFold(results: map<JobId, Result>, msgs: seq<Msg>): map<JobId, Result> {
    if msgs == [] then results
    else ResultsAfter(ResultsFold(results, msgs[..|msgs| - 1]), msgs[|msgs| - 1])
  }

  predicate ResultOf(msg: Msg, job: JobId) {
    msg.JobResult? && msg.result.jobId == job
  }

  /** Message `i` is the last result for this job. */
  ghost predicate LastResult(msgs: seq<Msg>, job: JobId, i: nat) {
    i < |msgs| && ResultOf(msgs[i], job) && forall k :: i < k < |msgs| ==> !ResultOf(msgs[k], job)
  }

  /** A renter holds, for each job, the last result that arrived for it, or what it held when none did. */
  lemma {:induction false} LastResultIsStored(results: map<JobId, Result>, msgs: seq<Msg>, job: JobId)
    ensures var after := ResultsFold(results, msgs);
      && (forall i: nat {:trigger LastResult(msgs, job, i)} ::
            LastResult(msgs, job, i) ==> job in after && after[job] == msgs[i].result)
      && (job in after <==>
            job in results || exists i: nat {:trigger LastResult(msgs, job, i)} :: LastResult(msgs, job, i))
      && (job in results && (forall k :: 0 <= k < |msgs| ==> !ResultOf(msgs[k], job)) ==> after[job] == results[job])
  {
    if msgs != [] {
      var n := |msgs| - 1;
      var init, last := msgs[..n], msgs[n];
      LastResultIsStored(results, init, job);
      if ResultOf(last, job) {
        assert LastResult(msgs, job, n);
        assert forall i: nat :: LastResult(msgs, job, i) ==> i == n;
      } else {
        forall i: nat
          ensures LastResult(msgs, job, i) <==> LastResult(init, job, i)
        {
        }
      }
    }
  }

  /** `bids[k]` is the bid Python's `min` returns: the first of the cheapest. */
  ghost predicate FirstCheapest(bids: seq<Bid>, k: nat) {
    && k < |bids|
    && (forall i :: 0 <= i < |bids| ==> bids[k].priceHalalaHr <= bids[i].priceHalalaHr)
    && (forall i :: 0 <= i < k ==> bids[k].priceHalalaHr < bids[i].priceHalalaHr)
  }

  class RenterClient {
    var providers: Cache
    var bids: map<JobId, seq<Bid>>
    var results: map<JobId, Result>

    constructor ()
      ensures providers == map[] && bids == map[] && results == map[]
    {
      providers, bids, results := map[], map[], map[];
    }

    method Dispatch(msg: Msg)
      modifies this
      ensures providers == CacheAfter(old(providers), msg)
      ensures bids == BidsAfter(old(bids), msg)
      ensures results == ResultsAfter(old(results), msg)
      ensures msg.JobResult? ==> results == old(results)[msg.result.jobId := msg.result]
    {
      match msg
      case PeerList(entries) =>
        for i := 0 to |entries|
          invariant providers == Listed(old(providers), entries[..i])
          invariant bids == old(bids) && results == old(results)
        {
          assert entries[..i + 1][..i] == entries[..i];
          providers := providers[entries[i].peer := entries[i].capacity];
        }
        assert entries[..|entries|] == entries;
      case AnnounceCapacity(peer, capacity) =>
        providers := providers[peer := Some(capacity)];
      case PeerBye(gone) =>
        if gone in providers {
          providers := providers - {gone};
        } else {
          assert providers - {gone} == providers;
        }
      case JobBid(bid) =>
        if bid.jobId in bids {
          bids := bids[bid.jobId := bids[bid.jobId] + [bid]];
        }
      case JobResult(result) =>
        results := results[result.jobId := result];
      case _ =>
    }

    /** `submit_job` up to its first suspension. */
    method OpenJob(jobId: JobId)
      modifies this`bids
      ensures bids == old(bids)[jobId := []]
    {
      bids := bids[jobId := []];
    }

    /** The winner when the bid window closes, or nothing when nobody bid. */
    method CloseWindow(jobId: JobId) returns (winner: Option<Bid>)
      ensures winner.None? <==> jobId !in bids || bids[jobId] == []
      ensures winner.Some? ==> exists k: nat :: FirstCheapest(bids[jobId], k) && winner.value == bids[jobId][k]
    {
      if jobId !in bids || bids[jobId] == [] {
        return None;
      }
      var offers := bids[jobId];
      var best := 0;
      for i := 1 to |offers|
        invariant 0 <= best < i
        invariant forall j :: 0 <= j < i ==> offers[best].priceHalalaHr <= offers[j].priceHalalaHr
        invariant forall j :: 0 <= j < best ==> offers[best].priceHalalaHr < offers[j].priceHalalaHr
      {
        if offers[i].priceHalalaHr < offers[best].priceHalalaHr {
          best := i;
        }
      }
      assert FirstCheapest(offers, best);
      winner := Some(offers[best]);
    }
  }
}
