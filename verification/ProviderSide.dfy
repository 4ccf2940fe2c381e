/** p2p/provider_node.py: eligibility, the bid and the charge for a finished job. */
module ProviderSide {
  import opened Ids
  import opened Options
  import opened P2PTypes

  predicate Eligible(vramGb: int, priceHalala: int, spec: JobSpec) {
    spec.minVramGb <= vramGb && priceHalala <= spec.maxPriceHalalaHr
  }

  /** The bid a provider makes for a job it is eligible for. */
  function BidFor(id: PeerId, vramGb: int, priceHalala: int, spec: JobSpec): Bid {
    Bid(spec.jobId, id, spec.renter, priceHalala, vramGb, CostHalala(priceHalala, spec.timeoutSecs))
  }

  /** A run is charged for at least one second. */
  function BilledSecs(elapsedSecs: int): int {
    if elapsedSecs < 1 then 1 else elapsedSecs
  }

  /** The result message of one execution. */
  function ResultFor(id: PeerId, accept: Accept, success: bool, output: string, elapsedSecs: int): Result {
    Result(accept.jobId, id, accept.renter, success, output, BilledSecs(elapsedSecs),
           CostHalala(accept.agreedPriceHalalaHr, BilledSecs(elapsedSecs)))
  }

  // ---- Jobs under way ----

  datatype Work = Accepted(job: JobId) | Finished(job: JobId)

  function ActiveAfter(active: set<JobId>, work: Work): set<JobId> {
    match work
    case Accepted(job) => active + {job}
    case Finished(job) => active - {job}
  }

  function ActiveFold(works: seq<Work>): set<JobId> {
    if works == [] then {} else ActiveAfter(ActiveFold(works[..|works| - 1]), works[|works| - 1])
  }

  /** Accept number `i` of this job is the last thing that happened to it. */
  ghost predicate Unfinished(works: seq<Work>, job: JobId, i: nat) {
    i < |works| && works[i] == Accepted(job) && forall k :: i < k < |works| ==> works[k] != Finished(job)
  }

  /** Over any sequence of accepts and finishes, the active jobs are those accepted and not finished since. */
  lemma {:induction false} ActiveAreUnfinished(works: seq<Work>, job: JobId)
    ensures job in ActiveFold(works)
        <==> exists i: nat {:trigger Unfinished(works, job, i)} :: Unfinished(works, job, i)
  {
    if works != [] {
      var n := |works| - 1;
      var init, last := works[..n], works[n];
      ActiveAreUnfinished(init, job);
      if last == Accepted(job) {
        assert Unfinished(works, job, n);
      } else if last == Finished(job) {
        assert forall i: nat :: Unfinished(works, job, i) ==> i == n;
      } else {
        assert forall i: nat :: Unfinished(works, job, i) <==> Unfinished(init, job, i);
      }
    }
  }

  class ProviderClient {
    const id: PeerId
    const vramGb: int
    const priceHalala: int
    var connected: bool
    var activeJobs: set<JobId>

    constructor (id: PeerId, vramGb: int, priceHalala: int)
      ensures this.id == id && this.vramGb == vramGb && this.priceHalala == priceHalala
      ensures !connected && activeJobs == {}
    {
      this.id, this.vramGb, this.priceHalala := id, vramGb, priceHalala;
      connected, activeJobs := false, {};
    }

    method HandleJobRequest(spec: JobSpec) returns (bid: Option<Bid>)
      ensures bid == if Eligible(vramGb, priceHalala, spec) && connected
                     then Some(BidFor(id, vramGb, priceHalala, spec)) else None
      ensures bid.Some? <==> vramGb >= spec.minVramGb && priceHalala <= spec.maxPriceHalalaHr && connected
      ensures bid.Some? ==>
        && bid.value.jobId == spec.jobId && bid.value.provider == id && bid.value.renter == spec.renter
        && bid.value.priceHalalaHr == priceHalala && bid.value.vramGb == vramGb
        && IsCost(bid.value.estimatedCostHalala, priceHalala, spec.timeoutSecs)
    {
      CostIsCharged(priceHalala, spec.timeoutSecs);
      if vramGb < spec.minVramGb {
        return None;
      }
      if priceHalala > spec.maxPriceHalalaHr {
        return None;
      }
      var estimate := CostHalala(priceHalala, spec.timeoutSecs);
      if !connected {
        return None;
      }
      bid := Some(Bid(spec.jobId, id, spec.renter, priceHalala, vramGb, estimate));
    }

    method HandleJobAccept(accept: Accept)
      modifies this`activeJobs
      ensures activeJobs == ActiveAfter(old(activeJobs), Accepted(accept.jobId))
    {
      activeJobs := activeJobs + {accept.jobId};
    }

    /** The `finally` of `_execute_job`; `directRaised` says whether the direct delivery raised. */
    method FinishJob(accept: Accept, success: bool, output: string, elapsedSecs: int, directRaised: bool)
      returns (result: Result, relay: bool)
      modifies this`activeJobs
      ensures result == ResultFor(id, accept, success, output, elapsedSecs)
      ensures result.jobId == accept.jobId && result.provider == id && result.renter == accept.renter
      ensures result.success == success && result.output == output
      ensures result.durationSecs == if elapsedSecs < 1 then 1 else elapsedSecs
      ensures IsCost(result.costHalala, accept.agreedPriceHalalaHr, result.durationSecs)
      ensures relay <==> directRaised && connected
      ensures activeJobs == ActiveAfter(old(activeJobs), Finished(accept.jobId))
    {
      var duration := if elapsedSecs > 1 then elapsedSecs else 1;
      var cost := CostHalala(accept.agreedPriceHalalaHr, duration);
      CostIsCharged(accept.agreedPriceHalalaHr, duration);
      result := Result(accept.jobId, id, accept.renter, success, output, duration, cost);
      relay := directRaised && connected;
      activeJobs := activeJobs - {accept.jobId};
    }
  }

  /**
   * When a charge at the bid's price stays within the bid's estimate: within the timeout at a price that is
   * not negative, beyond it at one that is not positive, and otherwise only if both truncate to the same.
   */
  lemma ChargeWithinEstimateIff(id: PeerId, vramGb: int, priceHalala: int, spec: JobSpec, elapsedSecs: int)
    ensures var (charge, estimate) :=
        (CostHalala(priceHalala, BilledSecs(elapsedSecs)), BidFor(id, vramGb, priceHalala, spec).estimatedCostHalala);
      charge <= estimate <==>
        || (0 <= priceHalala && BilledSecs(elapsedSecs) <= spec.timeoutSecs)
        || (priceHalala <= 0 && spec.timeoutSecs <= BilledSecs(elapsedSecs))
        || charge == estimate
  {
    CostAtMostIff(priceHalala, BilledSecs(elapsedSecs), spec.timeoutSecs);
  }

  /** A negative price breaks it within the timeout, and a timeout under a second breaks it at a positive one. */
  lemma ChargeBeyondEstimate(id: PeerId, renter: PeerId, job: JobId)
    ensures var spec := JobSpec(job, renter, 0, 0, 60);
      CostHalala(-3600, BilledSecs(1)) > BidFor(id, 0, -3600, spec).estimatedCostHalala
    ensures var spec := JobSpec(job, renter, 0, 3600, 0);
      CostHalala(3600, BilledSecs(0)) > BidFor(id, 0, 3600, spec).estimatedCostHalala
  {
  }
}
