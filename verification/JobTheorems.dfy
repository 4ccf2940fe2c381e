/** What the job invariant means, over every run. */
module JobTheorems {
  import opened Ids
  import opened Options
  import opened P2PTypes
  import opened Network
  import opened Coherence
  import opened CoherenceTheorems
  import opened JobSafety
  import opened JobSteps

  lemma {:induction false} JobInvAlways(run: seq<Net>, i: nat)
    requires IsRun(run) && i < |run|
    ensures Inv(run[i]) && JobInv(run[i])
  {
    InvAlways(run, i);
    if i == 0 {
      assert JobInv(INIT);
    } else {
      JobInvAlways(run, i - 1);
      assert Step(run[i - 1], run[i - 1 + 1]);
      var e :| Enabled(run[i - 1], e) && run[i] == After(run[i - 1], e);
      JobInvStep(run[i - 1], e);
    }
  }

  /**
   * Whenever a JOB_ACCEPT has been sent, it names a provider with at least the job's minimum VRAM
   * and at most the renter's maximum price, at that provider's own price, and of the bids recorded
   * when the window closed it is the first of the cheapest.
   */
  lemma AcceptNamesCheapestEligible(run: seq<Net>, i: nat, j: JobId)
    requires IsRun(run) && i < |run| && j in run[i].awards
    ensures var s := run[i]; var award := s.awards[j];
            && j in s.jobs && award.winner.provider in s.providers
            && award.accept == Accept(j, award.winner.provider, s.jobs[j].renter, award.winner.priceHalalaHr)
            && s.providers[award.winner.provider].vramGb >= s.jobs[j].minVramGb
            && s.providers[award.winner.provider].priceHalala == award.accept.agreedPriceHalalaHr
            && award.accept.agreedPriceHalalaHr <= s.jobs[j].maxPriceHalalaHr
            && exists k: nat :: k < |award.offers| && award.winner == award.offers[k]
                 && (forall b <- award.offers :: award.winner.priceHalalaHr <= b.priceHalalaHr)
                 && (forall i :: 0 <= i < k ==> award.winner.priceHalalaHr < award.offers[i].priceHalalaHr)
  {
    JobInvAlways(run, i);
    assert AwardOk(run[i], j);
  }

  /**
   * Every JOB_ACCEPT on any connection, on its way to the relay or from it, is the award of its job; and the
   * relay sends one to nobody but the provider it names.
   */
  lemma AcceptsAreAwards(run: seq<Net>, i: nat, c: ConnId, msg: Msg)
    requires IsRun(run) && i < |run| && c in run[i].conns && msg.JobAccept?
    requires msg in run[i].conns[c].up.log || msg in run[i].conns[c].down.log
    ensures msg.accept.jobId in run[i].awards && run[i].awards[msg.accept.jobId].accept == msg.accept
    ensures msg in run[i].conns[c].down.log ==> msg.accept.provider == run[i].conns[c].owner
  {
    JobInvAlways(run, i);
    assert LogsOk(run[i], c);
    if msg in run[i].conns[c].up.log {
      var n :| 0 <= n < |run[i].conns[c].up.log| && run[i].conns[c].up.log[n] == msg;
      assert MsgOk(run[i], run[i].conns[c].up.log[n]);
    }
    if msg in run[i].conns[c].down.log {
      var n :| 0 <= n < |run[i].conns[c].down.log| && run[i].conns[c].down.log[n] == msg;
      assert MsgOk(run[i], run[i].conns[c].down.log[n]);
    }
  }

  /**
   * What a finished execution is charged, and exactly when that is within the winning bid's estimate: within
   * the timeout at a price that is not negative, beyond it at one that is not positive, or on a tie.
   */
  lemma ChargeWithinWinningEstimate(run: seq<Net>, i: nat, k: nat)
    requires IsRun(run) && i < |run| && k < |run[i].execs| && run[i].execs[k].result.Some?
    ensures var s := run[i]; var exec := s.execs[k]; var result := exec.result.value; var j := exec.accept.jobId;
            && j in s.awards && j in s.jobs && s.awards[j].accept == exec.accept
            && var (price, timeout, estimate) :=
                 (exec.accept.agreedPriceHalalaHr, s.jobs[j].timeoutSecs, s.awards[j].winner.estimatedCostHalala);
            && result.durationSecs >= 1 && IsCost(result.costHalala, price, result.durationSecs)
            && IsCost(estimate, price, timeout)
            && (result.costHalala <= estimate <==>
                  || (0 <= price && result.durationSecs <= timeout)
                  || (price <= 0 && timeout <= result.durationSecs)
                  || result.costHalala == estimate)
  {
    var s := run[i];
    JobInvAlways(run, i);
    assert ExecOk(s, k);
    var exec := s.execs[k];
    var j := exec.accept.jobId;
    assert AwardOk(s, j);
    CostIsCharged(exec.accept.agreedPriceHalalaHr, exec.result.value.durationSecs);
    CostIsCharged(exec.accept.agreedPriceHalalaHr, s.jobs[j].timeoutSecs);
    CostAtMostIff(exec.accept.agreedPriceHalalaHr, exec.result.value.durationSecs, s.jobs[j].timeoutSecs);
  }

  /** A job is executed at most once, and by the provider its JOB_ACCEPT names. */
  lemma OneExecutionPerJob(run: seq<Net>, i: nat, k: nat, l: nat)
    requires IsRun(run) && i < |run| && k < |run[i].execs| && l < |run[i].execs|
    requires run[i].execs[k].accept.jobId == run[i].execs[l].accept.jobId
    ensures k == l && run[i].execs[k].provider == run[i].execs[k].accept.provider
  {
    JobInvAlways(run, i);
    assert ExecOk(run[i], k) && ExecOk(run[i], l);
  }

  /**
   * A result a renter has stored is the payload of its job's one execution, however many copies were
   * sent: whatever execution the job has is this one.
   */
  lemma StoredResultIsTheExecution(run: seq<Net>, i: nat, id: PeerId, j: JobId)
    requires IsRun(run) && i < |run| && id in run[i].renters && j in run[i].renters[id].results
    ensures exists k: nat :: k < |run[i].execs| && run[i].execs[k].accept.jobId == j
                             && run[i].execs[k].result == Some(run[i].renters[id].results[j])
    ensures forall k :: 0 <= k < |run[i].execs| && run[i].execs[k].accept.jobId == j ==>
                          run[i].execs[k].result == Some(run[i].renters[id].results[j])
  {
    var s := run[i];
    JobInvAlways(run, i);
    assert RenterJobs(s, id);
    var k := s.token[j].k;
    assert ExecOk(s, k);
    forall l | 0 <= l < |s.execs| && s.execs[l].accept.jobId == j
      ensures s.execs[l].result == Some(s.renters[id].results[j])
    {
      OneExecutionPerJob(run, i, k, l);
    }
  }
}
