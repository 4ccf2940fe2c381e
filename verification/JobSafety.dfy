/** Who may win a job, who runs it and what comes back: invariants over every run. */
module JobSafety {
  import opened Ids
  import opened Options
  import opened P2PTypes
  import opened RenterSide
  import opened ProviderSide
  import opened Network

  // ---- What each message vouches for ----

  /** An eligible provider's own offer. */
  ghost predicate BidOk(s: Net, bid: Bid) {
    && bid.provider in s.providers && bid.jobId in s.jobs
    && var node := s.providers[bid.provider];
    && Eligible(node.vramGb, node.priceHalala, s.jobs[bid.jobId])
    && bid == BidFor(bid.provider, node.vramGb, node.priceHalala, s.jobs[bid.jobId])
  }

  ghost predicate Awarded(s: Net, accept: Accept) {
    accept.jobId in s.awards && s.awards[accept.jobId].accept == accept
  }

  /** The payload of the one execution that the job's JOB_ACCEPT started. */
  ghost predicate ResultOk(s: Net, result: Result) {
    && result.jobId in s.token && s.token[result.jobId].Started?
    && s.token[result.jobId].k < |s.execs|
    && s.execs[s.token[result.jobId].k].result == Some(result)
  }

  ghost predicate MsgOk(s: Net, msg: Msg) {
    var holds :=
      match msg
      case JobRequest(spec) => spec.jobId in s.jobs && s.jobs[spec.jobId] == spec
      case JobBid(bid) => BidOk(s, bid)
      case JobAccept(accept) => Awarded(s, accept)
      case JobResult(result) => ResultOk(s, result)
      case _ => true;
    holds
  }

  ghost predicate UpOk(s: Net, conn: Conn) {
    forall i :: 0 <= i < |conn.up.log| ==> MsgOk(s, conn.up.log[i])
  }

  /** A JOB_ACCEPT is only ever relayed to the provider it names. */
  ghost predicate DownOk(s: Net, conn: Conn) {
    forall i :: 0 <= i < |conn.down.log| ==>
                  MsgOk(s, conn.down.log[i])
                  && (conn.down.log[i].JobAccept? ==> conn.down.log[i].accept.provider == conn.owner)
  }

  ghost predicate HandlerOk(s: Net, conn: Conn) {
    conn.handler.Sending? ==> MsgOk(s, conn.handler.msg) && !conn.handler.msg.JobAccept?
  }

  ghost predicate LogsOk(s: Net, c: ConnId) {
    c in s.conns ==> UpOk(s, s.conns[c]) && DownOk(s, s.conns[c]) && HandlerOk(s, s.conns[c])
  }

  ghost predicate BidsOk(s: Net, bids: map<JobId, seq<Bid>>) {
    forall j :: j in bids ==> OffersOk(s, j, bids[j])
  }

  ghost predicate OffersOk(s: Net, j: JobId, offers: seq<Bid>) {
    forall i :: 0 <= i < |offers| ==> BidOk(s, offers[i]) && offers[i].jobId == j
  }

  ghost predicate ResultsOk(s: Net, results: map<JobId, Result>) {
    forall j :: j in results ==> results[j].jobId == j && ResultOk(s, results[j])
  }

  /** A job is awarded once, when its own renter closes its window. */
  ghost predicate PhaseOk(s: Net, id: PeerId, r: RenterNode) {
    match r.phase
    case Ready => true
    case Bidding(j) => j in s.jobs && s.jobs[j].renter == id && j !in s.awards && j in r.bids
    case Waiting(j) => j in s.jobs && s.jobs[j].renter == id
  }

  ghost predicate RenterJobs(s: Net, id: PeerId) {
    var holds :=
      id in s.renters ==>
        BidsOk(s, s.renters[id].bids) && ResultsOk(s, s.renters[id].results) && PhaseOk(s, id, s.renters[id]);
    holds
  }

  ghost predicate JobShape(s: Net, j: JobId) {
    j in s.jobs ==> s.jobs[j].jobId == j
  }

  /** The winner is an eligible provider's bid, the cheapest of those recorded at window close. */
  ghost predicate AwardOk(s: Net, j: JobId) {
    j in s.awards ==>
      && j in s.jobs
      && var award := s.awards[j];
      && OffersOk(s, j, award.offers)
      && (exists k: nat :: FirstCheapest(award.offers, k) && award.winner == award.offers[k])
      && award.accept == AcceptOf(s.jobs[j].renter, j, award.winner)
  }

  /** What an execution reports is charged at the agreed price. */
  ghost predicate Reports(exec: Exec, result: Result) {
    && result.jobId == exec.accept.jobId && result.provider == exec.provider && result.renter == exec.accept.renter
    && result.durationSecs >= 1
    && result.costHalala == CostHalala(exec.accept.agreedPriceHalalaHr, result.durationSecs)
  }

  ghost predicate ExecOk(s: Net, k: nat) {
    k < |s.execs| ==>
      && var exec := s.execs[k];
      && Awarded(s, exec.accept) && exec.provider == exec.accept.provider
      && exec.accept.jobId in s.token && s.token[exec.accept.jobId] == Started(k)
      && (exec.result.Some? ==> Reports(exec, exec.result.value))
  }

  ghost predicate DirectOk(s: Net, result: Result) {
    result in s.direct ==> ResultOk(s, result)
  }

  // ---- There is one JOB_ACCEPT per job, and it is in one place ----

  ghost predicate TokenUp(s: Net, c: ConnId, i: nat) {
    c in s.conns && s.conns[c].up.read <= i < |s.conns[c].up.log| && s.conns[c].up.log[i].JobAccept? ==>
      var j := s.conns[c].up.log[i].accept.jobId;
      j in s.token && s.token[j] == InUp(c, i)
  }

  ghost predicate TokenDown(s: Net, c: ConnId, i: nat) {
    c in s.conns && s.conns[c].down.read <= i < |s.conns[c].down.log| && s.conns[c].down.log[i].JobAccept? ==>
      var j := s.conns[c].down.log[i].accept.jobId;
      j in s.token && s.token[j] == InDown(c, i)
  }

  ghost predicate TokenAwarded(s: Net, j: JobId) {
    j in s.token ==> j in s.awards
  }

  ghost predicate TokensOk(s: Net) {
    && (forall c, i {:trigger TokenUp(s, c, i)} :: TokenUp(s, c, i))
    && (forall c, i {:trigger TokenDown(s, c, i)} :: TokenDown(s, c, i))
    && (forall j {:trigger TokenAwarded(s, j)} :: TokenAwarded(s, j))
  }

  ghost predicate RecordsOk(s: Net) {
    && (forall j {:trigger JobShape(s, j)} :: JobShape(s, j))
    && (forall j {:trigger AwardOk(s, j)} :: AwardOk(s, j))
    && (forall k {:trigger ExecOk(s, k)} :: ExecOk(s, k))
    && (forall result {:trigger DirectOk(s, result)} :: DirectOk(s, result))
  }

  ghost predicate JobInv(s: Net) {
    var holds :=
      && (forall c {:trigger LogsOk(s, c)} :: LogsOk(s, c))
      && (forall id {:trigger RenterJobs(s, id)} :: RenterJobs(s, id))
      && RecordsOk(s) && TokensOk(s);
    holds
  }

  // ---- Nothing that was vouched for is taken back ----

  ghost predicate ProviderKept(s: Net, s': Net, id: PeerId) {
    id in s.providers ==>
      && id in s'.providers && s'.providers[id].vramGb == s.providers[id].vramGb
      && s'.providers[id].priceHalala == s.providers[id].priceHalala
  }

  ghost predicate JobKept(s: Net, s': Net, j: JobId) {
    && (j in s.jobs ==> j in s'.jobs && s'.jobs[j] == s.jobs[j])
    && (j in s.awards ==> j in s'.awards && s'.awards[j] == s.awards[j])
    && (j in s.token && s.token[j].Started? ==> j in s'.token && s'.token[j] == s.token[j])
  }

  ghost predicate ExecKept(s: Net, s': Net, k: nat) {
    k < |s.execs| ==>
      && k < |s'.execs| && s'.execs[k].accept == s.execs[k].accept && s'.execs[k].provider == s.execs[k].provider
      && (s.execs[k].result.Some? ==> s'.execs[k].result == s.execs[k].result)
  }

  ghost predicate Grows(s: Net, s': Net) {
    && (forall id {:trigger ProviderKept(s, s', id)} :: ProviderKept(s, s', id))
    && (forall j {:trigger JobKept(s, s', j)} :: JobKept(s, s', j))
    && (forall k {:trigger ExecKept(s, s', k)} :: ExecKept(s, s', k))
  }

  lemma BidKept(s: Net, s': Net, bid: Bid)
    requires Grows(s, s') && BidOk(s, bid)
    ensures BidOk(s', bid)
  {
    assert ProviderKept(s, s', bid.provider) && JobKept(s, s', bid.jobId);
  }

  lemma ResultKept(s: Net, s': Net, result: Result)
    requires Grows(s, s') && ResultOk(s, result)
    ensures ResultOk(s', result)
  {
    assert JobKept(s, s', result.jobId) && ExecKept(s, s', s.token[result.jobId].k);
  }

  lemma MsgKept(s: Net, s': Net, msg: Msg)
    requires Grows(s, s') && MsgOk(s, msg)
    ensures MsgOk(s', msg)
  {
    match msg
    case JobRequest(spec) => assert JobKept(s, s', spec.jobId);
    case JobBid(bid) => BidKept(s, s', bid);
    case JobAccept(accept) => assert JobKept(s, s', accept.jobId);
    case JobResult(result) => ResultKept(s, s', result);
    case _ =>
  }

  lemma OffersKept(s: Net, s': Net, j: JobId, offers: seq<Bid>)
    requires Grows(s, s') && OffersOk(s, j, offers)
    ensures OffersOk(s', j, offers)
  {
    forall i | 0 <= i < |offers|
      ensures BidOk(s', offers[i])
    {
      BidKept(s, s', offers[i]);
    }
  }

  lemma RenterMapsKept(s: Net, s': Net, r: RenterNode)
    requires Grows(s, s') && BidsOk(s, r.bids) && ResultsOk(s, r.results)
    ensures BidsOk(s', r.bids) && ResultsOk(s', r.results)
  {
    forall j | j in r.bids
      ensures OffersOk(s', j, r.bids[j])
    {
      OffersKept(s, s', j, r.bids[j]);
    }
    forall j | j in r.results
      ensures ResultOk(s', r.results[j])
    {
      ResultKept(s, s', r.results[j]);
    }
  }

  lemma LogKept(s: Net, s': Net, log: seq<Msg>)
    requires Grows(s, s') && forall i :: 0 <= i < |log| ==> MsgOk(s, log[i])
    ensures forall i :: 0 <= i < |log| ==> MsgOk(s', log[i])
  {
    forall i | 0 <= i < |log|
      ensures MsgOk(s', log[i])
    {
      MsgKept(s, s', log[i]);
    }
  }

  // ---- A step, connection by connection ----

  /** What a step appends to a log is at most one message, and it is vouched for. */
  ghost predicate Appends(s': Net, log: seq<Msg>, log': seq<Msg>) {
    log' == log || (|log'| == |log| + 1 && log'[..|log|] == log && MsgOk(s', log'[|log|]))
  }

  ghost predicate Moves(s: Net, s': Net, c: ConnId) {
    var holds :=
      c in s'.conns ==>
        if c in s.conns then
          && s'.conns[c].owner == s.conns[c].owner
          && Appends(s', s.conns[c].up.log, s'.conns[c].up.log)
          && Appends(s', s.conns[c].down.log, s'.conns[c].down.log)
          && (|s'.conns[c].down.log| > |s.conns[c].down.log| ==>
                var msg := s'.conns[c].down.log[|s.conns[c].down.log|];
                msg.JobAccept? ==> msg.accept.provider == s.conns[c].owner)
          && (s'.conns[c].handler.Sending?
              ==> MsgOk(s', s'.conns[c].handler.msg) && !s'.conns[c].handler.msg.JobAccept?)
        else
          |s'.conns[c].up.log| == 1 && s'.conns[c].up.log[0].PeerHello? && s'.conns[c].down.log == []
            && s'.conns[c].handler.Idle?;
    holds
  }

  lemma LogsMove(s: Net, s': Net, c: ConnId)
    requires Grows(s, s') && LogsOk(s, c) && Moves(s, s', c)
    ensures LogsOk(s', c)
  {
    if c in s.conns && c in s'.conns {
      var k, k' := s.conns[c], s'.conns[c];
      LogKept(s, s', k.up.log);
      LogKept(s, s', k.down.log);
      forall i | 0 <= i < |k'.up.log|
        ensures MsgOk(s', k'.up.log[i])
      {
        assert i < |k.up.log| ==> k'.up.log[i] == k.up.log[i];
      }
      forall i | 0 <= i < |k'.down.log|
        ensures MsgOk(s', k'.down.log[i]) && (k'.down.log[i].JobAccept? ==> k'.down.log[i].accept.provider == k'.owner)
      {
        assert i < |k.down.log| ==> k'.down.log[i] == k.down.log[i];
      }
    }
  }

  /** Cursors advance, and no JOB_ACCEPT is appended. */
  ghost predicate NoNewAccept(s: Net, s': Net, c: ConnId) {
    c in s.conns && c in s'.conns ==>
      && s.conns[c].up.read <= s'.conns[c].up.read && s.conns[c].down.read <= s'.conns[c].down.read
      && (forall i :: |s.conns[c].up.log| <= i < |s'.conns[c].up.log| ==> !s'.conns[c].up.log[i].JobAccept?)
      && (forall i :: |s.conns[c].down.log| <= i < |s'.conns[c].down.log| ==> !s'.conns[c].down.log[i].JobAccept?)
  }

  lemma TokensStay(s: Net, s': Net)
    requires TokensOk(s) && s'.token == s.token && Grows(s, s')
    requires forall c {:trigger Moves(s, s', c)} :: Moves(s, s', c)
    requires forall c {:trigger NoNewAccept(s, s', c)} :: NoNewAccept(s, s', c)
    ensures TokensOk(s')
  {
    forall c, i ensures TokenUp(s', c, i) && TokenDown(s', c, i) {
      assert TokenUp(s, c, i) && TokenDown(s, c, i) && Moves(s, s', c) && NoNewAccept(s, s', c);
      AppendsPrefix(s, s', c, i);
    }
    forall j ensures TokenAwarded(s', j) {
      assert TokenAwarded(s, j) && JobKept(s, s', j);
    }
  }

  lemma AppendsPrefix(s: Net, s': Net, c: ConnId, i: nat)
    requires Moves(s, s', c)
    ensures c in s.conns && c in s'.conns && i < |s.conns[c].up.log| ==> s'.conns[c].up.log[i] == s.conns[c].up.log[i]
    ensures c in s.conns && c in s'.conns && i < |s.conns[c].down.log|
        ==> s'.conns[c].down.log[i] == s.conns[c].down.log[i]
  {
    if c in s.conns && c in s'.conns {
      var k, k' := s.conns[c], s'.conns[c];
      if i < |k.up.log| {
        assert k'.up.log[..|k.up.log|][i] == k'.up.log[i];
      }
      if i < |k.down.log| {
        assert k'.down.log[..|k.down.log|][i] == k'.down.log[i];
      }
    }
  }

  lemma RecordsStay(s: Net, s': Net)
    requires RecordsOk(s) && Grows(s, s')
    requires s'.jobs == s.jobs && s'.awards == s.awards && s'.execs == s.execs && s'.direct <= s.direct
    ensures RecordsOk(s')
  {
    forall j ensures JobShape(s', j) {
      assert JobShape(s, j);
    }
    forall j ensures AwardOk(s', j) {
      assert AwardOk(s, j);
      if j in s.awards {
        AwardKept(s, s', j);
      }
    }
    forall k: nat ensures ExecOk(s', k) {
      assert ExecOk(s, k);
      if k < |s.execs| {
        assert JobKept(s, s', s.execs[k].accept.jobId);
      }
    }
    forall result ensures DirectOk(s', result) {
      assert DirectOk(s, result);
      if result in s'.direct {
        ResultKept(s, s', result);
      }
    }
  }

  lemma AwardKept(s: Net, s': Net, j: JobId)
    requires Grows(s, s') && AwardOk(s, j) && j in s.awards
    ensures AwardOk(s', j)
  {
    assert JobKept(s, s', j);
    OffersKept(s, s', j, s.awards[j].offers);
  }

  ghost predicate RenterJobsSame(s: Net, s': Net, id: PeerId) {
    id in s'.renters ==>
      if id in s.renters then
        && s'.renters[id].bids == s.renters[id].bids && s'.renters[id].results == s.renters[id].results
        && s'.renters[id].phase == s.renters[id].phase
      else
        s'.renters[id].bids == map[] && s'.renters[id].results == map[] && s'.renters[id].phase.Ready?
  }

  lemma RenterJobsStay(s: Net, s': Net, id: PeerId)
    requires Grows(s, s') && RenterJobs(s, id) && RenterJobsSame(s, s', id)
    requires s'.awards == s.awards
    ensures RenterJobs(s', id)
  {
    if id in s'.renters && id in s.renters {
      RenterMapsKept(s, s', s.renters[id]);
      match s.renters[id].phase
      case Ready =>
      case Bidding(j) => assert JobKept(s, s', j);
      case Waiting(j) => assert JobKept(s, s', j);
    }
  }

  /** A step that touches no job record, no token and no renter's job state. */
  ghost predicate JobsUntouched(s: Net, s': Net) {
    && s'.jobs == s.jobs && s'.awards == s.awards && s'.execs == s.execs && s'.token == s.token && s'.direct == s.direct
    && (forall id {:trigger ProviderKept(s, s', id)} :: ProviderKept(s, s', id))
    && (forall id {:trigger RenterJobsSame(s, s', id)} :: RenterJobsSame(s, s', id))
  }

  lemma PlainStep(s: Net, s': Net)
    requires JobInv(s) && JobsUntouched(s, s')
    requires forall c {:trigger Moves(s, s', c)} :: Moves(s, s', c)
    requires forall c {:trigger NoNewAccept(s, s', c)} :: NoNewAccept(s, s', c)
    ensures JobInv(s')
  {
    assert Grows(s, s');
    TokensStay(s, s');
    TokenStep(s, s');
  }

  /** A step that at most moves a token. */
  lemma TokenStep(s: Net, s': Net)
    requires JobInv(s) && Grows(s, s') && TokensOk(s')
    requires s'.jobs == s.jobs && s'.awards == s.awards && s'.execs == s.execs && s'.direct <= s.direct
    requires forall id {:trigger RenterJobsSame(s, s', id)} :: RenterJobsSame(s, s', id)
    requires forall c {:trigger Moves(s, s', c)} :: Moves(s, s', c)
    ensures JobInv(s')
  {
    forall c ensures LogsOk(s', c) {
      assert LogsOk(s, c) && Moves(s, s', c);
      LogsMove(s, s', c);
    }
    forall id ensures RenterJobs(s', id) {
      assert RenterJobs(s, id) && RenterJobsSame(s, s', id);
      RenterJobsStay(s, s', id);
    }
    RecordsStay(s, s');
  }
}
