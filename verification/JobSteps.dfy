/** Every event keeps the job invariant. */
module JobSteps {
  import opened Ids
  import opened Options
  import opened P2PTypes
  import opened RenterSide
  import opened ProviderSide
  import opened Network
  import opened Coherence
  import opened CoherenceSteps
  import opened JobSafety

  // ---- Events that touch no job record ----

  /** Only connection `c` changes. */
  lemma PlainOne(s: Net, s': Net, c: ConnId)
    requires Inv(s) && JobInv(s) && JobsUntouched(s, s')
    requires c in s'.conns && s'.conns == s.conns[c := s'.conns[c]] && Moves(s, s', c) && NoNewAccept(s, s', c)
    ensures JobInv(s')
  {
    forall x ensures Moves(s, s', x) && NoNewAccept(s, s', x) {
      assert LogsOk(s, x) && ConnShape(s, x);
      if x != c && x in s.conns && s.conns[x].handler.Sending? {
        MsgKept(s, s', s.conns[x].handler.msg);
      }
    }
    PlainStep(s, s');
  }

  lemma ConnectProviderJobs(s: Net, c: ConnId, id: PeerId, vramGb: int, priceHalala: int, capacity: Capacity)
    requires Inv(s) && JobInv(s) && CanConnectProvider(s, c, id, vramGb, priceHalala, capacity)
    ensures JobInv(AfterConnectProvider(s, c, id, vramGb, priceHalala, capacity))
  {
    PlainOne(s, AfterConnectProvider(s, c, id, vramGb, priceHalala, capacity), c);
  }

  lemma ConnectRenterJobs(s: Net, c: ConnId, id: PeerId, minVramGb: int, maxPriceHalalaHr: int, timeoutSecs: int)
    requires Inv(s) && JobInv(s) && CanConnectRenter(s, c, id)
    ensures JobInv(AfterConnectRenter(s, c, id, minVramGb, maxPriceHalalaHr, timeoutSecs))
  {
    PlainOne(s, AfterConnectRenter(s, c, id, minVramGb, maxPriceHalalaHr, timeoutSecs), c);
  }

  lemma CloseJobs(s: Net, c: ConnId)
    requires Inv(s) && JobInv(s) && CanClose(s, c)
    ensures JobInv(AfterClose(s, c))
  {
    assert LogsOk(s, c) && ConnShape(s, c);
    PlainOne(s, AfterClose(s, c), c);
  }

  lemma ServeHelloJobs(s: Net, c: ConnId, list: seq<Entry>)
    requires Inv(s) && JobInv(s) && CanServeHello(s, c, list)
    ensures JobInv(AfterServeHello(s, c, list))
  {
    assert LogsOk(s, c) && ConnShape(s, c);
    PlainOne(s, AfterServeHello(s, c, list), c);
  }

  lemma BeginAnnounceJobs(s: Net, c: ConnId, targets: seq<ConnId>)
    requires Inv(s) && JobInv(s) && CanBeginAnnounce(s, c, targets)
    ensures JobInv(AfterBeginAnnounce(s, c, targets))
  {
    assert LogsOk(s, c) && ConnShape(s, c);
    PlainOne(s, AfterBeginAnnounce(s, c, targets), c);
  }

  lemma RouteAnnounceJobs(s: Net, c: ConnId, targets: seq<ConnId>)
    requires Inv(s) && JobInv(s) && CanRouteAnnounce(s, c, targets)
    ensures JobInv(AfterRouteAnnounce(s, c, targets))
  {
    assert LogsOk(s, c) && ConnShape(s, c);
    PlainOne(s, AfterRouteAnnounce(s, c, targets), c);
  }

  lemma RouteRequestJobs(s: Net, c: ConnId, targets: seq<ConnId>)
    requires Inv(s) && JobInv(s) && CanRouteRequest(s, c, targets)
    ensures JobInv(AfterRouteRequest(s, c, targets))
  {
    var s' := AfterRouteRequest(s, c, targets);
    assert LogsOk(s, c) && ConnShape(s, c);
    MsgKept(s, s', NextUp(s, c));
    PlainOne(s, s', c);
  }

  lemma CleanupJobs(s: Net, c: ConnId, targets: seq<ConnId>)
    requires Inv(s) && JobInv(s) && CanCleanup(s, c, targets)
    ensures JobInv(AfterCleanup(s, c, targets))
  {
    assert LogsOk(s, c) && ConnShape(s, c);
    PlainOne(s, AfterCleanup(s, c, targets), c);
  }

  lemma HeartbeatJobs(s: Net, c: ConnId, capacity: Capacity)
    requires Inv(s) && JobInv(s) && CanHeartbeat(s, c, capacity)
    ensures JobInv(AfterHeartbeat(s, c, capacity))
  {
    var s' := AfterHeartbeat(s, c, capacity);
    assert LogsOk(s, c) && ConnShape(s, c);
    if s.conns[c].handler.Sending? {
      MsgKept(s, s', s.conns[c].handler.msg);
    }
    PlainOne(s, s', c);
  }

  lemma SendNextJobs(s: Net, c: ConnId)
    requires Inv(s) && JobInv(s) && CanSendNext(s, c)
    ensures JobInv(AfterSendNext(s, c))
  {
    var s' := AfterSendNext(s, c);
    var t, msg := s.conns[c].handler.targets[0], s.conns[c].handler.msg;
    assert JobsUntouched(s, s');
    assert LogsOk(s, c);
    MsgKept(s, s', msg);
    forall x ensures Moves(s, s', x) && NoNewAccept(s, s', x) {
      assert LogsOk(s, x) && ConnShape(s, x);
      if x in s.conns && s.conns[x].handler.Sending? {
        MsgKept(s, s', s.conns[x].handler.msg);
      }
      if x in s.conns && x == t {
        assert s'.conns[t].down.log == s.conns[t].down.log + [msg];
      }
    }
    PlainStep(s, s');
  }

  // ---- Relaying to one peer ----

  /** The connection a relayed message goes to, if its addressee is registered. */
  function Destination(s: Net, c: ConnId): Option<ConnId>
    requires CanRouteTo(s, c)
  {
    var to := Addressee(NextUp(s, c)).value;
    if to in s.reg && s.reg[to].conn in s.conns then Some(s.reg[to].conn) else None
  }

  lemma RouteConns(s: Net, c: ConnId)
    requires CanRouteTo(s, c)
    ensures AfterRouteTo(s, c).conns
         == match Destination(s, c)
            case Some(d) => PushDown(ReadUp(s.conns, c, Idle), d, NextUp(s, c))
            case None => ReadUp(s.conns, c, Idle)
  {
  }

  lemma PushedConn(conns: map<ConnId, Conn>, d: ConnId, msg: Msg, x: ConnId)
    requires x in conns
    ensures var conns' := PushDown(conns, d, msg);
      x in conns' && conns'[x] == if x == d then conns[x].(down := Push(conns[x].down, msg)) else conns[x]
  {
  }

  /**
   * What relaying does to one connection: the addressee's gets the message, the sender's has it read, no
   * other changes.
   */
  lemma RouteConn(s: Net, c: ConnId, x: ConnId)
    requires CanRouteTo(s, c) && x in s.conns
    ensures var s' := AfterRouteTo(s, c);
      && x in s'.conns && s'.conns[x].owner == s.conns[x].owner && s'.conns[x].role == s.conns[x].role
      && s'.conns[x].up.log == s.conns[x].up.log
      && s'.conns[x].up.read == s.conns[x].up.read + (if x == c then 1 else 0)
      && s'.conns[x].down.read == s.conns[x].down.read
      && (if Destination(s, c) == Some(x)
          then s'.conns[x].down.log == s.conns[x].down.log + [NextUp(s, c)]
               && Addressee(NextUp(s, c)).value in s.reg && s.reg[Addressee(NextUp(s, c)).value].conn == x
          else s'.conns[x].down.log == s.conns[x].down.log)
      && s'.conns[x].handler == (if x == c then Idle else s.conns[x].handler)
  {
    RouteConns(s, c);
    hide AfterRouteTo, PushDown;
    var d := Destination(s, c);
    if d.Some? {
      PushedConn(ReadUp(s.conns, c, Idle), d.value, NextUp(s, c), x);
    }
  }

  lemma RouteMoves(s: Net, s': Net, c: ConnId, x: ConnId)
    requires Inv(s) && JobInv(s) && CanRouteTo(s, c) && s' == AfterRouteTo(s, c) && MsgOk(s', NextUp(s, c))
        && Grows(s, s')
    ensures Moves(s, s', x)
  {
    hide MsgOk, Grows;
    if x in s.conns {
      RouteConn(s, c, x);
      hide AfterRouteTo, ReadUp;
      assert LogsOk(s, x) && ConnShape(s, x);
      assert RegShape(s, Addressee(NextUp(s, c)).value);
      if s.conns[x].handler.Sending? {
        MsgKept(s, s', s.conns[x].handler.msg);
      }
    }
  }

  lemma RouteTouchesNoJob(s: Net, c: ConnId)
    requires CanRouteTo(s, c) && !NextUp(s, c).JobAccept?
    ensures JobsUntouched(s, AfterRouteTo(s, c)) && Grows(s, AfterRouteTo(s, c))
  {
  }

  lemma RouteOtherJobs(s: Net, c: ConnId)
    requires Inv(s) && JobInv(s) && CanRouteTo(s, c) && !NextUp(s, c).JobAccept?
    ensures JobInv(AfterRouteTo(s, c))
  {
    var s' := AfterRouteTo(s, c);
    assert LogsOk(s, c);
    RouteTouchesNoJob(s, c);
    MsgKept(s, s', NextUp(s, c));
    hide AfterRouteTo, JobsUntouched, Grows, MsgOk, LogsOk, Inv;
    forall x ensures Moves(s, s', x) && NoNewAccept(s, s', x) {
      RouteMoves(s, s', c, x);
      RouteAppends(s, c, x);
    }
    PlainStep(s, s');
  }

  lemma RouteAppends(s: Net, c: ConnId, x: ConnId)
    requires CanRouteTo(s, c) && !NextUp(s, c).JobAccept?
    ensures NoNewAccept(s, AfterRouteTo(s, c), x)
  {
    if x in s.conns {
      RouteConn(s, c, x);
    }
    hide AfterRouteTo, Destination;
  }

  /** Relaying an accept touches nothing but the channels and where that accept is. */
  lemma RouteAcceptToken(s: Net, c: ConnId)
    requires CanRouteTo(s, c) && NextUp(s, c).JobAccept?
    ensures var s' := AfterRouteTo(s, c); var j := NextUp(s, c).accept.jobId;
      && s'.token == (match Destination(s, c)
                      case Some(d) => s.token[j := InDown(d, |s.conns[d].down.log|)]
                      case None => s.token)
      && s'.jobs == s.jobs && s'.awards == s.awards && s'.execs == s.execs && s'.direct == s.direct
      && s'.renters == s.renters && s'.providers == s.providers
      && s'.conns.Keys == s.conns.Keys
  {
  }

  /** A job's accept is where its token says, before and after. */
  lemma RouteTokens(s: Net, c: ConnId, x: ConnId, i: nat)
    requires Inv(s) && JobInv(s) && CanRouteTo(s, c) && NextUp(s, c).JobAccept?
    ensures TokenUp(AfterRouteTo(s, c), x, i) && TokenDown(AfterRouteTo(s, c), x, i)
  {
    assert TokenUp(s, x, i) && TokenDown(s, x, i) && TokenUp(s, c, s.conns[c].up.read);
    RouteAcceptToken(s, c);
    if x in s.conns {
      RouteConn(s, c, x);
    }
    hide AfterRouteTo, Inv, JobInv;
  }

  lemma RouteAcceptJobs(s: Net, c: ConnId)
    requires Inv(s) && JobInv(s) && CanRouteTo(s, c) && NextUp(s, c).JobAccept?
    ensures JobInv(AfterRouteTo(s, c))
  {
    var s' := AfterRouteTo(s, c);
    var j := NextUp(s, c).accept.jobId;
    assert LogsOk(s, c) && TokenUp(s, c, s.conns[c].up.read);
    RouteAcceptToken(s, c);
    hide AfterRouteTo, Destination;
    MsgKept(s, s', NextUp(s, c));
    forall x ensures Moves(s, s', x) {
      RouteMoves(s, s', c, x);
    }
    forall x, i ensures TokenUp(s', x, i) && TokenDown(s', x, i) {
      RouteTokens(s, c, x, i);
    }
    forall i ensures TokenAwarded(s', i) {
      assert TokenAwarded(s, i) && TokenAwarded(s, j);
    }
    TokenStep(s, s');
  }

  // ---- Providers ----

  /** A provider reads a message that is not a JOB_ACCEPT. */
  lemma ReadDownJobs(s: Net, c: ConnId)
    requires Inv(s) && JobInv(s) && CanDeliverToProvider(s, c)
    ensures Inv(s.(conns := ReadDown(s.conns, c))) && JobInv(s.(conns := ReadDown(s.conns, c)))
  {
    ReadDownStays(s, c);
    HandlerMsgStays(s, s.(conns := ReadDown(s.conns, c)), c);
    PlainOne(s, s.(conns := ReadDown(s.conns, c)), c);
  }

  lemma HandlerMsgStays(s: Net, s': Net, c: ConnId)
    requires JobInv(s) && JobsUntouched(s, s') && c in s.conns
    ensures s.conns[c].handler.Sending? ==> MsgOk(s', s.conns[c].handler.msg) && !s.conns[c].handler.msg.JobAccept?
  {
    assert LogsOk(s, c);
    if s.conns[c].handler.Sending? {
      MsgKept(s, s', s.conns[c].handler.msg);
    }
  }

  lemma SendBidJobs(s: Net, c: ConnId, bid: Bid)
    requires Inv(s) && JobInv(s) && c in s.conns && BidOk(s, bid)
    ensures JobInv(s.(conns := PushUp(s.conns, c, JobBid(bid))))
  {
    var s' := s.(conns := PushUp(s.conns, c, JobBid(bid)));
    HandlerMsgStays(s, s', c);
    assert BidOk(s', bid);
    PlainOne(s, s', c);
  }

  lemma DeliverOtherJobs(s: Net, c: ConnId)
    requires Inv(s) && JobInv(s) && CanDeliverToProvider(s, c) && !NextDown(s, c).JobAccept?
    ensures JobInv(AfterDeliverToProvider(s, c))
  {
    var mid := s.(conns := ReadDown(s.conns, c));
    var node := s.providers[s.conns[c].owner];
    ReadDownJobs(s, c);
    if NextDown(s, c).JobRequest? && Eligible(node.vramGb, node.priceHalala, NextDown(s, c).spec) {
      OfferIsOk(s, c);
      var bid := BidFor(s.conns[c].owner, node.vramGb, node.priceHalala, NextDown(s, c).spec);
      assert BidOk(mid, bid);
      SendBidJobs(mid, c, bid);
    }
  }

  lemma OfferIsOk(s: Net, c: ConnId)
    requires JobInv(s) && CanDeliverToProvider(s, c) && NextDown(s, c).JobRequest?
    ensures var node := s.providers[s.conns[c].owner];
            Eligible(node.vramGb, node.priceHalala, NextDown(s, c).spec) ==>
              BidOk(s, BidFor(s.conns[c].owner, node.vramGb, node.priceHalala, NextDown(s, c).spec))
  {
    assert LogsOk(s, c);
    assert MsgOk(s, NextDown(s, c));
    assert JobShape(s, NextDown(s, c).spec.jobId);
  }

  lemma DeliverAcceptJobs(s: Net, c: ConnId)
    requires Inv(s) && JobInv(s) && CanDeliverToProvider(s, c) && NextDown(s, c).JobAccept?
    ensures JobInv(AfterDeliverToProvider(s, c))
  {
    var s' := AfterDeliverToProvider(s, c);
    var accept := NextDown(s, c).accept;
    assert LogsOk(s, c) && TokenDown(s, c, s.conns[c].down.read);
    assert MsgOk(s, NextDown(s, c));
    assert Grows(s, s');
    forall x ensures LogsOk(s', x) {
      assert LogsOk(s, x);
      if x in s.conns {
        LogKept(s, s', s.conns[x].up.log);
        LogKept(s, s', s.conns[x].down.log);
        if s.conns[x].handler.Sending? {
          MsgKept(s, s', s.conns[x].handler.msg);
        }
      }
    }
    forall id ensures RenterJobs(s', id) {
      assert RenterJobs(s, id);
      RenterJobsStay(s, s', id);
    }
    forall x, i ensures TokenUp(s', x, i) && TokenDown(s', x, i) {
      assert TokenUp(s, x, i) && TokenDown(s, x, i);
    }
    forall i ensures TokenAwarded(s', i) {
      assert TokenAwarded(s, i) && TokenAwarded(s, accept.jobId);
    }
    StartedRecords(s, s', accept);
  }

  lemma StartedRecords(s: Net, s': Net, accept: Accept)
    requires RecordsOk(s) && Grows(s, s') && Awarded(s, accept)
    requires s'.jobs == s.jobs && s'.awards == s.awards && s'.direct == s.direct
    requires s'.execs == s.execs + [Exec(accept.provider, accept, None)]
    requires accept.jobId in s'.token && s'.token[accept.jobId] == Started(|s.execs|)
    ensures RecordsOk(s')
  {
    forall j ensures JobShape(s', j) && AwardOk(s', j) {
      assert JobShape(s, j) && AwardOk(s, j);
      if j in s.awards {
        AwardKept(s, s', j);
      }
    }
    forall k: nat ensures ExecOk(s', k) {
      assert ExecOk(s, k) && ExecKept(s, s', k);
      if k < |s.execs| {
        assert JobKept(s, s', s.execs[k].accept.jobId);
      }
    }
    forall result ensures DirectOk(s', result) {
      assert DirectOk(s, result);
      if result in s.direct {
        ResultKept(s, s', result);
      }
    }
  }

  lemma FinishJobs(s: Net, k: nat, success: bool, output: string, elapsedSecs: int, direct: bool, relayed: bool)
    requires Inv(s) && JobInv(s) && CanFinish(s, k)
    ensures var result := ResultFor(s.execs[k].provider, s.execs[k].accept, success, output, elapsedSecs);
            JobInv(AfterFinish(s, k, result, direct, relayed))
  {
    var result := ResultFor(s.execs[k].provider, s.execs[k].accept, success, output, elapsedSecs);
    var s' := AfterFinish(s, k, result, direct, relayed);
    assert ExecOk(s, k);
    assert Grows(s, s');
    assert ResultOk(s', result);
    forall x ensures Moves(s, s', x) && NoNewAccept(s, s', x) {
      FinishMoves(s, s', k, result, x);
    }
    forall x ensures LogsOk(s', x) {
      assert LogsOk(s, x);
      LogsMove(s, s', x);
    }
    forall id ensures RenterJobs(s', id) {
      assert RenterJobs(s, id);
      RenterJobsStay(s, s', id);
    }
    TokensStay(s, s');
    FinishedRecords(s, s', k, result);
  }

  lemma FinishMoves(s: Net, s': Net, k: nat, result: Result, x: ConnId)
    requires Inv(s) && JobInv(s) && Grows(s, s') && ResultOk(s', result)
    requires s'.conns == s.conns || exists c :: c in s.conns && s'.conns == PushUp(s.conns, c, JobResult(result))
    ensures Moves(s, s', x) && NoNewAccept(s, s', x)
  {
    assert LogsOk(s, x) && ConnShape(s, x);
    if x in s.conns && s.conns[x].handler.Sending? {
      MsgKept(s, s', s.conns[x].handler.msg);
    }
  }

  lemma FinishedRecords(s: Net, s': Net, k: nat, result: Result)
    requires RecordsOk(s) && Grows(s, s') && k < |s.execs| && ResultOk(s', result) && Reports(s.execs[k], result)
    requires s'.jobs == s.jobs && s'.awards == s.awards && s'.token == s.token && s'.direct <= s.direct + {result}
    requires s'.execs == s.execs[k := s.execs[k].(result := Some(result))]
    ensures RecordsOk(s')
  {
    forall j ensures JobShape(s', j) && AwardOk(s', j) {
      assert JobShape(s, j) && AwardOk(s, j);
      if j in s.awards {
        AwardKept(s, s', j);
      }
    }
    forall i: nat ensures ExecOk(s', i) {
      assert ExecOk(s, i);
    }
    forall r ensures DirectOk(s', r) {
      assert DirectOk(s, r);
      if r in s.direct {
        ResultKept(s, s', r);
      }
    }
  }

  // ---- Renters ----

  /** Renter `id`'s job state changes, on its own; nothing is sent. */
  lemma RenterStep(s: Net, s': Net, id: PeerId)
    requires JobInv(s) && s'.jobs == s.jobs && s'.awards == s.awards && s'.execs == s.execs && s'.token == s.token
    requires s'.direct <= s.direct && s'.providers == s.providers
    requires id in s.renters && id in s'.renters && s'.renters == s.renters[id := s'.renters[id]] && RenterJobs(s', id)
    requires forall c {:trigger Moves(s, s', c)} :: Moves(s, s', c)
    requires forall c {:trigger NoNewAccept(s, s', c)} :: NoNewAccept(s, s', c)
    ensures JobInv(s')
  {
    assert Grows(s, s');
    forall c ensures LogsOk(s', c) {
      assert LogsOk(s, c) && Moves(s, s', c);
      LogsMove(s, s', c);
    }
    forall x ensures RenterJobs(s', x) {
      assert RenterJobs(s, x);
      if x != id {
        RenterJobsStay(s, s', x);
      }
    }
    RecordsStay(s, s');
    TokensStay(s, s');
  }

  lemma DispatchOk(s: Net, s': Net, id: PeerId, msg: Msg)
    requires Grows(s, s') && RenterJobs(s, id) && id in s.renters && MsgOk(s, msg)
    requires s'.jobs == s.jobs && s'.awards == s.awards
    requires id in s'.renters && s'.renters[id] == Dispatched(s.renters[id], msg)
    ensures RenterJobs(s', id)
  {
    RenterMapsKept(s, s', s.renters[id]);
    MsgKept(s, s', msg);
    var bids := BidsAfter(s.renters[id].bids, msg);
    forall j | j in bids
      ensures OffersOk(s', j, bids[j])
    {
      assert OffersOk(s', j, s.renters[id].bids[j]);
    }
  }

  lemma Standstill(s: Net, s': Net, x: ConnId)
    requires JobInv(s) && Grows(s, s') && s'.conns == s.conns
    ensures Moves(s, s', x) && NoNewAccept(s, s', x)
  {
    assert LogsOk(s, x);
    if x in s.conns && s.conns[x].handler.Sending? {
      MsgKept(s, s', s.conns[x].handler.msg);
    }
  }

  lemma DeliverToRenterJobs(s: Net, c: ConnId)
    requires Inv(s) && JobInv(s) && CanDeliverToRenter(s, c)
    ensures JobInv(AfterDeliverToRenter(s, c))
  {
    var s' := AfterDeliverToRenter(s, c);
    var id := s.conns[c].owner;
    assert LogsOk(s, c) && RenterJobs(s, id);
    assert MsgOk(s, NextDown(s, c));
    assert Grows(s, s');
    DispatchOk(s, s', id, NextDown(s, c));
    forall x ensures Moves(s, s', x) && NoNewAccept(s, s', x) {
      assert LogsOk(s, x);
      if x in s.conns && s.conns[x].handler.Sending? {
        MsgKept(s, s', s.conns[x].handler.msg);
      }
    }
    RenterStep(s, s', id);
  }

  lemma DeliverDirectJobs(s: Net, id: PeerId, result: Result)
    requires Inv(s) && JobInv(s) && CanDeliverDirect(s, id, result)
    ensures JobInv(AfterDeliverDirect(s, id, result))
  {
    var s' := AfterDeliverDirect(s, id, result);
    assert RenterJobs(s, id) && DirectOk(s, result);
    assert Grows(s, s');
    assert MsgOk(s, JobResult(result));
    DispatchOk(s, s', id, JobResult(result));
    forall x ensures Moves(s, s', x) && NoNewAccept(s, s', x) {
      Standstill(s, s', x);
    }
    RenterStep(s, s', id);
  }

  lemma StopWaitingJobs(s: Net, id: PeerId)
    requires Inv(s) && JobInv(s) && CanStopWaiting(s, id)
    ensures JobInv(AfterStopWaiting(s, id))
  {
    var s' := AfterStopWaiting(s, id);
    assert RenterJobs(s, id);
    assert Grows(s, s');
    RenterMapsKept(s, s', s.renters[id]);
    forall x ensures Moves(s, s', x) && NoNewAccept(s, s', x) {
      Standstill(s, s', x);
    }
    RenterStep(s, s', id);
  }

  /** Records that are only added to. */
  lemma RecordsGrow(s: Net, s': Net, j: JobId)
    requires RecordsOk(s) && Grows(s, s') && s'.execs == s.execs && s'.direct == s.direct
    requires forall i {:trigger JobKept(s, s', i)} ::
      i != j ==> (i in s'.jobs <==> i in s.jobs) && (i in s'.awards <==> i in s.awards)
    requires JobShape(s', j) && AwardOk(s', j)
    ensures RecordsOk(s')
  {
    forall i ensures JobShape(s', i) && AwardOk(s', i) {
      assert JobShape(s, i) && AwardOk(s, i) && JobKept(s, s', i);
      if i in s.awards {
        AwardKept(s, s', i);
      }
    }
    forall k: nat ensures ExecOk(s', k) {
      assert ExecOk(s, k);
      if k < |s.execs| {
        assert JobKept(s, s', s.execs[k].accept.jobId);
      }
    }
    forall r ensures DirectOk(s', r) {
      assert DirectOk(s, r);
      if r in s.direct {
        ResultKept(s, s', r);
      }
    }
  }

  /** A client appends one vouched-for message. */
  lemma SendMoves(s: Net, s': Net, c: ConnId, msg: Msg, x: ConnId)
    requires LogsOk(s, x) && Grows(s, s') && s'.conns == PushUp(s.conns, c, msg) && MsgOk(s', msg)
    ensures Moves(s, s', x)
  {
    if x in s.conns && s.conns[x].handler.Sending? {
      MsgKept(s, s', s.conns[x].handler.msg);
    }
  }

  lemma SubmitJobs(s: Net, id: PeerId, j: JobId)
    requires Inv(s) && JobInv(s) && CanSubmit(s, id, j)
    ensures JobInv(AfterSubmit(s, id, j))
  {
    var s' := AfterSubmit(s, id, j);
    var msg := JobRequest(SpecOf(id, j, s.renters[id]));
    assert AwardOk(s, j);
    assert Grows(s, s');
    forall x ensures LogsOk(s', x) && Moves(s, s', x) {
      assert LogsOk(s, x);
      SendMoves(s, s', s.renters[id].conn, msg, x);
      LogsMove(s, s', x);
    }
    forall x ensures RenterJobs(s', x) {
      assert RenterJobs(s, x);
      if x in s.renters {
        RenterMapsKept(s, s', s.renters[x]);
      }
    }
    forall x ensures NoNewAccept(s, s', x) {
    }
    TokensStay(s, s');
    RecordsGrow(s, s', j);
  }

  lemma ChooseGrows(s: Net, id: PeerId, k: nat)
    requires JobInv(s) && CanChoose(s, id, k)
    ensures Grows(s, AfterChoose(s, id, k)) && AwardOk(AfterChoose(s, id, k), s.renters[id].phase.job)
    ensures s.renters[id].phase.job !in s.token && s.renters[id].phase.job !in s.awards
  {
    var s' := AfterChoose(s, id, k);
    var r := s.renters[id];
    var j := r.phase.job;
    assert RenterJobs(s, id) && TokenAwarded(s, j);
    assert Grows(s, s');
    OffersKept(s, s', j, r.bids[j]);
  }

  lemma ChooseJobs(s: Net, id: PeerId, k: nat)
    requires Inv(s) && JobInv(s) && CanChoose(s, id, k)
    ensures JobInv(AfterChoose(s, id, k))
  {
    var s' := AfterChoose(s, id, k);
    var r := s.renters[id];
    var j := r.phase.job;
    var msg := JobAccept(AcceptOf(id, j, r.bids[j][k]));
    ChooseGrows(s, id, k);
    assert JobShape(s, j) && RenterJobs(s, id);
    forall x ensures LogsOk(s', x) {
      assert LogsOk(s, x);
      SendMoves(s, s', r.conn, msg, x);
      LogsMove(s, s', x);
    }
    forall x ensures RenterJobs(s', x) {
      assert RenterJobs(s, x);
      if x in s.renters {
        RenterMapsKept(s, s', s.renters[x]);
      }
    }
    forall x, i ensures TokenUp(s', x, i) && TokenDown(s', x, i) {
      assert TokenUp(s, x, i) && TokenDown(s, x, i);
    }
    forall i ensures TokenAwarded(s', i) {
      assert TokenAwarded(s, i);
    }
    RecordsGrow(s, s', j);
  }

  // ---- Every event ----

  lemma JobInvStep(s: Net, e: Event)
    requires Inv(s) && JobInv(s) && Enabled(s, e)
    ensures JobInv(After(s, e))
  {
    match e
    case ConnectProvider(c, id, vramGb, priceHalala, capacity) =>
      ConnectProviderJobs(s, c, id, vramGb, priceHalala, capacity);
    case ConnectRenter(c, id, vram, price, timeout) => ConnectRenterJobs(s, c, id, vram, price, timeout);
    case Close(c) => CloseJobs(s, c);
    case ServeHello(c, list) => ServeHelloJobs(s, c, list);
    case BeginAnnounce(c, targets) => BeginAnnounceJobs(s, c, targets);
    case RouteAnnounce(c, targets) => RouteAnnounceJobs(s, c, targets);
    case RouteRequest(c, targets) => RouteRequestJobs(s, c, targets);
    case RouteTo(c) =>
      if NextUp(s, c).JobAccept? {
        RouteAcceptJobs(s, c);
      } else {
        RouteOtherJobs(s, c);
      }
    case SendNext(c) => SendNextJobs(s, c);
    case Cleanup(c, targets) => CleanupJobs(s, c, targets);
    case Heartbeat(c, capacity) => HeartbeatJobs(s, c, capacity);
    case DeliverToProvider(c) =>
      if NextDown(s, c).JobAccept? {
        DeliverAcceptJobs(s, c);
      } else {
        DeliverOtherJobs(s, c);
      }
    case DeliverToRenter(c) => DeliverToRenterJobs(s, c);
    case DeliverDirect(id, result) => DeliverDirectJobs(s, id, result);
    case Submit(id, job) => SubmitJobs(s, id, job);
    case Choose(id, k) => ChooseJobs(s, id, k);
    case StopWaiting(id) => StopWaitingJobs(s, id);
    case Finish(k, success, output, elapsedSecs, direct, relayed) =>
      FinishJobs(s, k, success, output, elapsedSecs, direct, relayed);
  }
}
