/** What reaches a renter stays with it, and a job asks for what its renter wants: over every run. */
module Deliveries {
  import opened Ids
  import opened Options
  import opened P2PTypes
  import opened Relay
  import opened RenterSide
  import opened ProviderSide
  import opened Network
  import opened Coherence
  import opened JobSafety
  import opened JobSteps
  import opened JobTheorems

  // ---- What no event takes away ----

  ghost predicate SameWishes(s: Net, s': Net, id: PeerId) {
    id in s.renters ==>
      && id in s'.renters && s'.renters[id].conn == s.renters[id].conn
      && s'.renters[id].minVramGb == s.renters[id].minVramGb
      && s'.renters[id].maxPriceHalalaHr == s.renters[id].maxPriceHalalaHr
      && s'.renters[id].timeoutSecs == s.renters[id].timeoutSecs
      && s.renters[id].results.Keys <= s'.renters[id].results.Keys
  }

  ghost predicate HoldsResultOf(s: Net, id: PeerId, msg: Msg) {
    msg.JobResult? ==> id in s.renters && msg.result.jobId in s.renters[id].results
  }

  /** A connection's queue only grows, and what a renter reads next it then holds. */
  ghost predicate QueueKept(s: Net, s': Net, c: ConnId) {
    c in s'.conns ==>
      if c !in s.conns then s'.conns[c].down.read == 0
      else
        && s'.conns[c].owner == s.conns[c].owner && s'.conns[c].role == s.conns[c].role
        && s.conns[c].down.log <= s'.conns[c].down.log
        && (s'.conns[c].down.read == s.conns[c].down.read
            || (&& s'.conns[c].down.read == s.conns[c].down.read + 1 && HasUnread(s.conns[c].down)
                && (s.conns[c].role.Renter? ==>
                      HoldsResultOf(s', s.conns[c].owner, s.conns[c].down.log[s.conns[c].down.read]))))
  }

  /** A job comes from a renter and asks for what it wants. */
  ghost predicate AsksForWishes(s: Net, j: JobId) {
    j in s.jobs ==>
      && var spec := s.jobs[j];
      && spec.jobId == j && spec.renter in s.renters
      && spec.minVramGb == s.renters[spec.renter].minVramGb
      && spec.maxPriceHalalaHr == s.renters[spec.renter].maxPriceHalalaHr
      && spec.timeoutSecs == s.renters[spec.renter].timeoutSecs
  }

  ghost predicate NewJobAsks(s: Net, s': Net, j: JobId) {
    if j in s.jobs then j in s'.jobs && s'.jobs[j] == s.jobs[j] else AsksForWishes(s', j)
  }

  /** A payload sent straight to a renter stays under way until the renter holds it. */
  ghost predicate DirectKept(s: Net, s': Net, result: Result) {
    result in s.direct ==>
      || result in s'.direct
      || (&& result.renter in s'.renters && result.jobId in s'.renters[result.renter].results
          && s'.renters[result.renter].results[result.jobId] == result)
  }

  /** A job is awarded by its own renter closing its window, on all the bids it has then. */
  ghost predicate ChosenNow(s: Net, award: Award, j: JobId) {
    && award.accept.renter in s.renters
    && var r := s.renters[award.accept.renter];
    && r.phase == Bidding(j) && j in r.bids && r.bids[j] == award.offers
  }

  ghost predicate NewAwardIsChosen(s: Net, s': Net, j: JobId) {
    j in s'.awards ==> (j in s.awards && s'.awards[j] == s.awards[j]) || ChosenNow(s, s'.awards[j], j)
  }

  ghost predicate Keeps(s: Net, s': Net) {
    && (forall j {:trigger NewAwardIsChosen(s, s', j)} :: NewAwardIsChosen(s, s', j))
    && (forall id {:trigger SameWishes(s, s', id)} :: SameWishes(s, s', id))
    && (forall c {:trigger QueueKept(s, s', c)} :: QueueKept(s, s', c))
    && (forall j {:trigger NewJobAsks(s, s', j)} :: NewJobAsks(s, s', j))
    && (forall result {:trigger DirectKept(s, s', result)} :: DirectKept(s, s', result))
  }

  lemma ConnectingKeeps(s: Net, e: Event)
    requires Enabled(s, e) && (e.ConnectProvider? || e.ConnectRenter?)
    ensures Keeps(s, After(s, e))
  {
  }

  lemma ClosingKeeps(s: Net, e: Event)
    requires Enabled(s, e) && (e.Close? || e.Heartbeat?)
    ensures Keeps(s, After(s, e))
  {
  }

  lemma CleanupTouches(s: Net, c: ConnId, targets: seq<ConnId>)
    requires c in s.conns
    ensures var s' := AfterCleanup(s, c, targets);
      && s'.renters == s.renters && s'.jobs == s.jobs && s'.awards == s.awards && s'.direct == s.direct
      && c in s'.conns && s'.conns == s.conns[c := s.conns[c].(handler := s'.conns[c].handler)]
  {
    hide Removed, Onward, Registered;
    var conn := s.conns[c];
    if Registered(s, c) && conn.owner in s.reg {
      var handler := if s.reg[conn.owner].role.Provider? then Onward(PeerBye(conn.owner), targets, true) else Done;
      assert AfterCleanup(s, c, targets).conns == s.conns[c := conn.(handler := handler)];
    }
  }

  lemma CleanupKeeps(s: Net, c: ConnId, targets: seq<ConnId>)
    requires CanCleanup(s, c, targets)
    ensures Keeps(s, AfterCleanup(s, c, targets))
  {
    CleanupTouches(s, c, targets);
    hide AfterCleanup, Addresses;
  }

  lemma RelayKeeps(s: Net, e: Event)
    requires Enabled(s, e) && (e.ServeHello? || e.BeginAnnounce? || e.RouteAnnounce? || e.RouteRequest?)
    ensures Keeps(s, After(s, e))
  {
  }

  lemma RouteTouches(s: Net, c: ConnId)
    requires CanRouteTo(s, c)
    ensures AfterRouteTo(s, c) == s.(conns := AfterRouteTo(s, c).conns, token := AfterRouteTo(s, c).token)
  {
    hide PushDown, ReadUp, Addressee, NextUp;
  }

  lemma RouteKeys(s: Net, c: ConnId)
    requires CanRouteTo(s, c)
    ensures AfterRouteTo(s, c).conns.Keys == s.conns.Keys
  {
    RouteConns(s, c);
    hide AfterRouteTo, Destination;
  }

  lemma RouteToKeeps(s: Net, c: ConnId)
    requires CanRouteTo(s, c)
    ensures Keeps(s, AfterRouteTo(s, c))
  {
    RouteTouches(s, c);
    RouteKeys(s, c);
    forall x | x in s.conns
      ensures QueueKept(s, AfterRouteTo(s, c), x)
    {
      RouteConn(s, c, x);
      hide AfterRouteTo, Destination;
    }
    hide AfterRouteTo;
  }

  lemma SendNextKeeps(s: Net, c: ConnId)
    requires CanSendNext(s, c)
    ensures Keeps(s, AfterSendNext(s, c))
  {
  }

  lemma BiddingMoves(s: Net, c: ConnId)
    requires CanDeliverToProvider(s, c) && NextDown(s, c).JobRequest?
    ensures var s' := AfterDeliverToProvider(s, c);
      && s'.renters == s.renters && s'.jobs == s.jobs && s'.awards == s.awards && s'.direct == s.direct
      && (s'.conns == ReadDown(s.conns, c) || exists bid :: s'.conns == PushUp(ReadDown(s.conns, c), c, JobBid(bid)))
  {
    hide ReadDown, PushUp, Eligible, BidFor;
    var node := s.providers[s.conns[c].owner];
    var bid := BidFor(s.conns[c].owner, node.vramGb, node.priceHalala, NextDown(s, c).spec);
    assert Eligible(node.vramGb, node.priceHalala, NextDown(s, c).spec) ==>
        AfterDeliverToProvider(s, c).conns == PushUp(ReadDown(s.conns, c), c, JobBid(bid));
  }

  lemma StartMoves(s: Net, c: ConnId)
    requires CanDeliverToProvider(s, c) && NextDown(s, c).JobAccept?
    ensures var s' := AfterDeliverToProvider(s, c);
      s' == s.(conns := ReadDown(s.conns, c), execs := s'.execs, token := s'.token)
  {
    hide ReadDown, PushUp, Eligible, BidFor;
  }

  lemma OtherMoves(s: Net, c: ConnId)
    requires CanDeliverToProvider(s, c) && !NextDown(s, c).JobRequest? && !NextDown(s, c).JobAccept?
    ensures AfterDeliverToProvider(s, c) == s.(conns := ReadDown(s.conns, c))
  {
    hide ReadDown, PushUp, Eligible, BidFor;
  }

  /** A provider's step touches its own connection only, and no renter. */
  lemma ProviderTouches(s: Net, c: ConnId)
    requires CanDeliverToProvider(s, c)
    ensures var s' := AfterDeliverToProvider(s, c);
      && s'.renters == s.renters && s'.jobs == s.jobs && s'.awards == s.awards && s'.direct == s.direct
      && c in s'.conns && s'.conns == s.conns[c := s'.conns[c]]
      && s'.conns[c].owner == s.conns[c].owner && s'.conns[c].role == s.conns[c].role
      && s'.conns[c].down == s.conns[c].down.(read := s.conns[c].down.read + 1)
  {
    if NextDown(s, c).JobRequest? {
      BiddingMoves(s, c);
    } else if NextDown(s, c).JobAccept? {
      StartMoves(s, c);
    } else {
      OtherMoves(s, c);
    }
    hide AfterDeliverToProvider;
  }

  lemma DeliverToProviderKeeps(s: Net, c: ConnId)
    requires CanDeliverToProvider(s, c)
    ensures Keeps(s, AfterDeliverToProvider(s, c))
  {
    ProviderTouches(s, c);
    hide AfterDeliverToProvider;
  }

  lemma DeliverToRenterKeeps(s: Net, c: ConnId)
    requires CanDeliverToRenter(s, c)
    ensures Keeps(s, AfterDeliverToRenter(s, c))
  {
    hide CacheAfter, BidsAfter;
  }

  lemma DeliverDirectKeeps(s: Net, id: PeerId, result: Result)
    requires CanDeliverDirect(s, id, result)
    ensures Keeps(s, AfterDeliverDirect(s, id, result))
  {
    hide CacheAfter, BidsAfter;
  }

  lemma JobsKeep(s: Net, e: Event)
    requires Enabled(s, e) && (e.Submit? || e.Choose? || e.StopWaiting? || e.Finish?)
    ensures Keeps(s, After(s, e))
  {
  }

  lemma StepKeeps(s: Net, e: Event)
    requires Enabled(s, e)
    ensures Keeps(s, After(s, e))
  {
    hide Keeps;
    match e {
      case RouteTo(c) => RouteToKeeps(s, c);
      case SendNext(c) => SendNextKeeps(s, c);
      case DeliverToProvider(c) => DeliverToProviderKeeps(s, c);
      case DeliverToRenter(c) => DeliverToRenterKeeps(s, c);
      case DeliverDirect(id, result) => DeliverDirectKeeps(s, id, result);
      case ConnectProvider(_, _, _, _, _) => ConnectingKeeps(s, e);
      case ConnectRenter(_, _, _, _, _) => ConnectingKeeps(s, e);
      case Close(_) => ClosingKeeps(s, e);
      case Cleanup(c, targets) => CleanupKeeps(s, c, targets);
      case Heartbeat(_, _) => ClosingKeeps(s, e);
      case Submit(_, _) => JobsKeep(s, e);
      case Choose(_, _) => JobsKeep(s, e);
      case StopWaiting(_) => JobsKeep(s, e);
      case Finish(_, _, _, _, _, _) => JobsKeep(s, e);
      case _ => RelayKeeps(s, e);
    }
  }

  lemma RunStepKeeps(run: seq<Net>, i: nat)
    requires IsRun(run) && i + 1 < |run|
    ensures Keeps(run[i], run[i + 1])
  {
    assert Step(run[i], run[i + 1]);
    var e :| Enabled(run[i], e) && run[i + 1] == After(run[i], e);
    StepKeeps(run[i], e);
  }

  // ---- A job request goes out to every provider ----

  /** When the relay takes a request up, it owes it to the connection of every other registered provider. */
  lemma RequestOwedToProviders(s: Net, c: ConnId, targets: seq<ConnId>, id: PeerId)
    requires CanRouteRequest(s, c, targets) && id in s.reg && s.reg[id].role.Provider? && id != s.conns[c].owner
    ensures var handler := AfterRouteRequest(s, c, targets).conns[c].handler;
      handler.Sending? && handler.msg == NextUp(s, c) && s.reg[id].conn in handler.targets
  {
    AddressesConns(targets, s.reg, Provider, Some(s.conns[c].owner));
  }

  /** Each send hands the message to the first connection still owed it, and to no other, and leaves the rest owed. */
  lemma SendNextSends(s: Net, c: ConnId, x: ConnId)
    requires CanSendNext(s, c) && x in s.conns
    ensures var (h, s') := (s.conns[c].handler, AfterSendNext(s, c));
      && x in s'.conns && c in s'.conns
      && s'.conns[x].down.log == s.conns[x].down.log + (if x == h.targets[0] then [h.msg] else [])
      && (|h.targets| > 1 ==> s'.conns[c].handler == Sending(h.msg, h.targets[1..], h.closing))
  {
    if |s.conns[c].handler.targets| > 1 {
      assert s.conns[c].handler.targets[1..] != [];
    }
  }

  // ---- Over every run ----

  lemma AsksStep(s: Net, s': Net, j: JobId)
    requires NewJobAsks(s, s', j) && AsksForWishes(s, j)
    requires j in s.jobs ==> SameWishes(s, s', s.jobs[j].renter)
    ensures AsksForWishes(s', j)
  {
  }

  /** Every job asks for what the renter that submitted it wants, at any time after. */
  lemma {:induction false} JobsAskForWishes(run: seq<Net>, i: nat, j: JobId)
    requires IsRun(run) && i < |run|
    ensures AsksForWishes(run[i], j)
  {
    if i == 0 {
      assert run[0] == INIT;
    } else {
      JobsAskForWishes(run, i - 1, j);
      RunStepKeeps(run, i - 1);
      hide IsRun, AsksForWishes;
      assert NewJobAsks(run[i - 1], run[i], j);
      assert j in run[i - 1].jobs ==> SameWishes(run[i - 1], run[i], run[i - 1].jobs[j].renter);
      AsksStep(run[i - 1], run[i], j);
    }
  }

  /** An award is made on every bid the renter holds for the job when it closes the window. */
  lemma AwardedOnAllBids(run: seq<Net>, i: nat, j: JobId)
    requires IsRun(run) && i + 1 < |run| && j !in run[i].awards && j in run[i + 1].awards
    ensures var (s, award) := (run[i], run[i + 1].awards[j]);
      && award.accept.renter in s.renters && s.renters[award.accept.renter].phase == Bidding(j)
      && j in s.renters[award.accept.renter].bids && s.renters[award.accept.renter].bids[j] == award.offers
  {
    RunStepKeeps(run, i);
    assert NewAwardIsChosen(run[i], run[i + 1], j);
  }

  /** So an accept goes to a provider that suits the renter itself, at a price it is willing to pay. */
  lemma WinnerSuitsItsRenter(run: seq<Net>, i: nat, j: JobId)
    requires IsRun(run) && i < |run| && j in run[i].awards
    ensures var s := run[i]; var award := s.awards[j];
      && award.accept.renter in s.renters && award.accept.provider in s.providers
      && var (renter, provider) := (s.renters[award.accept.renter], s.providers[award.accept.provider]);
      && provider.vramGb >= renter.minVramGb
      && provider.priceHalala == award.accept.agreedPriceHalalaHr <= renter.maxPriceHalalaHr
      && IsCost(award.winner.estimatedCostHalala, provider.priceHalala, renter.timeoutSecs)
  {
    var s := run[i];
    AcceptNamesCheapestEligible(run, i, j);
    JobsAskForWishes(run, i, j);
    JobInvAlways(run, i);
    assert AwardOk(s, j);
    CostIsCharged(s.awards[j].winner.priceHalalaHr, s.jobs[j].timeoutSecs);
  }

  ghost predicate ReadIsHeld(s: Net, c: ConnId, k: nat) {
    c in s.conns && s.conns[c].role.Renter? && k < s.conns[c].down.read && k < |s.conns[c].down.log| ==>
      HoldsResultOf(s, s.conns[c].owner, s.conns[c].down.log[k])
  }

  lemma HeldStep(s: Net, s': Net, c: ConnId, k: nat)
    requires QueueKept(s, s', c) && ReadIsHeld(s, c, k)
    requires c in s.conns ==> s.conns[c].down.read <= |s.conns[c].down.log| && SameWishes(s, s', s.conns[c].owner)
    ensures ReadIsHeld(s', c, k)
  {
    if c in s'.conns && c in s.conns && k < |s.conns[c].down.log| {
      assert s'.conns[c].down.log[k] == s.conns[c].down.log[k];
    }
  }

  /** A renter holds a result for every job of which it has read one. */
  lemma {:induction false} ReadResultIsHeld(run: seq<Net>, i: nat, c: ConnId, k: nat)
    requires IsRun(run) && i < |run|
    ensures ReadIsHeld(run[i], c, k)
  {
    if i == 0 {
      assert run[0] == INIT;
    } else {
      var s, s' := run[i - 1], run[i];
      ReadResultIsHeld(run, i - 1, c, k);
      RunStepKeeps(run, i - 1);
      ReadsWithinLog(run, i - 1, c);
      hide IsRun;
      assert QueueKept(s, s', c) && (c in s.conns ==> SameWishes(s, s', s.conns[c].owner));
      hide ReadIsHeld, Keeps, QueueKept, SameWishes;
      HeldStep(s, s', c, k);
    }
  }

  lemma ReadsWithinLog(run: seq<Net>, i: nat, c: ConnId)
    requires IsRun(run) && i < |run|
    ensures c in run[i].conns ==> run[i].conns[c].down.read <= |run[i].conns[c].down.log|
  {
    JobInvAlways(run, i);
    assert ConnShape(run[i], c);
  }

  /** It holds exactly that result: every JOB_RESULT a renter has read is stored under its job. */
  lemma ReadResultIsStored(run: seq<Net>, i: nat, c: ConnId, k: nat)
    requires IsRun(run) && i < |run| && c in run[i].conns && run[i].conns[c].role.Renter?
    requires k < run[i].conns[c].down.read && k < |run[i].conns[c].down.log| && run[i].conns[c].down.log[k].JobResult?
    ensures var (s, result) := (run[i], run[i].conns[c].down.log[k].result);
      && s.conns[c].owner in s.renters
      && result.jobId in s.renters[s.conns[c].owner].results
      && s.renters[s.conns[c].owner].results[result.jobId] == result
  {
    var s := run[i];
    var result := s.conns[c].down.log[k].result;
    ReadResultIsHeld(run, i, c, k);
    JobInvAlways(run, i);
    assert LogsOk(s, c) && MsgOk(s, s.conns[c].down.log[k]);
    assert RenterJobs(s, s.conns[c].owner);
  }

  /** So is a payload that a provider delivered straight to it. */
  lemma DirectResultIsStored(run: seq<Net>, i: nat, result: Result)
    requires IsRun(run) && i + 1 < |run| && result in run[i].direct && result !in run[i + 1].direct
    ensures var s := run[i + 1];
      && result.renter in s.renters && result.jobId in s.renters[result.renter].results
      && s.renters[result.renter].results[result.jobId] == result
  {
    RunStepKeeps(run, i);
    assert DirectKept(run[i], run[i + 1], result);
  }
}
