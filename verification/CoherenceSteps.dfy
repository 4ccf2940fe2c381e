/** Every event keeps the coherence invariant. */
module CoherenceSteps {
  import opened Ids
  import opened Options
  import opened P2PTypes
  import opened Relay
  import opened RenterSide
  import opened ProviderSide
  import opened Network
  import opened Coherence

  lemma QuietSelf(k: Conn)
    requires UpShape(k) && DownShape(k)
    ensures QuietConn(k, k)
  {
  }

  lemma QuietPushUp(k: Conn, msg: Msg)
    requires UpShape(k) && DownShape(k) && FromOwner(k.owner, k.role, msg)
    ensures QuietConn(k, k.(up := Push(k.up, msg)))
  {
  }

  /** One connection changes quietly, the rest stay. */
  lemma QuietOne(s: Net, s': Net, c: ConnId)
    requires Shape(s) && c in s.conns && s'.reg == s.reg && c in s'.conns
    requires s'.conns == s.conns[c := s'.conns[c]] && QuietConn(s.conns[c], s'.conns[c])
    ensures Quiet(s, s')
  {
    forall x ensures QuietAt(s, s', x) {
      assert ConnShape(s, x);
      if x in s.conns && x != c {
        QuietSelf(s.conns[x]);
      }
    }
  }

  lemma QuietNone(s: Net, s': Net)
    requires Shape(s) && s'.reg == s.reg && s'.conns == s.conns
    ensures Quiet(s, s')
  {
    forall x ensures QuietAt(s, s', x) {
      assert ConnShape(s, x);
      if x in s.conns {
        QuietSelf(s.conns[x]);
      }
    }
  }

  ghost predicate Untouched(r: RenterNode, r': RenterNode) {
    r'.conn == r.conn && r'.cache == r.cache
  }

  /** At most renter `id` changes, and neither its connection nor its cache. */
  ghost predicate RentersKept(s: Net, s': Net, id: PeerId) {
    && s'.providers == s.providers
    && (s'.renters == s.renters
        || (id in s.renters && id in s'.renters && s'.renters == s.renters[id := s'.renters[id]]
            && Untouched(s.renters[id], s'.renters[id])))
  }

  /** A client sends one message of its own. */
  lemma ClientSends(s: Net, s': Net, c: ConnId, msg: Msg, id: PeerId)
    requires Inv(s) && c in s.conns && FromOwner(s.conns[c].owner, s.conns[c].role, msg)
    requires s'.conns == PushUp(s.conns, c, msg) && s'.reg == s.reg && RentersKept(s, s', id)
    ensures Inv(s')
  {
    assert ConnShape(s, c);
    QuietPushUp(s.conns[c], msg);
    QuietOne(s, s', c);
    QuietStep(s, s');
  }

  /** Nothing on the wire changes. */
  lemma NobodySends(s: Net, s': Net, id: PeerId)
    requires Inv(s) && s'.conns == s.conns && s'.reg == s.reg && RentersKept(s, s', id)
    ensures Inv(s')
  {
    QuietNone(s, s');
    QuietStep(s, s');
  }

  lemma CloseStep(s: Net, c: ConnId)
    requires Inv(s) && CanClose(s, c)
    ensures Inv(AfterClose(s, c))
  {
    var s' := AfterClose(s, c);
    assert ConnShape(s, c);
    QuietSelf(s.conns[c]);
    QuietOne(s, s', c);
    QuietStep(s, s');
  }

  lemma HeartbeatStep(s: Net, c: ConnId, capacity: Capacity)
    requires Inv(s) && CanHeartbeat(s, c, capacity)
    ensures Inv(AfterHeartbeat(s, c, capacity))
  {
    ClientSends(s, AfterHeartbeat(s, c, capacity), c, AnnounceCapacity(s.conns[c].owner, capacity), s.conns[c].owner);
  }

  lemma DeliverDirectStep(s: Net, id: PeerId, result: Result)
    requires Inv(s) && CanDeliverDirect(s, id, result)
    ensures Inv(AfterDeliverDirect(s, id, result))
  {
    NobodySends(s, AfterDeliverDirect(s, id, result), id);
  }

  lemma StopWaitingStep(s: Net, id: PeerId)
    requires Inv(s) && CanStopWaiting(s, id)
    ensures Inv(AfterStopWaiting(s, id))
  {
    NobodySends(s, AfterStopWaiting(s, id), id);
  }

  lemma SubmitStep(s: Net, id: PeerId, job: JobId)
    requires Inv(s) && CanSubmit(s, id, job)
    ensures Inv(AfterSubmit(s, id, job))
  {
    assert RenterShape(s, id);
    ClientSends(s, AfterSubmit(s, id, job), s.renters[id].conn, JobRequest(SpecOf(id, job, s.renters[id])), id);
  }

  lemma ChooseStep(s: Net, id: PeerId, k: nat)
    requires Inv(s) && CanChoose(s, id, k)
    ensures Inv(AfterChoose(s, id, k))
  {
    var r := s.renters[id];
    assert RenterShape(s, id);
    ClientSends(s, AfterChoose(s, id, k), r.conn, JobAccept(AcceptOf(id, r.phase.job, r.bids[r.phase.job][k])), id);
  }

  lemma FinishStep(s: Net, k: nat, result: Result, direct: bool, relayed: bool)
    requires Inv(s) && CanFinish(s, k)
    ensures Inv(AfterFinish(s, k, result, direct, relayed))
  {
    var s' := AfterFinish(s, k, result, direct, relayed);
    if s'.conns == s.conns {
      NobodySends(s, s', result.renter);
    } else {
      assert ProviderShape(s, s.execs[k].provider);
      ClientSends(s, s', s.providers[s.execs[k].provider].conn, JobResult(result), result.renter);
    }
  }

  lemma ReadDownStays(s: Net, c: ConnId)
    requires Inv(s) && CanDeliver(s, c) && s.conns[c].role.Provider?
    ensures Inv(s.(conns := ReadDown(s.conns, c)))
  {
    var s' := s.(conns := ReadDown(s.conns, c));
    assert ConnShape(s, c);
    QuietSelf(s.conns[c]);
    QuietOne(s, s', c);
    forall id ensures Undelivered(s, s', id) {
      assert RenterShape(s, id);
    }
    QuietStep(s, s');
  }

  lemma DeliverToProviderStep(s: Net, c: ConnId)
    requires Inv(s) && CanDeliverToProvider(s, c)
    ensures Inv(AfterDeliverToProvider(s, c))
  {
    var s' := AfterDeliverToProvider(s, c);
    var mid := s.(conns := ReadDown(s.conns, c));
    ReadDownStays(s, c);
    if s'.conns == mid.conns {
      NobodySends(mid, s', s.conns[c].owner);
    } else {
      var node := s.providers[s.conns[c].owner];
      ClientSends(mid, s', c, JobBid(BidFor(s.conns[c].owner, node.vramGb, node.priceHalala, NextDown(s, c).spec)),
                  s.conns[c].owner);
    }
  }

  lemma DeliverToRenterStep(s: Net, c: ConnId)
    requires Inv(s) && CanDeliverToRenter(s, c)
    ensures Inv(AfterDeliverToRenter(s, c))
  {
    var s' := AfterDeliverToRenter(s, c);
    var k := s.conns[c];
    assert ConnShape(s, c) && RenterShape(s, k.owner);
    QuietSelf(k);
    QuietOne(s, s', c);
    DeliveryFolds(s.renters[k.owner].cache, k.down);
    forall x, t ensures TargetShape(s', x, t) {
      assert TargetShape(s, x, t);
    }
    forall x ensures RenterShape(s', x) {
      assert RenterShape(s, x);
    }
    QuietKeeps(s, s');
  }

  lemma DeliveryFolds(cache: Cache, down: Chan)
    requires CacheShape(cache, down) && HasUnread(down)
    ensures CacheShape(CacheAfter(cache, down.log[down.read]), down.(read := down.read + 1))
  {
    var seen := down.log[..down.read];
    assert down.log[..down.read + 1] == seen + [down.log[down.read]];
    FoldSnoc(map[], seen, down.log[down.read]);
  }

  // ---- The relay's own job traffic ----

  /** The relay sends a registered connection a message that is not about providers. */
  lemma RelaySendsJob(s: Net, s': Net, d: ConnId, msg: Msg)
    requires Inv(s) && d in s.conns && s.conns[d].up.read > 0 && Neutral(msg)
    requires s'.conns == PushDown(s.conns, d, msg) && s'.reg == s.reg
    requires s'.providers == s.providers && s'.renters == s.renters
    ensures Inv(s')
  {
    assert ConnShape(s, d);
    QuietOne(s, s', d);
    QuietStep(s, s');
  }

  /** The head of an idle handler's queue, when it is not a hello, comes after the hello. */
  lemma PastHello(s: Net, c: ConnId)
    requires ConnShape(s, c) && AtMessage(s, c) && !NextUp(s, c).PeerHello?
    ensures s.conns[c].up.read > 0 && FromOwner(s.conns[c].owner, s.conns[c].role, NextUp(s, c))
  {
  }

  lemma RouteToStep(s: Net, c: ConnId)
    requires Inv(s) && CanRouteTo(s, c)
    ensures Inv(AfterRouteTo(s, c))
  {
    var s' := AfterRouteTo(s, c);
    var mid := s.(conns := ReadUp(s.conns, c, Idle));
    var to := Addressee(NextUp(s, c)).value;
    assert ConnShape(s, c);
    PastHello(s, c);
    QuietOne(s, mid, c);
    QuietStep(s, mid);
    assert RegShape(mid, to);
    if to in s.reg {
      RelaySendsJob(mid, s', s.reg[to].conn, NextUp(s, c));
    } else {
      NobodySends(mid, s', to);
    }
  }

  lemma AddressesGreeted(s: Net, targets: seq<ConnId>, role: Role, exclude: Option<PeerId>)
    requires Shape(s) && Addresses(targets, s.reg, role, exclude)
    ensures forall t <- targets :: t in s.conns && s.conns[t].up.read > 0
  {
    AddressesConns(targets, s.reg, role, exclude);
    forall t | t in targets
      ensures t in s.conns && s.conns[t].up.read > 0
    {
      var id :| id in s.reg && s.reg[id].conn == t && s.reg[id].role == role;
      assert RegShape(s, id);
    }
  }

  lemma RouteRequestStep(s: Net, c: ConnId, targets: seq<ConnId>)
    requires Inv(s) && CanRouteRequest(s, c, targets)
    ensures Inv(AfterRouteRequest(s, c, targets))
  {
    var s' := AfterRouteRequest(s, c, targets);
    assert ConnShape(s, c);
    PastHello(s, c);
    QuietOne(s, s', c);
    AddressesGreeted(s, targets, Provider, Some(s.conns[c].owner));
    HandlerMoves(s, s', c);
  }

  /** Only `c`'s handler moved, and only to greeted targets. */
  lemma HandlerMoves(s: Net, s': Net, c: ConnId)
    requires Inv(s) && Quiet(s, s') && s'.renters == s.renters && s'.providers == s.providers
    requires c in s.conns && c in s'.conns && s'.conns == s.conns[c := s'.conns[c]]
    requires s'.conns[c].down == s.conns[c].down
    requires s'.conns[c].handler.Sending? ==>
               forall t <- s'.conns[c].handler.targets :: t in s.conns && s.conns[t].up.read > 0
    ensures Inv(s')
  {
    forall x, t ensures TargetShape(s', x, t) {
      assert TargetShape(s, x, t) && QuietAt(s, s', t);
    }
    forall id ensures RenterShape(s', id) {
      assert RenterShape(s, id) && QuietAt(s, s', c);
    }
    QuietKeeps(s, s');
  }

  lemma SendRequestStep(s: Net, c: ConnId)
    requires Inv(s) && CanSendNext(s, c) && s.conns[c].handler.msg.JobRequest?
    ensures Inv(AfterSendNext(s, c))
  {
    var s' := AfterSendNext(s, c);
    var t := s.conns[c].handler.targets[0];
    var mid := s.(conns := PushDown(s.conns, t, s.conns[c].handler.msg));
    assert TargetShape(s, c, t);
    RelaySendsJob(s, mid, t, s.conns[c].handler.msg);
    assert ConnShape(mid, c);
    QuietOne(mid, s', c);
    forall x | x in s.conns[c].handler.targets
      ensures x in mid.conns && mid.conns[x].up.read > 0
    {
      assert TargetShape(mid, c, x);
    }
    HandlerMoves(mid, s', c);
  }

  // ---- Steps that speak about the owner of one connection ----

  ghost predicate SameEntry(reg: Registry, reg': Registry, id: PeerId) {
    && (id in reg' <==> id in reg)
    && (id in reg ==> reg'[id] == reg[id])
  }

  /**
   * The handler of `c` moves, and the registry changes at most at its owner. What has to be shown
   * is about `c` and its owner only.
   */
  lemma OwnerSpeaks(s: Net, s': Net, c: ConnId, p: PeerId)
    requires Inv(s) && c in s.conns && Live(s.conns[c]) && s.conns[c].owner == p
    requires c in s'.conns && s'.conns == s.conns[c := s'.conns[c]]
    requires s'.renters == s.renters && s'.providers == s.providers
    requires s'.conns[c].owner == p && s'.conns[c].role == s.conns[c].role && s'.conns[c].up.read >= s.conns[c].up.read
    requires forall id {:trigger SameEntry(s.reg, s'.reg, id)} :: id != p ==> SameEntry(s.reg, s'.reg, id)
    requires ConnShape(s', c) && RegShape(s', p) && GreetedShape(s', c) && RenterShape(s', p)
    requires forall t {:trigger TargetShape(s', c, t)} :: TargetShape(s', c, t)
    requires forall id {:trigger ViewShape(s', id, p)} :: ViewShape(s', id, p)
    requires forall q {:trigger ViewShape(s', p, q)} :: ViewShape(s', p, q)
    ensures Inv(s')
  {
    forall x ensures ConnShape(s', x) && GreetedShape(s', x) {
      assert ConnShape(s, x) && GreetedShape(s, x) && Alone(s, x, c);
      if x in s.conns && x != c {
        assert SameEntry(s.reg, s'.reg, s.conns[x].owner) || !Live(s.conns[x]);
      }
    }
    forall x, t ensures TargetShape(s', x, t) {
      assert TargetShape(s, x, t);
    }
    forall id ensures RegShape(s', id) && RenterShape(s', id) && ProviderShape(s', id) {
      assert RegShape(s, id) && RenterShape(s, id) && ProviderShape(s, id);
      assert id != p ==> SameEntry(s.reg, s'.reg, id);
    }
    forall x, y ensures Alone(s', x, y) {
      assert Alone(s, x, y) && Alone(s, x, c) && Alone(s, c, y);
    }
    forall id, q ensures ViewShape(s', id, q) {
      if id != p && q != p {
        assert ViewShape(s, id, q) && RegShape(s, id);
        assert SameEntry(s.reg, s'.reg, id) && SameEntry(s.reg, s'.reg, q);
        if id in s.reg && s.reg[id].role.Renter? {
          StillUpToDate(s, s', c, s.reg[id].conn, q);
        }
      }
    }
  }

  lemma StillUpToDate(s: Net, s': Net, c: ConnId, x: ConnId, q: PeerId)
    requires c in s.conns && c in s'.conns && s'.conns == s.conns[c := s'.conns[c]]
    requires x != c && s.conns[c].owner != q && SameEntry(s.reg, s'.reg, q) && UpToDate(s, x, q)
    ensures UpToDate(s', x, q)
  {
    if x in s.conns {
      if d :| d in s.conns && Owes(s.conns[d], x, q) {
        assert d != c;
        assert Owes(s'.conns[d], x, q);
      }
    }
  }

  /** A broadcast about a connection's owner, as it begins, is owed to every registered renter but the excluded one. */
  lemma BroadcastCovers(conn: Conn, msg: Msg, targets: seq<ConnId>, closing: bool, reg: Registry,
                        exclude: Option<PeerId>, id: PeerId)
    requires Addresses(targets, reg, Renter, exclude) && !msg.JobRequest?
    requires conn.handler == Onward(msg, targets, closing)
    requires id in reg && reg[id].role.Renter? && Some(id) != exclude
    ensures Owes(conn, reg[id].conn, conn.owner)
  {
    AddressesConns(targets, reg, Renter, exclude);
  }

  lemma BeginAnnounceStep(s: Net, c: ConnId, targets: seq<ConnId>)
    requires Inv(s) && CanBeginAnnounce(s, c, targets)
    ensures Inv(AfterBeginAnnounce(s, c, targets))
  {
    var s' := AfterBeginAnnounce(s, c, targets);
    var p := s.conns[c].owner;
    assert ConnShape(s, c) && GreetedShape(s, c) && RegShape(s, p) && RenterShape(s, p);
    AddressesGreeted(s, targets, Renter, None);
    forall id ensures ViewShape(s', id, p) {
      assert RegShape(s, id);
      if id in s'.reg && s'.reg[id].role.Renter? {
        var msg := AnnounceCapacity(p, s.conns[c].handler.capacity);
        BroadcastCovers(s'.conns[c], msg, targets, false, s'.reg, None, id);
      }
    }
    OwnerSpeaks(s, s', c, p);
  }

  lemma RouteAnnounceStep(s: Net, c: ConnId, targets: seq<ConnId>)
    requires Inv(s) && CanRouteAnnounce(s, c, targets)
    ensures Inv(AfterRouteAnnounce(s, c, targets))
  {
    var s' := AfterRouteAnnounce(s, c, targets);
    var p := s.conns[c].owner;
    assert ConnShape(s, c) && GreetedShape(s, c) && RegShape(s, p) && RenterShape(s, p);
    PastHello(s, c);
    AddressesConns(targets, s'.reg, Renter, Some(p));
    forall t | t in targets
      ensures t in s.conns && s.conns[t].up.read > 0
    {
      var id :| id in s'.reg && s'.reg[id].conn == t;
      assert RegShape(s, id);
    }
    forall id ensures ViewShape(s', id, p) {
      assert RegShape(s, id);
      if id in s'.reg && s'.reg[id].role.Renter? {
        BroadcastCovers(s'.conns[c], NextUp(s, c), targets, false, s'.reg, Some(p), id);
      }
    }
    OwnerSpeaks(s, s', c, p);
  }

  /** A greeting finds its sender unregistered. */
  lemma Unregistered(s: Net, c: ConnId)
    requires Inv(s) && AtHello(s, c)
    ensures s.conns[c].owner !in s.reg && s.conns[c].up.read == 0 && s.conns[c].down.log == []
  {
    var p := s.conns[c].owner;
    assert ConnShape(s, c) && RegShape(s, p);
    assert Alone(s, c, if p in s.reg then s.reg[p].conn else c);
  }

  lemma ServeHelloStep(s: Net, c: ConnId, list: seq<Entry>)
    requires Inv(s) && CanServeHello(s, c, list)
    ensures Inv(AfterServeHello(s, c, list))
  {
    var s' := AfterServeHello(s, c, list);
    var p := s.conns[c].owner;
    Unregistered(s, c);
    assert ConnShape(s, c) && RenterShape(s, p);
    assert s'.conns[c].down.log == [PeerList(list)];
    if p in s.renters {
      CacheStays(s.renters[p].cache, s.conns[c].down, s'.conns[c].down);
    }
    forall q ensures ViewShape(s', p, q) {
      if s'.reg[p].role.Renter? {
        FreshView(s'.reg, list, p, q);
      }
    }
    forall id ensures ViewShape(s', id, p) {
      assert ViewShape(s, id, p) && RegShape(s, id);
      if id != p && id in s'.reg && s'.reg[id].role.Renter? {
        HelloSeen(s, s', c, id);
      }
    }
    OwnerSpeaks(s, s', c, p);
  }

  /** After a hello, earlier renters either owe nothing to it or are about to be told. */
  lemma HelloSeen(s: Net, s': Net, c: ConnId, id: PeerId)
    requires Inv(s) && AtHello(s, c) && id != s.conns[c].owner && id in s.reg && s.reg[id].role.Renter?
    requires exists list :: s' == AfterServeHello(s, c, list)
    ensures ViewShape(s', id, s.conns[c].owner)
  {
    var p, x := s.conns[c].owner, s.reg[id].conn;
    Unregistered(s, c);
    assert ConnShape(s, c) && RegShape(s, id);
    if s.conns[c].role.Provider? {
      assert Owes(s'.conns[c], x, p);
    } else {
      assert ViewShape(s, id, p);
      if d :| d in s.conns && Owes(s.conns[d], x, p) {
        assert Alone(s, c, d);
      }
    }
  }

  // ---- One send of a broadcast about a provider ----

  /** The message a handler is sending about its owner leaves the registry's value. */
  lemma OwedValue(reg: Registry, conn: Conn, cache: Cache)
    requires HandlerShape(reg, conn) && conn.handler.Sending? && !conn.handler.msg.JobRequest?
    requires conn.owner in reg ==> reg[conn.owner].role.Provider?
    ensures Lookup(CacheAfter(cache, conn.handler.msg), conn.owner) == Lookup(ProviderView(reg), conn.owner)
  {
  }

  /** It says nothing about anybody else. */
  lemma OtherValue(reg: Registry, conn: Conn, cache: Cache, q: PeerId)
    requires HandlerShape(reg, conn) && conn.handler.Sending? && !conn.handler.msg.JobRequest? && q != conn.owner
    ensures Lookup(CacheAfter(cache, conn.handler.msg), q) == Lookup(cache, q)
  {
  }

  /** The network once the handler's message is out, but before the handler has moved on. */
  function WithPush(s: Net, c: ConnId): Net
    requires CanSendNext(s, c)
  {
    s.(conns := PushDown(s.conns, s.conns[c].handler.targets[0], s.conns[c].handler.msg))
  }

  lemma PushKeepsPeer(s: Net, c: ConnId, id: PeerId)
    requires Inv(s) && CanSendNext(s, c)
    ensures RegShape(WithPush(s, c), id) && RenterShape(WithPush(s, c), id) && ProviderShape(WithPush(s, c), id)
  {
    var s' := WithPush(s, c);
    assert RegShape(s, id) && RenterShape(s, id) && ProviderShape(s, id)
        && TargetShape(s, c, s.conns[c].handler.targets[0]);
    if id in s.renters {
      CacheStays(s.renters[id].cache, s.conns[s.renters[id].conn].down, s'.conns[s.renters[id].conn].down);
    }
  }

  lemma PushKeepsConn(s: Net, c: ConnId, x: ConnId, y: ConnId)
    requires Inv(s) && CanSendNext(s, c)
    ensures ConnShape(WithPush(s, c), x) && GreetedShape(WithPush(s, c), x)
    ensures TargetShape(WithPush(s, c), x, y) && Alone(WithPush(s, c), x, y)
  {
    assert ConnShape(s, c) && TargetShape(s, c, s.conns[c].handler.targets[0]);
    assert ConnShape(s, x) && GreetedShape(s, x) && TargetShape(s, x, y) && Alone(s, x, y);
  }

  lemma PushKeepsView(s: Net, c: ConnId, id: PeerId, q: PeerId)
    requires Inv(s) && CanSendNext(s, c) && !s.conns[c].handler.msg.JobRequest?
    ensures ViewShape(WithPush(s, c), id, q)
  {
    assert ConnShape(s, c) && ViewShape(s, id, q);
    if id in s.reg && s.reg[id].role.Renter? {
      PushStillUpToDate(s, c, s.reg[id].conn, q);
    }
  }

  lemma PushAboutOwner(s: Net, c: ConnId)
    requires Inv(s) && CanSendNext(s, c) && !s.conns[c].handler.msg.JobRequest?
    ensures Inv(s.(conns := PushDown(s.conns, s.conns[c].handler.targets[0], s.conns[c].handler.msg)))
  {
    var s' := WithPush(s, c);
    forall x ensures ConnShape(s', x) && GreetedShape(s', x) {
      PushKeepsConn(s, c, x, x);
    }
    forall x, y ensures TargetShape(s', x, y) && Alone(s', x, y) {
      PushKeepsConn(s, c, x, y);
    }
    forall id ensures RegShape(s', id) && RenterShape(s', id) && ProviderShape(s', id) {
      PushKeepsPeer(s, c, id);
    }
    forall id, q ensures ViewShape(s', id, q) {
      PushKeepsView(s, c, id, q);
    }
  }

  lemma PushStillUpToDate(s: Net, c: ConnId, x: ConnId, q: PeerId)
    requires CanSendNext(s, c) && !s.conns[c].handler.msg.JobRequest? && HandlerShape(s.reg, s.conns[c])
    requires UpToDate(s, x, q)
    ensures UpToDate(s.(conns := PushDown(s.conns, s.conns[c].handler.targets[0], s.conns[c].handler.msg)), x, q)
  {
    var t, msg := s.conns[c].handler.targets[0], s.conns[c].handler.msg;
    var s' := s.(conns := PushDown(s.conns, t, msg));
    if x in s.conns {
      FoldSnoc(map[], s.conns[x].down.log, msg);
      if q == s.conns[c].owner && x == t {
        assert Owes(s'.conns[c], x, q);
      } else if q != s.conns[c].owner {
        OtherValue(s.reg, s.conns[c], CacheFold(map[], s.conns[x].down.log), q);
      }
      if d :| d in s.conns && Owes(s.conns[d], x, q) {
        assert Owes(s'.conns[d], x, q);
      }
    }
  }

  lemma SendAboutStep(s: Net, c: ConnId)
    requires Inv(s) && CanSendNext(s, c) && !s.conns[c].handler.msg.JobRequest?
    ensures Inv(AfterSendNext(s, c))
  {
    var s' := AfterSendNext(s, c);
    var p, t, msg := s.conns[c].owner, s.conns[c].handler.targets[0], s.conns[c].handler.msg;
    var mid := s.(conns := PushDown(s.conns, t, msg));
    assert TargetShape(s, c, t);
    PushAboutOwner(s, c);
    assert ConnShape(mid, c) && GreetedShape(mid, c) && RegShape(mid, p) && RenterShape(mid, p);
    forall x ensures TargetShape(s', c, x) {
      assert TargetShape(mid, c, x);
    }
    forall id ensures ViewShape(s', id, p) {
      assert ViewShape(mid, id, p) && RegShape(mid, id);
      if id in mid.reg && mid.reg[id].role.Renter? {
        SentUpToDate(s, c, mid.reg[id].conn);
      }
    }
    OwnerSpeaks(mid, s', c, p);
  }

  lemma SentUpToDate(s: Net, c: ConnId, x: ConnId)
    requires Inv(s) && CanSendNext(s, c) && !s.conns[c].handler.msg.JobRequest?
    requires x in s.conns && UpToDate(s, x, s.conns[c].owner)
    ensures UpToDate(AfterSendNext(s, c), x, s.conns[c].owner)
  {
    var s' := AfterSendNext(s, c);
    var p, t, msg := s.conns[c].owner, s.conns[c].handler.targets[0], s.conns[c].handler.msg;
    assert ConnShape(s, c) && RegShape(s, p) && GreetedShape(s, c);
    if x == t {
      FoldSnoc(map[], s.conns[t].down.log, msg);
      OwedValue(s.reg, s.conns[c], CacheFold(map[], s.conns[t].down.log));
    } else if d :| d in s.conns && Owes(s.conns[d], x, p) {
      assert Alone(s, c, d);
      assert Owes(s'.conns[c], x, p);
    }
  }

  // ---- Connections come and go ----

  /** Nobody owes anything about the owner of an idle connection. */
  lemma QuietGone(s: Net, s': Net, c: ConnId, x: ConnId)
    requires Inv(s) && c in s.conns && s.conns[c].handler.Idle? && x in s.conns && c in s'.conns
    requires UpToDate(s, x, s.conns[c].owner) && s'.conns == s.conns[c := s'.conns[c]]
    requires s'.conns[c].down == s.conns[c].down
    requires Lookup(ProviderView(s'.reg), s.conns[c].owner) == Lookup(ProviderView(s.reg), s.conns[c].owner)
    ensures UpToDate(s', x, s.conns[c].owner)
  {
    if d :| d in s.conns && Owes(s.conns[d], x, s.conns[c].owner) {
      assert Alone(s, c, d);
    }
  }

  /** An unregistered owner has no entry at all. */
  lemma UnregisteredOwner(s: Net, c: ConnId)
    requires Inv(s) && c in s.conns && s.conns[c].handler.Idle? && !Registered(s, c)
    ensures s.conns[c].owner !in s.reg
  {
    var p := s.conns[c].owner;
    assert RegShape(s, p) && Alone(s, c, if p in s.reg then s.reg[p].conn else c);
  }

  lemma CleanupProvider(s: Net, c: ConnId, targets: seq<ConnId>)
    requires Inv(s) && CanCleanup(s, c, targets) && Registered(s, c) && s.reg[s.conns[c].owner].role.Provider?
    ensures Inv(AfterCleanup(s, c, targets))
  {
    var s' := AfterCleanup(s, c, targets);
    var p := s.conns[c].owner;
    assert ConnShape(s, c) && GreetedShape(s, c) && RegShape(s, p) && RenterShape(s, p);
    AddressesConns(targets, s'.reg, Renter, None);
    forall t | t in targets
      ensures t in s.conns && s.conns[t].up.read > 0
    {
      var id :| id in s'.reg && s'.reg[id].conn == t;
      assert RegShape(s, id);
    }
    forall id ensures ViewShape(s', id, p) {
      assert RegShape(s, id);
      if id in s'.reg && s'.reg[id].role.Renter? {
        BroadcastCovers(s'.conns[c], PeerBye(p), targets, true, s'.reg, None, id);
      }
    }
    OwnerSpeaks(s, s', c, p);
  }

  lemma CleanupSilently(s: Net, c: ConnId, targets: seq<ConnId>)
    requires Inv(s) && CanCleanup(s, c, targets)
    requires !(Registered(s, c) && s.reg[s.conns[c].owner].role.Provider?)
    ensures Inv(AfterCleanup(s, c, targets))
  {
    var s' := AfterCleanup(s, c, targets);
    var p := s.conns[c].owner;
    if !Registered(s, c) {
      UnregisteredOwner(s, c);
    }
    assert ConnShape(s, c) && GreetedShape(s, c) && RegShape(s, p) && RenterShape(s, p);
    forall id ensures ViewShape(s', id, p) {
      assert RegShape(s, id) && ViewShape(s, id, p);
      if id in s'.reg && s'.reg[id].role.Renter? {
        QuietGone(s, s', c, s.reg[id].conn);
      }
    }
    OwnerSpeaks(s, s', c, p);
  }

  /** A fresh connection, for an id that has no live one. */
  lemma FreshConn(s: Net, s': Net, c: ConnId, id: PeerId)
    requires Inv(s) && c !in s.conns && NoLiveConn(s, id)
    requires s'.reg == s.reg && c in s'.conns && s'.conns == s.conns[c := s'.conns[c]] && s'.conns[c].owner == id
    requires s'.conns[c].handler.Idle? && s'.conns[c].up.read == 0 && s'.conns[c].down == Chan([], 0)
    requires ConnShape(s', c) && RenterShape(s', id) && ProviderShape(s', id)
    requires forall x {:trigger x in s'.renters} :: x != id ==>
               (x in s'.renters <==> x in s.renters) && (x in s.renters ==> s'.renters[x] == s.renters[x])
    requires forall x {:trigger x in s'.providers} :: x != id ==>
               (x in s'.providers <==> x in s.providers) && (x in s.providers ==> s'.providers[x] == s.providers[x])
    requires s'.renters == s.renters || id !in s.renters
    requires id in s.providers ==> id in s'.providers
    ensures Inv(s')
  {
    forall x ensures ConnShape(s', x) && GreetedShape(s', x) {
      assert ConnShape(s, x) && GreetedShape(s, x);
    }
    forall x, y ensures TargetShape(s', x, y) && Alone(s', x, y) {
      assert TargetShape(s, x, y) && Alone(s, x, y);
    }
    forall x ensures RegShape(s', x) && RenterShape(s', x) && ProviderShape(s', x) {
      assert RegShape(s, x) && RenterShape(s, x) && ProviderShape(s, x);
    }
    forall x, q ensures ViewShape(s', x, q) {
      assert ViewShape(s, x, q) && RegShape(s, x);
      if x in s.reg && s.reg[x].role.Renter? {
        if d :| d in s.conns && Owes(s.conns[d], s.reg[x].conn, q) {
          assert Owes(s'.conns[d], s.reg[x].conn, q);
        }
      }
    }
  }

  lemma ConnectProviderStep(s: Net, c: ConnId, id: PeerId, vramGb: int, priceHalala: int, capacity: Capacity)
    requires Inv(s) && CanConnectProvider(s, c, id, vramGb, priceHalala, capacity)
    ensures Inv(AfterConnectProvider(s, c, id, vramGb, priceHalala, capacity))
  {
    assert RenterShape(s, id);
    FreshConn(s, AfterConnectProvider(s, c, id, vramGb, priceHalala, capacity), c, id);
  }

  lemma ConnectRenterStep(s: Net, c: ConnId, id: PeerId, minVramGb: int, maxPriceHalalaHr: int, timeoutSecs: int)
    requires Inv(s) && CanConnectRenter(s, c, id)
    ensures Inv(AfterConnectRenter(s, c, id, minVramGb, maxPriceHalalaHr, timeoutSecs))
  {
    FreshConn(s, AfterConnectRenter(s, c, id, minVramGb, maxPriceHalalaHr, timeoutSecs), c, id);
  }

  // ---- Every event ----

  lemma InvStep(s: Net, e: Event)
    requires Inv(s) && Enabled(s, e)
    ensures Inv(After(s, e))
  {
    match e
    case ConnectProvider(c, id, vramGb, priceHalala, capacity) =>
      ConnectProviderStep(s, c, id, vramGb, priceHalala, capacity);
    case ConnectRenter(c, id, vram, price, timeout) => ConnectRenterStep(s, c, id, vram, price, timeout);
    case Close(c) => CloseStep(s, c);
    case ServeHello(c, list) => ServeHelloStep(s, c, list);
    case BeginAnnounce(c, targets) => BeginAnnounceStep(s, c, targets);
    case RouteAnnounce(c, targets) => RouteAnnounceStep(s, c, targets);
    case RouteRequest(c, targets) => RouteRequestStep(s, c, targets);
    case RouteTo(c) => RouteToStep(s, c);
    case SendNext(c) =>
      if s.conns[c].handler.msg.JobRequest? {
        SendRequestStep(s, c);
      } else {
        SendAboutStep(s, c);
      }
    case Cleanup(c, targets) =>
      if Registered(s, c) && s.reg[s.conns[c].owner].role.Provider? {
        CleanupProvider(s, c, targets);
      } else {
        CleanupSilently(s, c, targets);
      }
    case Heartbeat(c, capacity) => HeartbeatStep(s, c, capacity);
    case DeliverToProvider(c) => DeliverToProviderStep(s, c);
    case DeliverToRenter(c) => DeliverToRenterStep(s, c);
    case DeliverDirect(id, result) => DeliverDirectStep(s, id, result);
    case Submit(id, job) => SubmitStep(s, id, job);
    case Choose(id, k) => ChooseStep(s, id, k);
    case StopWaiting(id) => StopWaitingStep(s, id);
    case Finish(k, success, output, elapsedSecs, direct, relayed) =>
      var result := ResultFor(s.execs[k].provider, s.execs[k].accept, success, output, elapsedSecs);
      FinishStep(s, k, result, direct, relayed);
  }
}
