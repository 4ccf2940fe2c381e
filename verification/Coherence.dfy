/**
 * A renter's provider cache and the relay's registry. In every reachable state, what a registered
 * renter has been sent, plus what broadcasts in progress still owe it, folds to the registry.
 */
module Coherence {
  import opened Ids
  import opened Options
  import opened P2PTypes
  import opened Relay
  import opened RenterSide
  import opened Network

  // ---- The invariant ----

  ghost predicate FromOwner(owner: PeerId, role: Role, msg: Msg) {
    match msg
    case AnnounceCapacity(peer, _) => role.Provider? && peer == owner
    case JobBid(_) => role.Provider?
    case JobResult(_) => role.Provider?
    case JobRequest(_) => role.Renter?
    case JobAccept(_) => role.Renter?
    case _ => false
  }

  /** A client says hello once, first, and a provider's hello carries its capacity. */
  ghost predicate UpShape(conn: Conn) {
    && conn.up.read <= |conn.up.log| && conn.up.log != []
    && conn.up.log[0].PeerHello? && conn.up.log[0].role == conn.role
    && (conn.role.Provider? <==> conn.up.log[0].hello.Some?)
    && forall i :: 1 <= i < |conn.up.log| ==> FromOwner(conn.owner, conn.role, conn.up.log[i])
  }

  ghost predicate DownShape(conn: Conn) {
    && conn.down.read <= |conn.down.log|
    && (conn.up.read == 0 ==> conn.down.log == [] && (conn.handler.Idle? || conn.handler.Done?))
  }

  /** A broadcast about a provider says what the registry says about it. */
  ghost predicate HandlerShape(reg: Registry, conn: Conn) {
    match conn.handler
    case AnnounceDue(capacity) =>
      conn.role.Provider? && conn.owner in reg && reg[conn.owner].capacity == Some(capacity)
    case Sending(AnnounceCapacity(peer, capacity), targets, closing) =>
      && targets != [] && !closing && conn.role.Provider? && peer == conn.owner
      && conn.owner in reg && reg[conn.owner].capacity == Some(capacity)
    case Sending(PeerBye(gone), targets, closing) =>
      targets != [] && closing && conn.role.Provider? && gone == conn.owner && conn.owner !in reg
    case Sending(JobRequest(_), targets, closing) =>
      targets != [] && !closing && conn.role.Renter?
    case Sending(_, _, _) => false
    case _ => true
  }

  ghost predicate Closing(conn: Conn) {
    conn.handler.Sending? && conn.handler.closing
  }

  ghost predicate ConnShape(s: Net, c: ConnId) {
    c in s.conns ==>
      && UpShape(s.conns[c]) && DownShape(s.conns[c]) && HandlerShape(s.reg, s.conns[c])
      && if s.conns[c].role.Renter? then
           s.conns[c].owner in s.renters && s.renters[s.conns[c].owner].conn == c
         else
           s.conns[c].owner in s.providers
  }

  /** Only a greeted connection is ever the target of a broadcast. */
  ghost predicate TargetShape(s: Net, c: ConnId, t: ConnId) {
    c in s.conns && s.conns[c].handler.Sending? && t in s.conns[c].handler.targets ==>
      t in s.conns && s.conns[t].up.read > 0
  }

  ghost predicate RegShape(s: Net, id: PeerId) {
    id in s.reg ==>
      && s.reg[id].conn in s.conns
      && var conn := s.conns[s.reg[id].conn];
      && conn.owner == id && conn.role == s.reg[id].role && Live(conn) && !Closing(conn) && conn.up.read > 0
      && (conn.role.Provider? ==> s.reg[id].capacity.Some?)
  }

  ghost predicate GreetedShape(s: Net, c: ConnId) {
    c in s.conns && s.conns[c].up.read > 0 && Live(s.conns[c]) && !Closing(s.conns[c]) ==>
      s.conns[c].owner in s.reg && s.reg[s.conns[c].owner].conn == c
  }

  ghost predicate Alone(s: Net, c: ConnId, d: ConnId) {
    c in s.conns && d in s.conns && Live(s.conns[c]) && Live(s.conns[d]) && s.conns[c].owner == s.conns[d].owner ==>
      c == d
  }

  ghost predicate CacheShape(cache: Cache, down: Chan) {
    down.read <= |down.log| && cache == CacheFold(map[], down.log[..down.read])
  }

  ghost predicate RenterShape(s: Net, id: PeerId) {
    id in s.renters ==>
      && id !in s.providers && s.renters[id].conn in s.conns
      && var conn := s.conns[s.renters[id].conn];
      && conn.owner == id && conn.role.Renter? && CacheShape(s.renters[id].cache, conn.down)
  }

  ghost predicate ProviderShape(s: Net, id: PeerId) {
    id in s.providers ==>
      && s.providers[id].conn in s.conns
      && s.conns[s.providers[id].conn].owner == id && s.conns[s.providers[id].conn].role.Provider?
  }

  /** The structure of a reachable network. Each part is used through its named predicate. */
  ghost predicate Shape(s: Net) {
    && (forall c {:trigger ConnShape(s, c)} :: ConnShape(s, c))
    && (forall c, t {:trigger TargetShape(s, c, t)} :: TargetShape(s, c, t))
    && (forall id {:trigger RegShape(s, id)} :: RegShape(s, id))
    && (forall c {:trigger GreetedShape(s, c)} :: GreetedShape(s, c))
    && (forall c, d {:trigger Alone(s, c, d)} :: Alone(s, c, d))
    && (forall id {:trigger RenterShape(s, id)} :: RenterShape(s, id))
    && (forall id {:trigger ProviderShape(s, id)} :: ProviderShape(s, id))
  }

  /** This handler still has to send connection `c` a message about provider `p`. */
  ghost predicate Owes(conn: Conn, c: ConnId, p: PeerId) {
    && conn.owner == p
    && (conn.handler.AnnounceDue?
        || (conn.handler.Sending? && !conn.handler.msg.JobRequest? && c in conn.handler.targets))
  }

  /** What `c` was sent about `p` is what the registry says, or a handler still owes it. */
  ghost predicate UpToDate(s: Net, c: ConnId, p: PeerId) {
    c in s.conns ==>
      || Lookup(CacheFold(map[], s.conns[c].down.log), p) == Lookup(ProviderView(s.reg), p)
      || exists d :: d in s.conns && Owes(s.conns[d], c, p)
  }

  ghost predicate ViewShape(s: Net, id: PeerId, p: PeerId) {
    id in s.reg && s.reg[id].role.Renter? ==> UpToDate(s, s.reg[id].conn, p)
  }

  ghost predicate Inv(s: Net) {
    var holds := Shape(s) && forall id, p {:trigger ViewShape(s, id, p)} :: ViewShape(s, id, p);
    holds
  }

  // ---- Folding one message more ----

  lemma FoldSnoc(cache: Cache, msgs: seq<Msg>, msg: Msg)
    ensures CacheFold(cache, msgs + [msg]) == CacheAfter(CacheFold(cache, msgs), msg)
  {
    assert (msgs + [msg])[..|msgs|] == msgs;
  }

  lemma {:induction false} FoldSplit(cache: Cache, first: seq<Msg>, second: seq<Msg>)
    ensures CacheFold(cache, first + second) == CacheFold(CacheFold(cache, first), second)
    decreases |second|
  {
    if second == [] {
      assert first + second == first;
    } else {
      var init, last := second[..|second| - 1], second[|second| - 1];
      assert first + second == (first + init) + [last];
      FoldSnoc(cache, first + init, last);
      FoldSplit(cache, first, init);
    }
  }

  /** Each row of a PEER_LIST shows; the rest of the cache stays. */
  lemma {:induction false} ListedLookup(cache: Cache, entries: seq<Entry>, p: PeerId)
    ensures (exists e <- entries :: e.peer == p && Lookup(Listed(cache, entries), p) == Some(e.capacity))
            || ((forall e <- entries :: e.peer != p) && Lookup(Listed(cache, entries), p) == Lookup(cache, p))
  {
    if entries != [] {
      var init, last := entries[..|entries| - 1], entries[|entries| - 1];
      ListedLookup(cache, init, p);
      assert entries == init + [last];
      assert last in entries;
    }
  }

  /** A PEER_LIST sent on registration shows a renter the whole registry. */
  lemma FreshView(reg: Registry, list: seq<Entry>, self: PeerId, p: PeerId)
    requires ListsProviders(list, reg, self)
    requires self in reg ==> reg[self].role.Renter?
    ensures Lookup(CacheFold(map[], [PeerList(list)]), p) == Lookup(ProviderView(reg), p)
  {
    var msgs := [PeerList(list)];
    assert msgs[..0] == [];
    assert CacheFold(map[], msgs) == Listed(map[], list);
    ListedLookup(map[], list, p);
    if p in reg && reg[p].role.Provider? {
      assert Entry(p, reg[p].capacity) in list;
    }
  }

  // ---- Steps that say nothing about providers ----

  ghost predicate Neutral(msg: Msg) {
    !msg.PeerList? && !msg.AnnounceCapacity? && !msg.PeerBye?
  }

  ghost predicate JobHandler(handler: Handler) {
    handler.Idle? || (handler.Sending? && handler.msg.JobRequest? && handler.targets != [] && !handler.closing)
  }

  ghost predicate QuietConn(k: Conn, k': Conn) {
    && k'.owner == k.owner && k'.role == k.role
    && k.up.log <= k'.up.log && k'.up.read <= |k'.up.log| && (k.up.read == 0 <==> k'.up.read == 0)
    && (forall i :: |k.up.log| <= i < |k'.up.log| ==> FromOwner(k.owner, k.role, k'.up.log[i]))
    && k.down.log <= k'.down.log && k.down.read <= k'.down.read <= |k'.down.log|
    && (forall i :: |k.down.log| <= i < |k'.down.log| ==> Neutral(k'.down.log[i]))
    && (k'.down.log != k.down.log ==> k.up.read > 0)
    && (k'.handler == k.handler
        || (k.role.Renter? && k.up.read > 0 && JobHandler(k.handler) && JobHandler(k'.handler)))
  }

  ghost predicate QuietAt(s: Net, s': Net, c: ConnId) {
    && (c in s'.conns <==> c in s.conns)
    && (c in s.conns ==> QuietConn(s.conns[c], s'.conns[c]))
  }

  ghost predicate Quiet(s: Net, s': Net) {
    s'.reg == s.reg && forall c {:trigger QuietAt(s, s', c)} :: QuietAt(s, s', c)
  }

  lemma {:induction false} NeutralFold(cache: Cache, msgs: seq<Msg>, more: seq<Msg>)
    requires msgs <= more
    requires forall i :: |msgs| <= i < |more| ==> Neutral(more[i])
    ensures CacheFold(cache, more) == CacheFold(cache, msgs)
    decreases |more|
  {
    if |msgs| < |more| {
      assert Neutral(more[|more| - 1]);
      NeutralFold(cache, msgs, more[..|more| - 1]);
    } else {
      assert more == msgs;
    }
  }

  lemma QuietUpShape(k: Conn, k': Conn)
    requires QuietConn(k, k') && UpShape(k)
    ensures UpShape(k')
  {
    forall i | 1 <= i < |k'.up.log|
      ensures FromOwner(k'.owner, k'.role, k'.up.log[i])
    {
      if i < |k.up.log| {
        assert k'.up.log[i] == k.up.log[i];
      }
    }
  }

  lemma QuietHandlerShape(reg: Registry, k: Conn, k': Conn)
    requires QuietConn(k, k') && DownShape(k) && HandlerShape(reg, k)
    ensures DownShape(k') && HandlerShape(reg, k')
  {
  }

  lemma QuietUpToDate(s: Net, s': Net, c: ConnId, p: PeerId)
    requires Quiet(s, s') && UpToDate(s, c, p)
    ensures UpToDate(s', c, p)
  {
    assert QuietAt(s, s', c);
    if c in s.conns {
      NeutralFold(map[], s.conns[c].down.log, s'.conns[c].down.log);
      if d :| d in s.conns && Owes(s.conns[d], c, p) {
        assert QuietAt(s, s', d);
        assert Owes(s'.conns[d], c, p);
      }
    }
  }

  /** Nodes keep their connections. */
  ghost predicate RenterKept(s: Net, s': Net, id: PeerId) {
    && (id in s'.renters <==> id in s.renters)
    && (id in s.renters ==> s'.renters[id].conn == s.renters[id].conn)
  }

  ghost predicate NodesKept(s: Net, s': Net) {
    s'.providers == s.providers && forall id {:trigger RenterKept(s, s', id)} :: RenterKept(s, s', id)
  }

  lemma QuietConnShape(s: Net, s': Net, c: ConnId)
    requires Quiet(s, s') && NodesKept(s, s') && ConnShape(s, c)
    ensures ConnShape(s', c)
  {
    assert QuietAt(s, s', c);
    if c in s.conns {
      QuietUpShape(s.conns[c], s'.conns[c]);
      QuietHandlerShape(s.reg, s.conns[c], s'.conns[c]);
      assert RenterKept(s, s', s.conns[c].owner);
    }
  }

  lemma QuietShape(s: Net, s': Net)
    requires Shape(s) && Quiet(s, s') && NodesKept(s, s')
    requires forall c, t {:trigger TargetShape(s', c, t)} :: TargetShape(s', c, t)
    requires forall id {:trigger RenterShape(s', id)} :: RenterShape(s', id)
    ensures Shape(s')
  {
    forall c ensures ConnShape(s', c) {
      assert ConnShape(s, c);
      QuietConnShape(s, s', c);
    }
    forall id ensures RegShape(s', id) {
      assert RegShape(s, id);
      if id in s.reg {
        assert QuietAt(s, s', s.reg[id].conn);
      }
    }
    forall c ensures GreetedShape(s', c) {
      assert GreetedShape(s, c) && QuietAt(s, s', c);
    }
    forall c, d ensures Alone(s', c, d) {
      assert Alone(s, c, d) && QuietAt(s, s', c) && QuietAt(s, s', d);
    }
    forall id ensures ProviderShape(s', id) {
      assert ProviderShape(s, id);
      if id in s.providers {
        assert QuietAt(s, s', s.providers[id].conn);
      }
    }
  }

  lemma QuietKeeps(s: Net, s': Net)
    requires Inv(s) && Quiet(s, s') && NodesKept(s, s')
    requires forall c, t {:trigger TargetShape(s', c, t)} :: TargetShape(s', c, t)
    requires forall id {:trigger RenterShape(s', id)} :: RenterShape(s', id)
    ensures Inv(s')
  {
    QuietShape(s, s');
    forall id, p ensures ViewShape(s', id, p) {
      assert ViewShape(s, id, p);
      if id in s.reg && s.reg[id].role.Renter? {
        QuietUpToDate(s, s', s.reg[id].conn, p);
      }
    }
  }

  /** Handlers stay where they are, and renters have been delivered nothing. */
  ghost predicate SameHandler(s: Net, s': Net, c: ConnId) {
    c in s.conns && c in s'.conns ==> s'.conns[c].handler == s.conns[c].handler
  }

  ghost predicate Undelivered(s: Net, s': Net, id: PeerId) {
    id in s.renters && id in s'.renters ==>
      && s'.renters[id].cache == s.renters[id].cache
      && (s.renters[id].conn in s.conns && s.renters[id].conn in s'.conns ==>
            s'.conns[s.renters[id].conn].down.read == s.conns[s.renters[id].conn].down.read)
  }

  lemma QuietStep(s: Net, s': Net)
    requires Inv(s) && Quiet(s, s') && NodesKept(s, s')
    requires forall c {:trigger SameHandler(s, s', c)} :: SameHandler(s, s', c)
    requires forall id {:trigger Undelivered(s, s', id)} :: Undelivered(s, s', id)
    ensures Inv(s')
  {
    forall c, t ensures TargetShape(s', c, t) {
      assert TargetShape(s, c, t) && QuietAt(s, s', c) && QuietAt(s, s', t) && SameHandler(s, s', c);
    }
    forall id ensures RenterShape(s', id) {
      assert RenterShape(s, id) && RenterKept(s, s', id) && Undelivered(s, s', id);
      if id in s.renters {
        assert QuietAt(s, s', s.renters[id].conn);
        CacheStays(s.renters[id].cache, s.conns[s.renters[id].conn].down, s'.conns[s.renters[id].conn].down);
      }
    }
    QuietKeeps(s, s');
  }

  lemma CacheStays(cache: Cache, down: Chan, down': Chan)
    requires CacheShape(cache, down) && down.log <= down'.log && down'.read == down.read
    ensures CacheShape(cache, down')
  {
    assert down'.log[..down.read] == down.log[..down.read];
  }
}
