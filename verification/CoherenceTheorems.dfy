/** What the coherence invariant means for a renter, over every run. */
module CoherenceTheorems {
  import opened Ids
  import opened Options
  import opened P2PTypes
  import opened Relay
  import opened RenterSide
  import opened Network
  import opened Coherence
  import opened CoherenceSteps

  lemma {:induction false} InvAlways(run: seq<Net>, i: nat)
    requires IsRun(run) && i < |run|
    ensures Inv(run[i])
  {
    if i == 0 {
      assert Inv(INIT);
    } else {
      InvAlways(run, i - 1);
      assert Step(run[i - 1], run[i - 1 + 1]);
      var e :| Enabled(run[i - 1], e) && run[i] == After(run[i - 1], e);
      InvStep(run[i - 1], e);
    }
  }

  /** The message about its owner that a handler still has to send to `c`. */
  ghost predicate OwedMsg(conn: Conn, c: ConnId, msg: Msg) {
    match conn.handler
    case AnnounceDue(capacity) => msg == AnnounceCapacity(conn.owner, capacity)
    case Sending(sending, targets, _) => msg == sending && !msg.JobRequest? && c in targets
    case _ => false
  }

  /** `owed` holds every message that broadcasts in progress owe to `c`, in any order. */
  ghost predicate ListsOwed(s: Net, c: ConnId, owed: seq<Msg>) {
    && (forall msg <- owed :: exists d :: d in s.conns && OwedMsg(s.conns[d], c, msg))
    && (forall d, msg :: d in s.conns && OwedMsg(s.conns[d], c, msg) ==> msg in owed)
  }

  function Subject(msg: Msg): Option<PeerId> {
    match msg
    case AnnounceCapacity(peer, _) => Some(peer)
    case PeerBye(gone) => Some(gone)
    case _ => None
  }

  lemma OwedMsgValue(s: Net, d: ConnId, c: ConnId, msg: Msg, cache: Cache, p: PeerId)
    requires Shape(s) && d in s.conns && OwedMsg(s.conns[d], c, msg)
    ensures Lookup(CacheAfter(cache, msg), p)
         == if Subject(msg) == Some(p) then Lookup(ProviderView(s.reg), p) else Lookup(cache, p)
  {
    assert ConnShape(s, d) && RegShape(s, s.conns[d].owner) && GreetedShape(s, d);
  }

  lemma {:induction false} OwedFold(s: Net, c: ConnId, owed: seq<Msg>, cache: Cache, p: PeerId)
    requires Shape(s)
    requires forall msg <- owed :: exists d :: d in s.conns && OwedMsg(s.conns[d], c, msg)
    ensures (exists msg <- owed :: Subject(msg) == Some(p)) ==>
              Lookup(CacheFold(cache, owed), p) == Lookup(ProviderView(s.reg), p)
    ensures !(exists msg <- owed :: Subject(msg) == Some(p)) ==> Lookup(CacheFold(cache, owed), p) == Lookup(cache, p)
  {
    if owed != [] {
      var init, last := owed[..|owed| - 1], owed[|owed| - 1];
      assert owed == init + [last] && last in owed;
      assert forall msg <- init :: msg in owed;
      OwedFold(s, c, init, cache, p);
      var d :| d in s.conns && OwedMsg(s.conns[d], c, last);
      OwedMsgValue(s, d, c, last, CacheFold(cache, init), p);
    }
  }

  /**
   * In every reachable state, for every registered renter: its cache, then the messages queued for
   * it, then the messages broadcasts in progress still owe it, in whatever order these come, fold to
   * exactly the registered providers and their latest capacities.
   */
  lemma CacheFollowsRegistry(run: seq<Net>, i: nat, id: PeerId, owed: seq<Msg>)
    requires IsRun(run) && i < |run| && id in run[i].reg && run[i].reg[id].role.Renter?
    requires ListsOwed(run[i], run[i].reg[id].conn, owed)
    ensures var s := run[i];
            && s.reg[id].conn in s.conns && id in s.renters
            && var down := s.conns[s.reg[id].conn].down;
            && down.read <= |down.log|
            && CacheFold(CacheFold(s.renters[id].cache, down.log[down.read..]), owed) == ProviderView(s.reg)
  {
    var s := run[i];
    InvAlways(run, i);
    var c := s.reg[id].conn;
    assert RegShape(s, id) && ConnShape(s, c) && RenterShape(s, id);
    var down := s.conns[c].down;
    assert down.log == down.log[..down.read] + down.log[down.read..];
    FoldSplit(map[], down.log[..down.read], down.log[down.read..]);
    var sent := CacheFold(map[], down.log);
    forall p ensures Lookup(CacheFold(sent, owed), p) == Lookup(ProviderView(s.reg), p) {
      OwedFold(s, c, owed, sent, p);
      assert ViewShape(s, id, p);
      if d :| d in s.conns && Owes(s.conns[d], c, p) {
        OwesSubject(s, d, c, p, owed);
      }
    }
    SameLookups(CacheFold(sent, owed), ProviderView(s.reg));
  }

  lemma OwesSubject(s: Net, d: ConnId, c: ConnId, p: PeerId, owed: seq<Msg>)
    requires Shape(s) && d in s.conns && Owes(s.conns[d], c, p) && ListsOwed(s, c, owed)
    ensures exists msg <- owed :: Subject(msg) == Some(p)
  {
    assert ConnShape(s, d);
    var handler := s.conns[d].handler;
    var msg := if handler.AnnounceDue? then AnnounceCapacity(p, handler.capacity) else handler.msg;
    assert OwedMsg(s.conns[d], c, msg);
    assert msg in owed && Subject(msg) == Some(p);
  }

  lemma SameLookups<V>(m: map<PeerId, V>, n: map<PeerId, V>)
    requires forall p :: Lookup(m, p) == Lookup(n, p)
    ensures m == n
  {
    forall p
      ensures p in m <==> p in n
      ensures p in m ==> m[p] == n[p]
    {
      assert Lookup(m, p) == Lookup(n, p);
    }
  }

  /** Once a registered renter has read everything and nothing is owed to it, cache and registry agree. */
  lemma QuiescentCacheIsRegistry(run: seq<Net>, i: nat, id: PeerId)
    requires IsRun(run) && i < |run| && id in run[i].reg && run[i].reg[id].role.Renter?
    requires run[i].reg[id].conn in run[i].conns
    requires var down := run[i].conns[run[i].reg[id].conn].down; down.read == |down.log|
    requires forall d, msg :: d in run[i].conns ==> !OwedMsg(run[i].conns[d], run[i].reg[id].conn, msg)
    ensures id in run[i].renters && run[i].renters[id].cache == ProviderView(run[i].reg)
  {
    CacheFollowsRegistry(run, i, id, []);
  }
}
