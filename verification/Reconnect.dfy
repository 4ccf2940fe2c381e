/**
 * Why an id must not connect again before its old handler has returned. Without that guard there is a run
 * at whose end nothing is queued or owed to a renter, and its cache still lacks a registered provider: the
 * old handler's PEER_BYE was held up behind another renter and overtaken by the new announcement.
 */
module Reconnect {
  import opened Ids
  import opened Options
  import opened P2PTypes
  import opened Relay
  import opened RenterSide
  import opened Network
  import opened CoherenceTheorems

  // ---- The protocol without the guard ----

  /** `CanConnectProvider`, whether or not an old connection of the id is still being served. */
  predicate CanConnectAnyway(s: Net, c: ConnId, id: PeerId, vramGb: int, priceHalala: int, capacity: Capacity) {
    && c !in s.conns && id !in s.renters
    && (id in s.providers ==> s.providers[id].vramGb == vramGb && s.providers[id].priceHalala == priceHalala)
    && capacity.vramGb == vramGb && capacity.priceHalalaHr == priceHalala
  }

  ghost predicate LooseEnabled(s: Net, e: Event) {
    match e
    case ConnectProvider(c, id, vramGb, priceHalala, capacity) =>
      CanConnectAnyway(s, c, id, vramGb, priceHalala, capacity)
    case _ => Enabled(s, e)
  }

  ghost function LooseAfter(s: Net, e: Event): Net
    requires LooseEnabled(s, e)
  {
    match e
    case ConnectProvider(c, id, vramGb, priceHalala, capacity) =>
      AfterConnectProvider(s, c, id, vramGb, priceHalala, capacity)
    case _ => After(s, e)
  }

  ghost predicate LooseStep(s: Net, s': Net) {
    exists e :: LooseEnabled(s, e) && s' == LooseAfter(s, e)
  }

  /** Reachable without the guard. */
  ghost predicate IsLooseRun(run: seq<Net>) {
    && run != [] && run[0] == INIT
    && forall i :: 0 <= i < |run| - 1 ==> LooseStep(run[i], run[i + 1])
  }

  /** The guard is all that was dropped. */
  lemma RunsAreLooseRuns(run: seq<Net>)
    requires IsRun(run)
    ensures IsLooseRun(run)
  {
    forall i | 0 <= i < |run| - 1
      ensures LooseStep(run[i], run[i + 1])
    {
      assert Step(run[i], run[i + 1]);
      var e :| Enabled(run[i], e) && run[i + 1] == After(run[i], e);
      assert LooseEnabled(run[i], e) && run[i + 1] == LooseAfter(run[i], e);
    }
  }

  lemma Extend(run: seq<Net>, e: Event) returns (longer: seq<Net>)
    requires IsLooseRun(run) && LooseEnabled(run[|run| - 1], e)
    ensures IsLooseRun(longer) && longer[|longer| - 1] == LooseAfter(run[|run| - 1], e)
  {
    longer := run + [LooseAfter(run[|run| - 1], e)];
    assert LooseStep(run[|run| - 1], longer[|run|]);
    forall i | 0 <= i < |longer| - 1
      ensures LooseStep(longer[i], longer[i + 1])
    {
      if i < |run| - 1 {
        assert LooseStep(run[i], run[i + 1]);
      }
    }
  }

  // ---- Two renters and a provider that connects twice ----

  const A := PeerId("a")
  const B := PeerId("b")
  const P := PeerId("p")
  const CAPACITY := Capacity("gpu", 24, 100, 0)

  const RENTERS: Registry := map[A := Peer(0, Renter, None), B := Peer(1, Renter, None)]

  const ANNOUNCE := AnnounceCapacity(P, CAPACITY)

  function RenterConn(id: PeerId, down: Chan): Conn {
    Conn(id, Renter, true, Idle, Chan([PeerHello(Renter, None)], 1), down)
  }

  /** A connection of the provider that has been greeted, or not yet. */
  function ProviderConn(open: bool, handler: Handler, greeted: bool): Conn {
    Conn(P, Provider, open, handler, Chan([PeerHello(Provider, Some(CAPACITY))], if greeted then 1 else 0),
         Chan(if greeted then [PeerList([])] else [], 0))
  }

  function Node(c: ConnId, cache: Cache): RenterNode {
    RenterNode(c, 1, 1000, 60, cache, map[], map[], Ready)
  }

  /** `ps` are the provider's connections, `latest` the one it uses. */
  function World(downA: seq<Msg>, downB: Chan, cacheB: Cache, ps: map<ConnId, Conn>, reg: Registry,
                 latest: Option<ConnId>): Net {
    Net(map[0 := RenterConn(A, Chan(downA, 0)), 1 := RenterConn(B, downB)] + ps, reg,
        map[A := Node(0, map[]), B := Node(1, cacheB)],
        match latest case None => map[] case Some(c) => map[P := ProviderNode(c, 24, 100)],
        map[], map[], [], {}, map[])
  }

  predicate OnlyProviderConns(ps: map<ConnId, Conn>) {
    0 !in ps && 1 !in ps
  }

  lemma RentersAddressed(reg: Registry)
    requires reg == RENTERS || (exists c: ConnId :: reg == RENTERS[P := Peer(c, Provider, Some(CAPACITY))])
    ensures Addresses([0, 1], reg, Renter, None)
  {
    assert SentTo([A, B], [0, 1], reg, Renter, None);
  }

  /** A renter that connects first or second is registered and holds an empty list. */
  lemma JoinRenter(s: Net, c: ConnId, id: PeerId)
    requires CanConnectRenter(s, c, id)
    requires ListsProviders([], s.reg[id := Peer(c, Renter, None)], id)
    ensures LooseEnabled(s, ConnectRenter(c, id, 1, 1000, 60))
    ensures var s1 := LooseAfter(s, ConnectRenter(c, id, 1, 1000, 60));
      && LooseEnabled(s1, ServeHello(c, []))
      && LooseAfter(s1, ServeHello(c, []))
         == s.(conns := s.conns[c := RenterConn(id, Chan([PeerList([])], 0))],
               reg := s.reg[id := Peer(c, Renter, None)],
               renters := s.renters[id := Node(c, map[])])
  {
    var s1 := LooseAfter(s, ConnectRenter(c, id, 1, 1000, 60));
    assert AtHello(s1, c) && NextUp(s1, c) == PeerHello(Renter, None);
    var s2 := LooseAfter(s1, ServeHello(c, []));
    assert [] + [PeerList([])] == [PeerList([])];
    assert s2.conns == s.conns[c := RenterConn(id, Chan([PeerList([])], 0))];
  }

  /** Both renters are registered and hold an empty list. */
  lemma BothRenters() returns (run: seq<Net>)
    ensures IsLooseRun(run)
    ensures run[|run| - 1] == World([PeerList([])], Chan([PeerList([])], 0), map[], map[], RENTERS, None)
  {
    run := [INIT];
    JoinRenter(INIT, 0, A);
    run := Extend(run, ConnectRenter(0, A, 1, 1000, 60));
    run := Extend(run, ServeHello(0, []));
    var s := run[|run| - 1];
    JoinRenter(s, 1, B);
    run := Extend(run, ConnectRenter(1, B, 1, 1000, 60));
    run := Extend(run, ServeHello(1, []));
    s := run[|run| - 1];
    var t := World([PeerList([])], Chan([PeerList([])], 0), map[], map[], RENTERS, None);
    assert s.conns == t.conns && s.reg == t.reg && s.renters == t.renters;
  }

  // ---- The provider's steps ----

  /** It connects on `c`. */
  lemma ConnectP(downA: seq<Msg>, downB: Chan, cacheB: Cache, ps: map<ConnId, Conn>, latest: Option<ConnId>, c: ConnId)
    requires OnlyProviderConns(ps) && c > 1 && c !in ps
    ensures var s, e := World(downA, downB, cacheB, ps, RENTERS, latest), ConnectProvider(c, P, 24, 100, CAPACITY);
      && LooseEnabled(s, e)
      && LooseAfter(s, e) == World(downA, downB, cacheB, ps[c := ProviderConn(true, Idle, false)], RENTERS, Some(c))
  {
    var s, e := World(downA, downB, cacheB, ps, RENTERS, latest), ConnectProvider(c, P, 24, 100, CAPACITY);
    var t := World(downA, downB, cacheB, ps[c := ProviderConn(true, Idle, false)], RENTERS, Some(c));
    assert LooseAfter(s, e).conns == t.conns;
    assert LooseAfter(s, e).providers == t.providers;
  }

  lemma NothingListed(c: ConnId)
    ensures ListsProviders([], RENTERS[P := Peer(c, Provider, Some(CAPACITY))], P)
  {
  }

  /** It is greeted; the announcement is due. */
  lemma GreetP(downA: seq<Msg>, downB: Chan, cacheB: Cache, ps: map<ConnId, Conn>, latest: Option<ConnId>, c: ConnId)
    requires OnlyProviderConns(ps) && c in ps && ps[c] == ProviderConn(true, Idle, false)
    ensures var s := World(downA, downB, cacheB, ps, RENTERS, latest);
      && LooseEnabled(s, ServeHello(c, []))
      && LooseAfter(s, ServeHello(c, []))
         == World(downA, downB, cacheB, ps[c := ProviderConn(true, AnnounceDue(CAPACITY), true)],
                  RENTERS[P := Peer(c, Provider, Some(CAPACITY))], latest)
  {
    var s := World(downA, downB, cacheB, ps, RENTERS, latest);
    assert s.conns[c] == ps[c];
    assert NextUp(s, c) == PeerHello(Provider, Some(CAPACITY));
    NothingListed(c);
    hide ListsProviders;
    var t := World(downA, downB, cacheB, ps[c := ProviderConn(true, AnnounceDue(CAPACITY), true)],
                   RENTERS[P := Peer(c, Provider, Some(CAPACITY))], latest);
    assert [] + [PeerList([])] == [PeerList([])];
    assert AfterServeHello(s, c, []).conns[c] == t.conns[c];
    assert AfterServeHello(s, c, []).conns == t.conns;
  }

  /** The announcement starts its way to both renters. */
  lemma BeginAnnouncing(downA: seq<Msg>, downB: Chan, cacheB: Cache, ps: map<ConnId, Conn>, latest: Option<ConnId>,
                        c: ConnId)
    requires OnlyProviderConns(ps) && c in ps && ps[c] == ProviderConn(true, AnnounceDue(CAPACITY), true)
    ensures var s := World(downA, downB, cacheB, ps, RENTERS[P := Peer(c, Provider, Some(CAPACITY))], latest);
      && LooseEnabled(s, BeginAnnounce(c, [0, 1]))
      && LooseAfter(s, BeginAnnounce(c, [0, 1]))
         == World(downA, downB, cacheB, ps[c := ProviderConn(true, Sending(ANNOUNCE, [0, 1], false), true)],
                  RENTERS[P := Peer(c, Provider, Some(CAPACITY))], latest)
  {
    var s := World(downA, downB, cacheB, ps, RENTERS[P := Peer(c, Provider, Some(CAPACITY))], latest);
    RentersAddressed(s.reg);
    assert LooseAfter(s, BeginAnnounce(c, [0, 1])).conns
      == World(downA, downB, cacheB, ps[c := ProviderConn(true, Sending(ANNOUNCE, [0, 1], false), true)], s.reg,
               latest).conns;
  }

  lemma SendEffect(s: Net, c: ConnId, t: ConnId, msg: Msg, rest: seq<ConnId>, closing: bool)
    requires c in s.conns && t in s.conns && t != c && s.conns[c].handler == Sending(msg, [t] + rest, closing)
    ensures LooseEnabled(s, SendNext(c))
    ensures LooseAfter(s, SendNext(c))
         == s.(conns := s.conns[t := s.conns[t].(down := Push(s.conns[t].down, msg))]
                               [c := s.conns[c].(handler := Onward(msg, rest, closing))])
  {
    assert ([t] + rest)[0] == t && ([t] + rest)[1..] == rest;
  }

  /** One send of a broadcast to the first renter. */
  lemma SendToA(downA: seq<Msg>, downB: Chan, cacheB: Cache, ps: map<ConnId, Conn>, reg: Registry,
                latest: Option<ConnId>, c: ConnId, open: bool, msg: Msg, closing: bool)
    requires OnlyProviderConns(ps) && c in ps && ps[c] == ProviderConn(open, Sending(msg, [0, 1], closing), true)
    ensures var s := World(downA, downB, cacheB, ps, reg, latest);
      && LooseEnabled(s, SendNext(c))
      && LooseAfter(s, SendNext(c))
         == World(downA + [msg], downB, cacheB, ps[c := ProviderConn(open, Sending(msg, [1], closing), true)],
                  reg, latest)
  {
    var s := World(downA, downB, cacheB, ps, reg, latest);
    assert [0, 1] == [0] + [1] && s.conns[c] == ps[c] && s.conns[0] == RenterConn(A, Chan(downA, 0));
    SendEffect(s, c, 0, msg, [1], closing);
    hide LooseEnabled, LooseAfter;
    var p := ProviderConn(open, Sending(msg, [1], closing), true);
    var t := World(downA + [msg], downB, cacheB, ps[c := p], reg, latest);
    assert s.conns[0 := RenterConn(A, Chan(downA + [msg], 0))][c := p] == t.conns;
  }

  /** And the last one, to the second renter. */
  lemma SendToB(downA: seq<Msg>, downB: Chan, cacheB: Cache, ps: map<ConnId, Conn>, reg: Registry,
                latest: Option<ConnId>, c: ConnId, open: bool, msg: Msg, closing: bool)
    requires OnlyProviderConns(ps) && c in ps && ps[c] == ProviderConn(open, Sending(msg, [1], closing), true)
    ensures var s := World(downA, downB, cacheB, ps, reg, latest);
      && LooseEnabled(s, SendNext(c))
      && LooseAfter(s, SendNext(c))
         == World(downA, Push(downB, msg), cacheB, ps[c := ProviderConn(open, if closing then Done else Idle, true)],
                  reg, latest)
  {
    var s := World(downA, downB, cacheB, ps, reg, latest);
    assert [1] == [1] + [] && s.conns[c] == ps[c] && s.conns[1] == RenterConn(B, downB);
    SendEffect(s, c, 1, msg, [], closing);
    hide LooseEnabled, LooseAfter;
    var p := ProviderConn(open, if closing then Done else Idle, true);
    var t := World(downA, Push(downB, msg), cacheB, ps[c := p], reg, latest);
    assert s.conns[1 := RenterConn(B, Push(downB, msg))][c := p] == t.conns;
  }

  /** The connection closes. */
  lemma CloseP(downA: seq<Msg>, downB: Chan, cacheB: Cache, ps: map<ConnId, Conn>, reg: Registry,
               latest: Option<ConnId>, c: ConnId)
    requires OnlyProviderConns(ps) && c in ps && ps[c] == ProviderConn(true, Idle, true)
    ensures var s := World(downA, downB, cacheB, ps, reg, latest);
      && LooseEnabled(s, Close(c))
      && LooseAfter(s, Close(c)) == World(downA, downB, cacheB, ps[c := ProviderConn(false, Idle, true)], reg, latest)
  {
    var s := World(downA, downB, cacheB, ps, reg, latest);
    assert LooseAfter(s, Close(c)).conns
        == World(downA, downB, cacheB, ps[c := ProviderConn(false, Idle, true)], reg, latest).conns;
  }

  lemma CleanupEffect(s: Net, c: ConnId)
    requires Registered(s, c) && !s.conns[c].open && s.conns[c].handler.Idle? && s.reg[s.conns[c].owner].role.Provider?
    requires Addresses([0, 1], Removed(s.reg, s.conns[c].owner), Renter, None)
    ensures LooseEnabled(s, Cleanup(c, [0, 1]))
    ensures LooseAfter(s, Cleanup(c, [0, 1]))
         == s.(reg := Removed(s.reg, s.conns[c].owner),
               conns := s.conns[c := s.conns[c].(handler := Sending(PeerBye(s.conns[c].owner), [0, 1], true))])
  {
    hide Addresses, Removed;
  }

  lemma CleanupReady(downA: seq<Msg>, downB: Chan, cacheB: Cache, ps: map<ConnId, Conn>, latest: Option<ConnId>,
                     c: ConnId)
    requires OnlyProviderConns(ps) && c in ps && ps[c] == ProviderConn(false, Idle, true)
    ensures var s := World(downA, downB, cacheB, ps, RENTERS[P := Peer(c, Provider, Some(CAPACITY))], latest);
      && c in s.conns && s.conns[c] == ps[c] && Registered(s, c) && s.reg[P].role.Provider?
      && Removed(s.reg, P) == RENTERS && Addresses([0, 1], RENTERS, Renter, None)
  {
    var s := World(downA, downB, cacheB, ps, RENTERS[P := Peer(c, Provider, Some(CAPACITY))], latest);
    RenterIds();
    assert Removed(s.reg, P) == RENTERS;
    RentersAddressed(RENTERS);
    hide Addresses, Removed;
  }

  /** Its handler cleans up; the PEER_BYE is about to go out. */
  lemma CleanupP(downA: seq<Msg>, downB: Chan, cacheB: Cache, ps: map<ConnId, Conn>, latest: Option<ConnId>, c: ConnId)
    requires OnlyProviderConns(ps) && c in ps && ps[c] == ProviderConn(false, Idle, true)
    ensures var s := World(downA, downB, cacheB, ps, RENTERS[P := Peer(c, Provider, Some(CAPACITY))], latest);
      && LooseEnabled(s, Cleanup(c, [0, 1]))
      && LooseAfter(s, Cleanup(c, [0, 1]))
         == World(downA, downB, cacheB, ps[c := ProviderConn(false, Sending(PeerBye(P), [0, 1], true), true)],
                  RENTERS, latest)
  {
    hide Addresses, Registered, LooseEnabled, LooseAfter, Removed;
    var s := World(downA, downB, cacheB, ps, RENTERS[P := Peer(c, Provider, Some(CAPACITY))], latest);
    CleanupReady(downA, downB, cacheB, ps, latest, c);
    CleanupEffect(s, c);
    var t := World(downA, downB, cacheB, ps[c := ProviderConn(false, Sending(PeerBye(P), [0, 1], true), true)],
                   RENTERS, latest);
    assert s.conns[c := t.conns[c]] == t.conns;
  }

  lemma RenterIds()
    ensures P !in RENTERS
  {
  }

  lemma ReadEffect(s: Net, c: ConnId)
    requires CanDeliver(s, c) && s.conns[c].role.Renter? && s.conns[c].owner in s.renters
    requires NextDown(s, c).PeerList? || NextDown(s, c).AnnounceCapacity? || NextDown(s, c).PeerBye?
    ensures LooseEnabled(s, DeliverToRenter(c))
    ensures var id := s.conns[c].owner;
      LooseAfter(s, DeliverToRenter(c))
         == s.(conns := ReadDown(s.conns, c),
               renters := s.renters[id := s.renters[id].(cache := CacheAfter(s.renters[id].cache, NextDown(s, c)))])
  {
    hide CacheAfter, ReadDown;
  }

  /** The second renter reads its next message. */
  lemma ReadB(downA: seq<Msg>, downB: Chan, cacheB: Cache, ps: map<ConnId, Conn>, reg: Registry, latest: Option<ConnId>)
    requires OnlyProviderConns(ps) && HasUnread(downB)
    requires var msg := downB.log[downB.read]; msg.PeerList? || msg.AnnounceCapacity? || msg.PeerBye?
    ensures var s := World(downA, downB, cacheB, ps, reg, latest);
      && LooseEnabled(s, DeliverToRenter(1))
      && LooseAfter(s, DeliverToRenter(1))
         == World(downA, downB.(read := downB.read + 1), CacheAfter(cacheB, downB.log[downB.read]), ps, reg, latest)
  {
    hide LooseEnabled, LooseAfter, CacheAfter;
    var s := World(downA, downB, cacheB, ps, reg, latest);
    assert s.conns[1] == RenterConn(B, downB);
    ReadEffect(s, 1);
    var t := World(downA, downB.(read := downB.read + 1), CacheAfter(cacheB, downB.log[downB.read]), ps, reg, latest);
    assert ReadDown(s.conns, 1) == t.conns;
    assert s.renters[B := t.renters[B]] == t.renters;
  }

  // ---- The run ----

  /** The runs that end there. */
  ghost function RunsTo(s: Net): iset<seq<Net>> {
    iset run | IsLooseRun(run) && run[|run| - 1] == s
  }

  lemma Go(run: seq<Net>, s: Net, e: Event, s': Net) returns (longer: seq<Net>)
    requires run in RunsTo(s) && LooseEnabled(s, e) && LooseAfter(s, e) == s'
    ensures longer in RunsTo(s')
  {
    longer := Extend(run, e);
  }

  /** The provider connects on `c` and announces itself to both renters. */
  lemma Announced(run: seq<Net>, downA: seq<Msg>, downB: seq<Msg>, ps: map<ConnId, Conn>, latest: Option<ConnId>,
                  c: ConnId)
    returns (longer: seq<Net>)
    requires OnlyProviderConns(ps) && c > 1 && c !in ps
    requires run in RunsTo(World(downA, Chan(downB, 0), map[], ps, RENTERS, latest))
    ensures longer in RunsTo(World(downA + [ANNOUNCE], Chan(downB + [ANNOUNCE], 0), map[],
                                   ps[c := ProviderConn(true, Idle, true)],
                                   RENTERS[P := Peer(c, Provider, Some(CAPACITY))], Some(c)))
  {
    hide World, LooseEnabled, LooseAfter, ProviderConn, RunsTo;
    var reg, b := RENTERS[P := Peer(c, Provider, Some(CAPACITY))], Chan(downB, 0);
    var p1 := ps[c := ProviderConn(true, Idle, false)];
    var p2 := ps[c := ProviderConn(true, AnnounceDue(CAPACITY), true)];
    var p3 := ps[c := ProviderConn(true, Sending(ANNOUNCE, [0, 1], false), true)];
    var p4 := ps[c := ProviderConn(true, Sending(ANNOUNCE, [1], false), true)];
    var p5 := ps[c := ProviderConn(true, Idle, true)];
    assert p1[c := p2[c]] == p2 && p2[c := p3[c]] == p3 && p3[c := p4[c]] == p4 && p4[c := p5[c]] == p5;
    ConnectP(downA, b, map[], ps, latest, c);
    longer := Go(run, World(downA, b, map[], ps, RENTERS, latest), ConnectProvider(c, P, 24, 100, CAPACITY),
                 World(downA, b, map[], p1, RENTERS, Some(c)));
    GreetP(downA, b, map[], p1, Some(c), c);
    longer := Go(longer, World(downA, b, map[], p1, RENTERS, Some(c)), ServeHello(c, []),
                 World(downA, b, map[], p2, reg, Some(c)));
    BeginAnnouncing(downA, b, map[], p2, Some(c), c);
    longer := Go(longer, World(downA, b, map[], p2, reg, Some(c)), BeginAnnounce(c, [0, 1]),
                 World(downA, b, map[], p3, reg, Some(c)));
    SendToA(downA, b, map[], p3, reg, Some(c), c, true, ANNOUNCE, false);
    longer := Go(longer, World(downA, b, map[], p3, reg, Some(c)), SendNext(c),
                 World(downA + [ANNOUNCE], b, map[], p4, reg, Some(c)));
    SendToB(downA + [ANNOUNCE], b, map[], p4, reg, Some(c), c, true, ANNOUNCE, false);
    longer := Go(longer, World(downA + [ANNOUNCE], b, map[], p4, reg, Some(c)), SendNext(c),
                 World(downA + [ANNOUNCE], Chan(downB + [ANNOUNCE], 0), map[], p5, reg, Some(c)));
  }

  /** It leaves, and the goodbye gets as far as the first renter. */
  lemma HalfGone(run: seq<Net>, downA: seq<Msg>, downB: Chan, ps: map<ConnId, Conn>, c: ConnId)
    returns (longer: seq<Net>)
    requires OnlyProviderConns(ps) && c in ps && ps[c] == ProviderConn(true, Idle, true)
    requires run in RunsTo(World(downA, downB, map[], ps, RENTERS[P := Peer(c, Provider, Some(CAPACITY))], Some(c)))
    ensures longer in RunsTo(World(downA + [PeerBye(P)], downB, map[],
                                   ps[c := ProviderConn(false, Sending(PeerBye(P), [1], true), true)],
                                   RENTERS, Some(c)))
  {
    hide World, LooseEnabled, LooseAfter, ProviderConn, RunsTo;
    var reg := RENTERS[P := Peer(c, Provider, Some(CAPACITY))];
    var p1 := ps[c := ProviderConn(false, Idle, true)];
    var p2 := ps[c := ProviderConn(false, Sending(PeerBye(P), [0, 1], true), true)];
    var p3 := ps[c := ProviderConn(false, Sending(PeerBye(P), [1], true), true)];
    assert p1[c := p2[c]] == p2 && p2[c := p3[c]] == p3;
    CloseP(downA, downB, map[], ps, reg, Some(c), c);
    longer := Go(run, World(downA, downB, map[], ps, reg, Some(c)), Close(c),
                 World(downA, downB, map[], p1, reg, Some(c)));
    CleanupP(downA, downB, map[], p1, Some(c), c);
    longer := Go(longer, World(downA, downB, map[], p1, reg, Some(c)), Cleanup(c, [0, 1]),
                 World(downA, downB, map[], p2, RENTERS, Some(c)));
    SendToA(downA, downB, map[], p2, RENTERS, Some(c), c, false, PeerBye(P), true);
    longer := Go(longer, World(downA, downB, map[], p2, RENTERS, Some(c)), SendNext(c),
                 World(downA + [PeerBye(P)], downB, map[], p3, RENTERS, Some(c)));
  }

  /** It comes, goes, and is back and announced before the old goodbye reaches the second renter. */
  lemma BackAndGoodbye() returns (run: seq<Net>, downA: seq<Msg>)
    ensures run in RunsTo(World(downA, Chan([PeerList([]), ANNOUNCE, ANNOUNCE, PeerBye(P)], 0), map[],
                                map[2 := ProviderConn(false, Done, true), 3 := ProviderConn(true, Idle, true)],
                                RENTERS[P := Peer(3, Provider, Some(CAPACITY))], Some(3)))
  {
    run := BothRenters();
    hide World, LooseEnabled, LooseAfter, ProviderConn;
    var list := [PeerList([])];
    run := Announced(run, list, list, map[], None, 2);
    hide RunsTo;
    var p: map<ConnId, Conn> := map[2 := ProviderConn(true, Idle, true)];
    assert map[][2 := ProviderConn(true, Idle, true)] == p;
    run := HalfGone(run, list + [ANNOUNCE], Chan(list + [ANNOUNCE], 0), p, 2);
    p := p[2 := ProviderConn(false, Sending(PeerBye(P), [1], true), true)];
    downA := list + [ANNOUNCE] + [PeerBye(P)];
    run := Announced(run, downA, list + [ANNOUNCE], p, Some(2), 3);
    downA := downA + [ANNOUNCE];
    var reg := RENTERS[P := Peer(3, Provider, Some(CAPACITY))];
    p := p[3 := ProviderConn(true, Idle, true)];
    var downB := Chan(list + [ANNOUNCE] + [ANNOUNCE], 0);
    SendToB(downA, downB, map[], p, reg, Some(3), 2, false, PeerBye(P), true);
    var last := map[2 := ProviderConn(false, Done, true), 3 := ProviderConn(true, Idle, true)];
    assert p[2 := ProviderConn(false, Done, true)] == last;
    assert Push(downB, PeerBye(P)) == Chan([PeerList([]), ANNOUNCE, ANNOUNCE, PeerBye(P)], 0);
    run := Go(run, World(downA, downB, map[], p, reg, Some(3)), SendNext(2),
              World(downA, Chan([PeerList([]), ANNOUNCE, ANNOUNCE, PeerBye(P)], 0), map[], last, reg, Some(3)));
  }

  /** The second renter reads its queue to the end. */
  lemma ReadAll(run: seq<Net>, downA: seq<Msg>, log: seq<Msg>, ps: map<ConnId, Conn>, reg: Registry,
                latest: Option<ConnId>)
    returns (longer: seq<Net>, cache: Cache)
    requires OnlyProviderConns(ps) && log == [PeerList([]), ANNOUNCE, ANNOUNCE, PeerBye(P)]
    requires run in RunsTo(World(downA, Chan(log, 0), map[], ps, reg, latest))
    ensures longer in RunsTo(World(downA, Chan(log, 4), cache, ps, reg, latest)) && P !in cache
  {
    hide World, LooseEnabled, LooseAfter, RunsTo;
    longer, cache := run, map[];
    for i := 0 to 4
      invariant longer in RunsTo(World(downA, Chan(log, i), cache, ps, reg, latest))
      invariant i == 4 ==> P !in cache
    {
      ReadB(downA, Chan(log, i), cache, ps, reg, latest);
      longer := Go(longer, World(downA, Chan(log, i), cache, ps, reg, latest), DeliverToRenter(1),
                   World(downA, Chan(log, i + 1), CacheAfter(cache, log[i]), ps, reg, latest));
      cache := CacheAfter(cache, log[i]);
    }
  }

  /**
   * A run without the guard that ends with a renter registered, its queue read to the end and nothing owed to
   * it, and with a provider registered that its cache does not hold.
   */
  lemma LateByeHidesProvider() returns (run: seq<Net>)
    ensures IsLooseRun(run)
    ensures var s := run[|run| - 1];
      && B in s.reg && s.reg[B].role.Renter? && s.reg[B].conn in s.conns && B in s.renters
      && s.conns[s.reg[B].conn].down.read == |s.conns[s.reg[B].conn].down.log|
      && (forall d, msg :: d in s.conns ==> !OwedMsg(s.conns[d], s.reg[B].conn, msg))
      && P in ProviderView(s.reg) && P !in s.renters[B].cache
      && s.renters[B].cache != ProviderView(s.reg)
  {
    var downA, cache;
    run, downA := BackAndGoodbye();
    var log := [PeerList([]), ANNOUNCE, ANNOUNCE, PeerBye(P)];
    var ps := map[2 := ProviderConn(false, Done, true), 3 := ProviderConn(true, Idle, true)];
    run, cache := ReadAll(run, downA, log, ps, RENTERS[P := Peer(3, Provider, Some(CAPACITY))], Some(3));
    hide IsLooseRun;
    var s := run[|run| - 1];
    assert s.conns.Keys == {0, 1, 2, 3};
  }
}
