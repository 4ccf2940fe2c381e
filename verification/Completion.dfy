/**
 * The protocol does what it is for: a renter's job that a provider is eligible for can go all the way, from the
 * two connecting to the renter holding the result, over the relay or straight to it.
 */
module Completion {
  import opened Ids
  import opened Options
  import opened P2PTypes
  import opened Relay
  import opened RenterSide
  import opened ProviderSide
  import opened Network

  /** A provider's machine and a renter's job. */
  datatype Deal = Deal(capacity: Capacity, minVramGb: int, maxPriceHalalaHr: int, timeoutSecs: int, job: JobId)

  /** How the provider's execution goes. */
  datatype Outcome = Outcome(success: bool, output: string, elapsedSecs: int)

  const R := PeerId("r")
  const P := PeerId("p")

  ghost predicate Suits(d: Deal) {
    d.minVramGb <= d.capacity.vramGb && d.capacity.priceHalalaHr <= d.maxPriceHalalaHr
  }

  // ---- States with the renter on connection 0 and the provider on connection 1 ----

  function RConn(handler: Handler, up: Chan, down: Chan): Conn {
    Conn(R, Renter, true, handler, up, down)
  }

  function PConn(handler: Handler, up: Chan, down: Chan): Conn {
    Conn(P, Provider, true, handler, up, down)
  }

  function Both(d: Deal): Registry {
    map[P := Peer(1, Provider, Some(d.capacity)), R := Peer(0, Renter, None)]
  }

  /** What has been decided and done about jobs. */
  datatype Past = Past(
    jobs: map<JobId, JobSpec>, awards: map<JobId, Award>, execs: seq<Exec>, direct: set<Result>,
    token: map<JobId, Token>)

  const NO_PAST := Past(map[], map[], [], {}, map[])

  function Two(d: Deal, r: Conn, p: Conn, node: RenterNode, past: Past): Net {
    Net(map[0 := r, 1 := p], Both(d), map[R := node],
        map[P := ProviderNode(1, d.capacity.vramGb, d.capacity.priceHalalaHr)],
        past.jobs, past.awards, past.execs, past.direct, past.token)
  }

  /** A queue with one message to be read next. */
  predicate Next(ch: Chan, msg: Msg) {
    HasUnread(ch) && ch.log[ch.read] == msg
  }

  function Advanced(ch: Chan): Chan {
    ch.(read := ch.read + 1)
  }

  lemma Apart()
    ensures R != P
  {
    assert R.name != P.name;
  }

  // ---- What each event does to such a state ----

  lemma PairPushed(r: Conn, p: Conn, msg: Msg)
    ensures var conns := map[0 := r, 1 := p];
      && PushUp(conns, 0, msg) == map[0 := r.(up := Push(r.up, msg)), 1 := p]
      && PushDown(conns, 0, msg) == map[0 := r.(down := Push(r.down, msg)), 1 := p]
      && PushDown(conns, 1, msg) == map[0 := r, 1 := p.(down := Push(p.down, msg))]
  {
    hide Push;
  }

  lemma PairRead(r: Conn, p: Conn, handler: Handler)
    ensures var conns := map[0 := r, 1 := p];
      && ReadUp(conns, 0, handler) == map[0 := r.(up := Advanced(r.up), handler := handler), 1 := p]
      && ReadUp(conns, 1, handler) == map[0 := r, 1 := p.(up := Advanced(p.up), handler := handler)]
      && ReadDown(conns, 0) == map[0 := r.(down := Advanced(r.down)), 1 := p]
  {
  }

  lemma OneRenter(node: RenterNode, node': RenterNode)
    ensures map[R := node][R := node'] == map[R := node']
  {
  }

  lemma Submitted(d: Deal, r: Conn, p: Conn, node: RenterNode, past: Past)
    requires r == RConn(r.handler, r.up, r.down) && node.conn == 0 && node.phase.Ready? && d.job !in past.jobs
    ensures var s := Two(d, r, p, node, past);
      && CanSubmit(s, R, d.job)
      && AfterSubmit(s, R, d.job)
         == Two(d, r.(up := Push(r.up, JobRequest(SpecOf(R, d.job, node)))), p,
                node.(bids := node.bids[d.job := []], phase := Bidding(d.job)),
                past.(jobs := past.jobs[d.job := SpecOf(R, d.job, node)]))
  {
    PairPushed(r, p, JobRequest(SpecOf(R, d.job, node)));
    OneRenter(node, node.(bids := node.bids[d.job := []], phase := Bidding(d.job)));
    hide SpecOf, PushUp, Both;
  }

  lemma SubmitStep(d: Deal, r: Conn, p: Conn, node: RenterNode, past: Past)
    requires r == RConn(r.handler, r.up, r.down) && node.conn == 0 && node.phase.Ready? && d.job !in past.jobs
    ensures var s := Two(d, r, p, node, past);
      && Enabled(s, Submit(R, d.job))
      && After(s, Submit(R, d.job))
         == Two(d, r.(up := Push(r.up, JobRequest(SpecOf(R, d.job, node)))), p,
                node.(bids := node.bids[d.job := []], phase := Bidding(d.job)),
                past.(jobs := past.jobs[d.job := SpecOf(R, d.job, node)]))
  {
    Submitted(d, r, p, node, past);
    hide Two, CanSubmit, AfterSubmit, SpecOf;
  }

  lemma ProviderAddressed(d: Deal)
    ensures Addresses([1], Both(d), Provider, Some(R))
  {
    Apart();
    assert SentTo([P], [1], Both(d), Provider, Some(R));
  }

  /** The relay takes the request up. */
  lemma RequestStep(d: Deal, r: Conn, p: Conn, node: RenterNode, past: Past, msg: Msg)
    requires r == RConn(Idle, r.up, r.down) && Next(r.up, msg) && msg.JobRequest?
    ensures var s := Two(d, r, p, node, past);
      && Enabled(s, RouteRequest(0, [1]))
      && After(s, RouteRequest(0, [1]))
         == Two(d, RConn(Sending(msg, [1], false), Advanced(r.up), r.down), p, node, past)
  {
    var s := Two(d, r, p, node, past);
    var t := Two(d, RConn(Sending(msg, [1], false), Advanced(r.up), r.down), p, node, past);
    ProviderAddressed(d);
    PairRead(r, p, Sending(msg, [1], false));
    hide Addresses, Both, ReadUp;
    assert AfterRouteRequest(s, 0, [1]).conns == t.conns;
  }

  /** And sends it to the provider. */
  lemma SendStep(d: Deal, r: Conn, p: Conn, node: RenterNode, past: Past, msg: Msg)
    requires r == RConn(Sending(msg, [1], false), r.up, r.down)
    ensures var s := Two(d, r, p, node, past);
      && Enabled(s, SendNext(0))
      && After(s, SendNext(0)) == Two(d, RConn(Idle, r.up, r.down), p.(down := Push(p.down, msg)), node, past)
  {
    hide Both;
    var s := Two(d, r, p, node, past);
    assert AfterSendNext(s, 0).conns == map[0 := RConn(Idle, r.up, r.down), 1 := p.(down := Push(p.down, msg))];
  }

  /** The provider reads something it need not act on. */
  lemma SkipStep(d: Deal, r: Conn, p: Conn, node: RenterNode, past: Past, msg: Msg)
    requires p == PConn(p.handler, p.up, p.down) && Next(p.down, msg) && msg.PeerList?
    ensures var s := Two(d, r, p, node, past);
      && Enabled(s, DeliverToProvider(1))
      && After(s, DeliverToProvider(1)) == Two(d, r, p.(down := Advanced(p.down)), node, past)
  {
    var s := Two(d, r, p, node, past);
    assert After(s, DeliverToProvider(1)).conns == map[0 := r, 1 := p.(down := Advanced(p.down))];
  }

  /** An eligible provider bids. */
  lemma BidStep(d: Deal, r: Conn, p: Conn, node: RenterNode, past: Past, spec: JobSpec)
    requires p == PConn(p.handler, p.up, p.down) && Next(p.down, JobRequest(spec))
    requires spec.minVramGb <= d.capacity.vramGb && d.capacity.priceHalalaHr <= spec.maxPriceHalalaHr
    ensures var s := Two(d, r, p, node, past);
      var bid := BidFor(P, d.capacity.vramGb, d.capacity.priceHalalaHr, spec);
      && Enabled(s, DeliverToProvider(1))
      && After(s, DeliverToProvider(1))
         == Two(d, r, p.(up := Push(p.up, JobBid(bid)), down := Advanced(p.down)), node, past)
  {
    hide BidFor;
    var s := Two(d, r, p, node, past);
    var bid := BidFor(P, d.capacity.vramGb, d.capacity.priceHalalaHr, spec);
    assert After(s, DeliverToProvider(1)).conns
      == map[0 := r, 1 := p.(up := Push(p.up, JobBid(bid)), down := Advanced(p.down))];
  }

  /** The relay passes the provider's bid or result on to the renter. */
  lemma ToRenterStep(d: Deal, r: Conn, p: Conn, node: RenterNode, past: Past, msg: Msg)
    requires p == PConn(Idle, p.up, p.down) && Next(p.up, msg)
    requires (msg.JobBid? && msg.bid.renter == R) || (msg.JobResult? && msg.result.renter == R)
    ensures var s := Two(d, r, p, node, past);
      && Enabled(s, RouteTo(1))
      && After(s, RouteTo(1)) == Two(d, r.(down := Push(r.down, msg)), p.(up := Advanced(p.up)), node, past)
  {
    Apart();
    PairRead(r, p, Idle);
    PairPushed(r, p.(up := Advanced(p.up)), msg);
    hide ReadUp, PushDown;
    var s := Two(d, r, p, node, past);
    assert AfterRouteTo(s, 1).conns == map[0 := r.(down := Push(r.down, msg)), 1 := p.(up := Advanced(p.up))];
  }

  /** And the renter's accept to the provider. */
  lemma ToProviderStep(d: Deal, r: Conn, p: Conn, node: RenterNode, past: Past, accept: Accept)
    requires r == RConn(Idle, r.up, r.down) && Next(r.up, JobAccept(accept)) && accept.provider == P
    ensures var s := Two(d, r, p, node, past);
      && Enabled(s, RouteTo(0))
      && After(s, RouteTo(0))
         == Two(d, r.(up := Advanced(r.up)), p.(down := Push(p.down, JobAccept(accept))), node,
                past.(token := past.token[accept.jobId := InDown(1, |p.down.log|)]))
  {
    Apart();
    PairRead(r, p, Idle);
    PairPushed(r.(up := Advanced(r.up)), p, JobAccept(accept));
    hide ReadUp, PushDown;
    var s := Two(d, r, p, node, past);
    assert AfterRouteTo(s, 0).conns
      == map[0 := r.(up := Advanced(r.up)), 1 := p.(down := Push(p.down, JobAccept(accept)))];
  }

  lemma Delivered(d: Deal, r: Conn, p: Conn, node: RenterNode, past: Past, msg: Msg)
    requires r == RConn(r.handler, r.up, r.down) && Next(r.down, msg)
    ensures var s := Two(d, r, p, node, past);
      && CanDeliverToRenter(s, 0)
      && AfterDeliverToRenter(s, 0) == Two(d, r.(down := Advanced(r.down)), p, Dispatched(node, msg), past)
  {
    PairRead(r, p, Idle);
    OneRenter(node, Dispatched(node, msg));
    hide Dispatched, Both, ReadDown;
  }

  lemma ReadStep(d: Deal, r: Conn, p: Conn, node: RenterNode, past: Past, msg: Msg)
    requires r == RConn(r.handler, r.up, r.down) && Next(r.down, msg)
    ensures var s := Two(d, r, p, node, past);
      && Enabled(s, DeliverToRenter(0))
      && After(s, DeliverToRenter(0)) == Two(d, r.(down := Advanced(r.down)), p, Dispatched(node, msg), past)
  {
    Delivered(d, r, p, node, past, msg);
    hide Two, Dispatched, CanDeliverToRenter, AfterDeliverToRenter;
  }

  lemma Chosen(d: Deal, r: Conn, p: Conn, node: RenterNode, past: Past, bid: Bid)
    requires r == RConn(r.handler, r.up, r.down) && node.conn == 0 && node.phase == Bidding(d.job)
    requires d.job in node.bids && node.bids[d.job] == [bid]
    ensures var s := Two(d, r, p, node, past);
      var accept := AcceptOf(R, d.job, bid);
      && CanChoose(s, R, 0)
      && AfterChoose(s, R, 0)
         == Two(d, r.(up := Push(r.up, JobAccept(accept))), p, node.(phase := Waiting(d.job)),
                past.(awards := past.awards[d.job := Award(accept, bid, [bid])],
                      token := past.token[d.job := InUp(0, |r.up.log|)]))
  {
    assert FirstCheapest([bid], 0);
    PairPushed(r, p, JobAccept(AcceptOf(R, d.job, bid)));
    OneRenter(node, node.(phase := Waiting(d.job)));
    hide AcceptOf, Both, PushUp, FirstCheapest;
  }

  /** The window closes on one bid. */
  lemma ChooseStep(d: Deal, r: Conn, p: Conn, node: RenterNode, past: Past, bid: Bid)
    requires r == RConn(r.handler, r.up, r.down) && node.conn == 0 && node.phase == Bidding(d.job)
    requires d.job in node.bids && node.bids[d.job] == [bid]
    ensures var s := Two(d, r, p, node, past);
      var accept := AcceptOf(R, d.job, bid);
      && Enabled(s, Choose(R, 0))
      && After(s, Choose(R, 0))
         == Two(d, r.(up := Push(r.up, JobAccept(accept))), p, node.(phase := Waiting(d.job)),
                past.(awards := past.awards[d.job := Award(accept, bid, [bid])],
                      token := past.token[d.job := InUp(0, |r.up.log|)]))
  {
    Chosen(d, r, p, node, past, bid);
    hide Two, AcceptOf, CanChoose, AfterChoose;
  }

  lemma StartStep(d: Deal, r: Conn, p: Conn, node: RenterNode, past: Past, accept: Accept)
    requires p == PConn(p.handler, p.up, p.down) && Next(p.down, JobAccept(accept))
    ensures var s := Two(d, r, p, node, past);
      && Enabled(s, DeliverToProvider(1))
      && After(s, DeliverToProvider(1))
         == Two(d, r, p.(down := Advanced(p.down)), node,
                past.(execs := past.execs + [Exec(P, accept, None)],
                      token := past.token[accept.jobId := Started(|past.execs|)]))
  {
    var s := Two(d, r, p, node, past);
    assert After(s, DeliverToProvider(1)).conns == map[0 := r, 1 := p.(down := Advanced(p.down))];
  }

  /** The execution ends; its payload goes straight to the renter, or over the relay. */
  lemma FinishStep(d: Deal, r: Conn, p: Conn, node: RenterNode, past: Past, accept: Accept, o: Outcome, direct: bool)
    requires p == PConn(p.handler, p.up, p.down) && past.execs == [Exec(P, accept, None)]
    ensures var s, e := Two(d, r, p, node, past), Finish(0, o.success, o.output, o.elapsedSecs, direct, !direct);
      var result := ResultFor(P, accept, o.success, o.output, o.elapsedSecs);
      && Enabled(s, e)
      && After(s, e)
         == Two(d, r, if direct then p else p.(up := Push(p.up, JobResult(result))), node,
                past.(execs := [Exec(P, accept, Some(result))],
                      direct := if direct then past.direct + {result} else past.direct))
  {
    hide ResultFor;
    var s, e := Two(d, r, p, node, past), Finish(0, o.success, o.output, o.elapsedSecs, direct, !direct);
    var result := ResultFor(P, accept, o.success, o.output, o.elapsedSecs);
    assert After(s, e).conns == map[0 := r, 1 := if direct then p else p.(up := Push(p.up, JobResult(result)))];
  }

  lemma DirectStep(d: Deal, r: Conn, p: Conn, node: RenterNode, past: Past, result: Result)
    requires past.direct == {result} && result.renter == R
    ensures var s := Two(d, r, p, node, past);
      && Enabled(s, DeliverDirect(R, result))
      && After(s, DeliverDirect(R, result)) == Two(d, r, p, Dispatched(node, JobResult(result)), past.(direct := {}))
  {
    hide Dispatched;
  }

  /** `submit_job` returns. */
  lemma StopStep(d: Deal, r: Conn, p: Conn, node: RenterNode, past: Past)
    requires node.phase.Waiting?
    ensures var s := Two(d, r, p, node, past);
      && Enabled(s, StopWaiting(R))
      && After(s, StopWaiting(R)) == Two(d, r, p, node.(phase := Ready), past)
  {
    OneRenter(node, node.(phase := Ready));
  }

  /** The provider announces itself again, with the same machine at the same price. */
  lemma HeartbeatStep(d: Deal, r: Conn, p: Conn, node: RenterNode, past: Past, capacity: Capacity)
    requires p == PConn(p.handler, p.up, p.down)
    requires capacity.vramGb == d.capacity.vramGb && capacity.priceHalalaHr == d.capacity.priceHalalaHr
    ensures var s := Two(d, r, p, node, past);
      && Enabled(s, Heartbeat(1, capacity))
      && After(s, Heartbeat(1, capacity))
         == Two(d, r, p.(up := Push(p.up, AnnounceCapacity(P, capacity))), node, past)
  {
    PairPushedByProvider(r, p, AnnounceCapacity(P, capacity));
    hide PushUp, Both;
  }

  lemma PairPushedByProvider(r: Conn, p: Conn, msg: Msg)
    ensures PushUp(map[0 := r, 1 := p], 1, msg) == map[0 := r, 1 := p.(up := Push(p.up, msg))]
  {
    hide Push;
  }

  lemma RenterAddressed(d: Deal)
    ensures Addresses([0], Both(d), Renter, Some(P))
  {
    Apart();
    assert SentTo([R], [0], Both(d), Renter, Some(P));
  }

  lemma RefreshedBoth(d: Deal, capacity: Capacity)
    ensures Refreshed(Both(d), P, capacity) == Both(d.(capacity := capacity))
  {
    Apart();
  }

  /** The relay takes the announcement up. */
  lemma AnnouncedStep(d: Deal, r: Conn, p: Conn, node: RenterNode, past: Past, capacity: Capacity)
    requires capacity.vramGb == d.capacity.vramGb && capacity.priceHalalaHr == d.capacity.priceHalalaHr
    requires p == PConn(Idle, p.up, p.down) && Next(p.up, AnnounceCapacity(P, capacity))
    ensures var s := Two(d, r, p, node, past);
      && Enabled(s, RouteAnnounce(1, [0]))
      && After(s, RouteAnnounce(1, [0]))
         == Two(d.(capacity := capacity), r,
                PConn(Sending(AnnounceCapacity(P, capacity), [0], false), Advanced(p.up), p.down), node, past)
  {
    RefreshedBoth(d, capacity);
    RenterAddressed(d.(capacity := capacity));
    PairRead(r, p, Sending(AnnounceCapacity(P, capacity), [0], false));
    hide Addresses, Both, ReadUp, Refreshed;
  }

  /** And sends it to the renter. */
  lemma AnnounceOnStep(d: Deal, r: Conn, p: Conn, node: RenterNode, past: Past, msg: Msg)
    requires p == PConn(Sending(msg, [0], false), p.up, p.down)
    ensures var s := Two(d, r, p, node, past);
      && Enabled(s, SendNext(1))
      && After(s, SendNext(1)) == Two(d, r.(down := Push(r.down, msg)), PConn(Idle, p.up, p.down), node, past)
  {
    hide Both;
    var s := Two(d, r, p, node, past);
    assert AfterSendNext(s, 1).conns == map[0 := r.(down := Push(r.down, msg)), 1 := PConn(Idle, p.up, p.down)];
  }

  // ---- Both connect ----

  function HelloP(d: Deal): Msg {
    PeerHello(Provider, Some(d.capacity))
  }

  function ProviderOnly(d: Deal, handler: Handler, read: nat, down: seq<Msg>, reg: Registry): Net {
    Net(map[1 := PConn(handler, Chan([HelloP(d)], read), Chan(down, 0))], reg, map[],
        map[P := ProviderNode(1, d.capacity.vramGb, d.capacity.priceHalalaHr)], map[], map[], [], {}, map[])
  }

  function Alone(d: Deal): Registry {
    map[P := Peer(1, Provider, Some(d.capacity))]
  }

  /** The runs that end there. */
  ghost function RunsTo(s: Net): iset<seq<Net>> {
    iset run | IsRun(run) && run[|run| - 1] == s
  }

  lemma Go(run: seq<Net>, s: Net, e: Event, s': Net) returns (longer: seq<Net>)
    requires run in RunsTo(s) && Enabled(s, e) && After(s, e) == s'
    ensures longer in RunsTo(s')
  {
    longer := run + [s'];
    assert Step(s, s');
    forall i | 0 <= i < |longer| - 1
      ensures Step(longer[i], longer[i + 1])
    {
      if i < |run| - 1 {
        assert longer[i] == run[i] && longer[i + 1] == run[i + 1];
      }
    }
  }

  lemma NobodyAddressed(d: Deal)
    ensures Addresses([], Alone(d), Renter, None) && ListsProviders([], Alone(d), P)
  {
    assert SentTo([], [], Alone(d), Renter, None);
  }

  lemma ProviderListed(d: Deal)
    ensures ListsProviders([Entry(P, Some(d.capacity))], Both(d), R)
  {
    Apart();
    var list := [Entry(P, Some(d.capacity))];
    assert list[0] in list;
  }

  lemma ConnectProviderStep(d: Deal)
    ensures var e := ConnectProvider(1, P, d.capacity.vramGb, d.capacity.priceHalalaHr, d.capacity);
      Enabled(INIT, e) && After(INIT, e) == ProviderOnly(d, Idle, 0, [], map[])
  {
  }

  lemma GreetProviderStep(d: Deal)
    ensures var s := ProviderOnly(d, Idle, 0, [], map[]);
      && Enabled(s, ServeHello(1, []))
      && After(s, ServeHello(1, [])) == ProviderOnly(d, AnnounceDue(d.capacity), 1, [PeerList([])], Alone(d))
  {
    NobodyAddressed(d);
    hide ListsProviders;
    var s := ProviderOnly(d, Idle, 0, [], map[]);
    assert [] + [PeerList([])] == [PeerList([])];
    assert AfterServeHello(s, 1, []).conns
        == ProviderOnly(d, AnnounceDue(d.capacity), 1, [PeerList([])], Alone(d)).conns;
  }

  lemma AnnounceStep(d: Deal)
    ensures var s := ProviderOnly(d, AnnounceDue(d.capacity), 1, [PeerList([])], Alone(d));
      && Enabled(s, BeginAnnounce(1, []))
      && After(s, BeginAnnounce(1, [])) == ProviderOnly(d, Idle, 1, [PeerList([])], Alone(d))
  {
    NobodyAddressed(d);
    hide Addresses;
  }

  function NewRenter(d: Deal): RenterNode {
    RenterNode(0, d.minVramGb, d.maxPriceHalalaHr, d.timeoutSecs, map[], map[], map[], Ready)
  }

  /** Both connected, the renter perhaps not yet greeted. */
  function Joined(d: Deal, read: nat, down: seq<Msg>): (Conn, Conn) {
    (RConn(Idle, Chan([PeerHello(Renter, None)], read), Chan(down, 0)),
     PConn(Idle, Chan([HelloP(d)], 1), Chan([PeerList([])], 0)))
  }

  lemma ConnectRenterStep(d: Deal)
    ensures var s, e := ProviderOnly(d, Idle, 1, [PeerList([])], Alone(d)),
                        ConnectRenter(0, R, d.minVramGb, d.maxPriceHalalaHr, d.timeoutSecs);
      Enabled(s, e)
      && After(s, e) == Two(d, Joined(d, 0, []).0, Joined(d, 0, []).1, NewRenter(d), NO_PAST).(reg := Alone(d))
  {
    Apart();
    var s, e := ProviderOnly(d, Idle, 1, [PeerList([])], Alone(d)),
                ConnectRenter(0, R, d.minVramGb, d.maxPriceHalalaHr, d.timeoutSecs);
    assert After(s, e).conns == map[0 := Joined(d, 0, []).0, 1 := Joined(d, 0, []).1];
  }

  lemma GreetRenterStep(d: Deal)
    ensures var s := Two(d, Joined(d, 0, []).0, Joined(d, 0, []).1, NewRenter(d), NO_PAST).(reg := Alone(d));
      var list := [Entry(P, Some(d.capacity))];
      && Enabled(s, ServeHello(0, list))
      && After(s, ServeHello(0, list))
         == Two(d, Joined(d, 1, [PeerList(list)]).0, Joined(d, 1, [PeerList(list)]).1, NewRenter(d), NO_PAST)
  {
    Apart();
    ProviderListed(d);
    hide ListsProviders;
    var (r, p) := Joined(d, 0, []);
    var list := [Entry(P, Some(d.capacity))];
    PairRead(r, p, Idle);
    PairPushed(r.(up := Advanced(r.up)), p, PeerList(list));
    hide ReadUp, PushDown;
    var s := Two(d, r, p, NewRenter(d), NO_PAST).(reg := Alone(d));
    assert [] + [PeerList(list)] == [PeerList(list)];
    assert WithHello(s, 0) == Both(d);
    assert AfterServeHello(s, 0, list).conns == map[0 := Joined(d, 1, [PeerList(list)]).0, 1 := p];
  }

  lemma BothJoin(d: Deal) returns (run: seq<Net>)
    ensures var list := [PeerList([Entry(P, Some(d.capacity))])];
      run in RunsTo(Two(d, Joined(d, 1, list).0, Joined(d, 1, list).1, NewRenter(d), NO_PAST))
  {
    run := [INIT];
    assert run in RunsTo(INIT);
    var list := [Entry(P, Some(d.capacity))];
    ConnectProviderStep(d);
    GreetProviderStep(d);
    AnnounceStep(d);
    ConnectRenterStep(d);
    GreetRenterStep(d);
    hide Enabled, After, RunsTo, ProviderOnly, Two, Joined;
    run := Go(run, INIT, ConnectProvider(1, P, d.capacity.vramGb, d.capacity.priceHalalaHr, d.capacity),
              ProviderOnly(d, Idle, 0, [], map[]));
    run := Go(run, ProviderOnly(d, Idle, 0, [], map[]), ServeHello(1, []),
              ProviderOnly(d, AnnounceDue(d.capacity), 1, [PeerList([])], Alone(d)));
    run := Go(run, ProviderOnly(d, AnnounceDue(d.capacity), 1, [PeerList([])], Alone(d)), BeginAnnounce(1, []),
              ProviderOnly(d, Idle, 1, [PeerList([])], Alone(d)));
    var s := Two(d, Joined(d, 0, []).0, Joined(d, 0, []).1, NewRenter(d), NO_PAST).(reg := Alone(d));
    run := Go(run, ProviderOnly(d, Idle, 1, [PeerList([])], Alone(d)),
              ConnectRenter(0, R, d.minVramGb, d.maxPriceHalalaHr, d.timeoutSecs), s);
    run := Go(run, s, ServeHello(0, list), Two(d, Joined(d, 1, [PeerList(list)]).0, Joined(d, 1, [PeerList(list)]).1,
                                               NewRenter(d), NO_PAST));
  }

  /** What a provider announces again can reach the renter's cache. */
  lemma AnnouncementArrives(d: Deal, capacity: Capacity) returns (run: seq<Net>)
    requires capacity.vramGb == d.capacity.vramGb && capacity.priceHalalaHr == d.capacity.priceHalalaHr
    ensures IsRun(run)
    ensures var s := run[|run| - 1];
      && P in s.reg && s.reg[P].capacity == Some(capacity)
      && R in s.renters && P in s.renters[R].cache && s.renters[R].cache[P] == Some(capacity)
  {
    run := BothJoin(d);
    var list, msg := PeerList([Entry(P, Some(d.capacity))]), AnnounceCapacity(P, capacity);
    var (r0, p0) := Joined(d, 1, [list]);
    var node, e := NewRenter(d), d.(capacity := capacity);
    HeartbeatStep(d, r0, p0, node, NO_PAST, capacity);
    var p1 := p0.(up := Push(p0.up, msg));
    AnnouncedStep(d, r0, p1, node, NO_PAST, capacity);
    var p2 := PConn(Sending(msg, [0], false), Advanced(p1.up), p1.down);
    AnnounceOnStep(e, r0, p2, node, NO_PAST, msg);
    var p3, r1 := PConn(Idle, p2.up, p2.down), r0.(down := Push(r0.down, msg));
    ReadStep(e, r1, p3, node, NO_PAST, list);
    var heard, r2 := Dispatched(node, list), r1.(down := Advanced(r1.down));
    ReadStep(e, r2, p3, heard, NO_PAST, msg);
    var told, r3 := Dispatched(heard, msg), r2.(down := Advanced(r2.down));
    assert P in told.cache && told.cache[P] == Some(capacity);
    hide Enabled, After, RunsTo, Two, Dispatched, NewRenter;
    run := Go(run, Two(d, r0, p0, node, NO_PAST), Heartbeat(1, capacity), Two(d, r0, p1, node, NO_PAST));
    run := Go(run, Two(d, r0, p1, node, NO_PAST), RouteAnnounce(1, [0]), Two(e, r0, p2, node, NO_PAST));
    run := Go(run, Two(e, r0, p2, node, NO_PAST), SendNext(1), Two(e, r1, p3, node, NO_PAST));
    run := Go(run, Two(e, r1, p3, node, NO_PAST), DeliverToRenter(0), Two(e, r2, p3, heard, NO_PAST));
    run := Go(run, Two(e, r2, p3, heard, NO_PAST), DeliverToRenter(0), Two(e, r3, p3, told, NO_PAST));
    AtEnd(run, e, r3, p3, told);
  }

  lemma AtEnd(run: seq<Net>, d: Deal, r: Conn, p: Conn, node: RenterNode)
    requires run in RunsTo(Two(d, r, p, node, NO_PAST))
    ensures IsRun(run)
    ensures var s := run[|run| - 1];
      P in s.reg && s.reg[P].capacity == Some(d.capacity) && R in s.renters && s.renters[R] == node
  {
    Apart();
  }

  // ---- The job ----

  function Spec(d: Deal): JobSpec {
    JobSpec(d.job, R, d.minVramGb, d.maxPriceHalalaHr, d.timeoutSecs)
  }

  function Offer(d: Deal): Bid {
    BidFor(P, d.capacity.vramGb, d.capacity.priceHalalaHr, Spec(d))
  }

  function Agreed(d: Deal): Accept {
    AcceptOf(R, d.job, Offer(d))
  }

  function Reported(d: Deal, o: Outcome): Result {
    ResultFor(P, Agreed(d), o.success, o.output, o.elapsedSecs)
  }

  function Renting(d: Deal, bids: map<JobId, seq<Bid>>, results: map<JobId, Result>, phase: Phase): RenterNode {
    RenterNode(0, d.minVramGb, d.maxPriceHalalaHr, d.timeoutSecs, Listed(map[], [Entry(P, Some(d.capacity))]), bids,
               results, phase)
  }

  /** Everything said has been read, and the relay waits. */
  predicate Quiet(r: Conn, p: Conn) {
    && r == RConn(Idle, r.up, r.down) && p == PConn(Idle, p.up, p.down)
    && r.up.read == |r.up.log| && r.down.read == |r.down.log| && p.up.read == |p.up.log| && p.down.read == |p.down.log|
  }

  function Asking(d: Deal): RenterNode {
    NewRenter(d).(bids := map[d.job := []], phase := Bidding(d.job))
  }

  function AskedPast(d: Deal): Past {
    NO_PAST.(jobs := map[d.job := Spec(d)])
  }

  predicate AllRead(ch: Chan) {
    ch.read == |ch.log|
  }

  /** The renter asks, and its request is on the way to the provider. */
  lemma Asked(d: Deal) returns (run: seq<Net>, r: Conn, p: Conn)
    ensures r == RConn(Idle, r.up, Chan([PeerList([Entry(P, Some(d.capacity))])], 0)) && AllRead(r.up)
    ensures p == PConn(Idle, p.up, Chan([PeerList([]), JobRequest(Spec(d))], 0)) && AllRead(p.up)
    ensures run in RunsTo(Two(d, r, p, Asking(d), AskedPast(d)))
  {
    run := BothJoin(d);
    var (r0, p0) := Joined(d, 1, [PeerList([Entry(P, Some(d.capacity))])]);
    var node, asking, past, request := NewRenter(d), Asking(d), AskedPast(d), JobRequest(Spec(d));
    SubmitStep(d, r0, p0, node, NO_PAST);
    assert NO_PAST.jobs[d.job := Spec(d)] == past.jobs && node.bids[d.job := []] == asking.bids;
    var r1 := r0.(up := Push(r0.up, request));
    RequestStep(d, r1, p0, asking, past, request);
    r := RConn(Idle, Advanced(r1.up), r1.down);
    var sending := RConn(Sending(request, [1], false), r.up, r.down);
    SendStep(d, sending, p0, asking, past, request);
    p := p0.(down := Push(p0.down, request));
    hide Enabled, After, RunsTo, Two, Spec;
    run := Go(run, Two(d, r0, p0, node, NO_PAST), Submit(R, d.job), Two(d, r1, p0, asking, past));
    run := Go(run, Two(d, r1, p0, asking, past), RouteRequest(0, [1]), Two(d, sending, p0, asking, past));
    run := Go(run, Two(d, sending, p0, asking, past), SendNext(0), Two(d, r, p, asking, past));
  }

  /** The provider bids, and the bid is on the way to the renter. */
  lemma Offered(d: Deal) returns (run: seq<Net>, r: Conn, p: Conn)
    requires Suits(d)
    ensures r == RConn(Idle, r.up, Chan([PeerList([Entry(P, Some(d.capacity))]), JobBid(Offer(d))], 0)) && AllRead(r.up)
    ensures p == PConn(Idle, p.up, p.down) && AllRead(p.up) && AllRead(p.down)
    ensures run in RunsTo(Two(d, r, p, Asking(d), AskedPast(d)))
  {
    var r0, p0;
    run, r0, p0 := Asked(d);
    var asking, past, bid := Asking(d), AskedPast(d), JobBid(Offer(d));
    SkipStep(d, r0, p0, asking, past, PeerList([]));
    var p1 := p0.(down := Advanced(p0.down));
    BidStep(d, r0, p1, asking, past, Spec(d));
    var p2 := p1.(up := Push(p1.up, bid), down := Advanced(p1.down));
    ToRenterStep(d, r0, p2, asking, past, bid);
    r := r0.(down := Push(r0.down, bid));
    p := p2.(up := Advanced(p2.up));
    hide Enabled, After, RunsTo, Two, Spec, Offer, Asking, AskedPast;
    run := Go(run, Two(d, r0, p0, asking, past), DeliverToProvider(1), Two(d, r0, p1, asking, past));
    run := Go(run, Two(d, r0, p1, asking, past), DeliverToProvider(1), Two(d, r0, p2, asking, past));
    run := Go(run, Two(d, r0, p2, asking, past), RouteTo(1), Two(d, r, p, asking, past));
  }

  /** The renter reads who there is, and the bid. */
  lemma AskedAndOffered(d: Deal) returns (run: seq<Net>, r: Conn, p: Conn)
    requires Suits(d)
    ensures Quiet(r, p)
    ensures run in RunsTo(Two(d, r, p, Renting(d, map[d.job := [Offer(d)]], map[], Bidding(d.job)), AskedPast(d)))
  {
    var r0;
    run, r0, p := Offered(d);
    var asking, past, list, bid := Asking(d), AskedPast(d), PeerList([Entry(P, Some(d.capacity))]), JobBid(Offer(d));
    ReadStep(d, r0, p, asking, past, list);
    var r1 := r0.(down := Advanced(r0.down));
    var heard := Renting(d, map[d.job := []], map[], Bidding(d.job));
    ReadStep(d, r1, p, heard, past, bid);
    r := r1.(down := Advanced(r1.down));
    var offered := Renting(d, map[d.job := [Offer(d)]], map[], Bidding(d.job));
    assert [] + [Offer(d)] == [Offer(d)];
    assert Dispatched(asking, list) == heard && Dispatched(heard, bid) == offered;
    hide Enabled, After, RunsTo, Two, Dispatched, Spec, Offer, AskedPast;
    run := Go(run, Two(d, r0, p, asking, past), DeliverToRenter(0), Two(d, r1, p, heard, past));
    run := Go(run, Two(d, r1, p, heard, past), DeliverToRenter(0), Two(d, r, p, offered, past));
  }

  /** What is on record once the provider is at work. */
  function AtWork(d: Deal): Past {
    Past(map[d.job := Spec(d)], map[d.job := Award(Agreed(d), Offer(d), [Offer(d)])], [Exec(P, Agreed(d), None)], {},
         map[d.job := Started(0)])
  }

  /** The same while the accept is on the way. */
  function Awarded(d: Deal, at: nat): Past {
    AtWork(d).(execs := [], token := map[d.job := InDown(1, at)])
  }

  /** The window closes, and the accept is on the way to the provider. */
  lemma AcceptSent(d: Deal) returns (run: seq<Net>, r: Conn, p: Conn, at: nat)
    requires Suits(d)
    ensures r == RConn(Idle, r.up, r.down) && AllRead(r.up) && AllRead(r.down)
    ensures p == PConn(Idle, p.up, p.down) && AllRead(p.up) && Next(p.down, JobAccept(Agreed(d)))
        && AllRead(Advanced(p.down))
    ensures run in RunsTo(Two(d, r, p, Renting(d, map[d.job := [Offer(d)]], map[], Waiting(d.job)), Awarded(d, at)))
  {
    var r0, p0;
    run, r0, p0 := AskedAndOffered(d);
    var bids := map[d.job := [Offer(d)]];
    var node, waiting := Renting(d, bids, map[], Bidding(d.job)), Renting(d, bids, map[], Waiting(d.job));
    var award, past := Award(Agreed(d), Offer(d), [Offer(d)]), AskedPast(d);
    at := |p0.down.log|;
    var chosen := Awarded(d, at).(token := map[d.job := InUp(0, |r0.up.log|)]);
    ChooseStep(d, r0, p0, node, past, Offer(d));
    assert past.awards[d.job := award] == chosen.awards && past.token[d.job := InUp(0, |r0.up.log|)] == chosen.token;
    var r1 := r0.(up := Push(r0.up, JobAccept(Agreed(d))));
    ToProviderStep(d, r1, p0, waiting, chosen, Agreed(d));
    assert chosen.token[d.job := InDown(1, at)] == Awarded(d, at).token;
    r := r1.(up := Advanced(r1.up));
    p := p0.(down := Push(p0.down, JobAccept(Agreed(d))));
    hide Enabled, After, RunsTo, Two, Offer, Spec, Renting;
    run := Go(run, Two(d, r0, p0, node, past), Choose(R, 0), Two(d, r1, p0, waiting, chosen));
    run := Go(run, Two(d, r1, p0, waiting, chosen), RouteTo(0), Two(d, r, p, waiting, Awarded(d, at)));
  }

  /** The provider reads it and starts. */
  lemma AwardedAndStarted(d: Deal) returns (run: seq<Net>, r: Conn, p: Conn)
    requires Suits(d)
    ensures Quiet(r, p)
    ensures run in RunsTo(Two(d, r, p, Renting(d, map[d.job := [Offer(d)]], map[], Waiting(d.job)), AtWork(d)))
  {
    var p0, at;
    run, r, p0, at := AcceptSent(d);
    var waiting := Renting(d, map[d.job := [Offer(d)]], map[], Waiting(d.job));
    StartStep(d, r, p0, waiting, Awarded(d, at), Agreed(d));
    p := p0.(down := Advanced(p0.down));
    assert Awarded(d, at).token[d.job := Started(0)] == AtWork(d).token;
    assert [] + [Exec(P, Agreed(d), None)] == AtWork(d).execs;
    hide Enabled, After, RunsTo, Two, Renting;
    run := Go(run, Two(d, r, p0, waiting, Awarded(d, at)), DeliverToProvider(1), Two(d, r, p, waiting, AtWork(d)));
  }

  /** The provider finishes, and the renter is handed the result. */
  lemma Handed(d: Deal, o: Outcome, direct: bool) returns (run: seq<Net>, r: Conn, p: Conn)
    requires Suits(d)
    ensures run in RunsTo(Two(d, r, p,
                              Renting(d, map[d.job := [Offer(d)]], map[d.job := Reported(d, o)], Waiting(d.job)),
                              AtWork(d).(execs := [Exec(P, Agreed(d), Some(Reported(d, o)))])))
  {
    var r0, p0;
    run, r0, p0 := AwardedAndStarted(d);
    var bids, result := map[d.job := [Offer(d)]], Reported(d, o);
    var node, done := Renting(d, bids, map[], Waiting(d.job)), Renting(d, bids, map[d.job := result], Waiting(d.job));
    var past := AtWork(d).(execs := [Exec(P, Agreed(d), Some(result))]);
    var e := Finish(0, o.success, o.output, o.elapsedSecs, direct, !direct);
    FinishStep(d, r0, p0, node, AtWork(d), Agreed(d), o, direct);
    assert map[][d.job := result] == map[d.job := result];
    assert Dispatched(node, JobResult(result)) == done;
    if direct {
      var sent := past.(direct := {result});
      assert {} + {result} == {result};
      DirectStep(d, r0, p0, node, sent, result);
      hide Enabled, After, RunsTo, Two, AtWork, Dispatched, Reported;
      run := Go(run, Two(d, r0, p0, node, AtWork(d)), e, Two(d, r0, p0, node, sent));
      run := Go(run, Two(d, r0, p0, node, sent), DeliverDirect(R, result), Two(d, r0, p0, done, past));
      r, p := r0, p0;
    } else {
      var p1 := p0.(up := Push(p0.up, JobResult(result)));
      ToRenterStep(d, r0, p1, node, past, JobResult(result));
      var r1 := r0.(down := Push(r0.down, JobResult(result)));
      p := p1.(up := Advanced(p1.up));
      ReadStep(d, r1, p, node, past, JobResult(result));
      r := r1.(down := Advanced(r1.down));
      hide Enabled, After, RunsTo, Two, AtWork, Dispatched, Reported;
      run := Go(run, Two(d, r0, p0, node, AtWork(d)), e, Two(d, r0, p1, node, past));
      run := Go(run, Two(d, r0, p1, node, past), RouteTo(1), Two(d, r1, p, node, past));
      run := Go(run, Two(d, r1, p, node, past), DeliverToRenter(0), Two(d, r, p, done, past));
    }
  }

  /**
   * Whatever job a renter has, whatever provider is eligible for it and however the execution goes, there is a
   * run at whose end the renter is done and holds the provider's own report of it, charged at that provider's price.
   */
  lemma JobCompletes(d: Deal, o: Outcome, direct: bool) returns (run: seq<Net>)
    requires d.minVramGb <= d.capacity.vramGb && d.capacity.priceHalalaHr <= d.maxPriceHalalaHr
    ensures IsRun(run)
    ensures var s := run[|run| - 1];
      && R in s.renters && s.renters[R].phase.Ready? && d.job in s.renters[R].results
      && s.renters[R].minVramGb == d.minVramGb
      && s.renters[R].maxPriceHalalaHr == d.maxPriceHalalaHr && s.renters[R].timeoutSecs == d.timeoutSecs
      && P in s.providers && s.providers[P].vramGb == d.capacity.vramGb
      && s.providers[P].priceHalala == d.capacity.priceHalalaHr
      && var result := s.renters[R].results[d.job];
      && result.jobId == d.job && result.provider == P && result.renter == R
      && result.success == o.success && result.output == o.output
      && result.durationSecs == (if o.elapsedSecs < 1 then 1 else o.elapsedSecs)
      && IsCost(result.costHalala, d.capacity.priceHalalaHr, result.durationSecs)
  {
    var r, p;
    run, r, p := Handed(d, o, direct);
    var done := Renting(d, map[d.job := [Offer(d)]], map[d.job := Reported(d, o)], Waiting(d.job));
    var past := AtWork(d).(execs := [Exec(P, Agreed(d), Some(Reported(d, o)))]);
    StopStep(d, r, p, done, past);
    run := Go(run, Two(d, r, p, done, past), StopWaiting(R), Two(d, r, p, done.(phase := Ready), past));
    CostIsCharged(d.capacity.priceHalalaHr, BilledSecs(o.elapsedSecs));
  }
}
