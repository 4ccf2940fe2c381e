/**
 * The protocol as a transition system. Every event is the work one coroutine does between two
 * suspensions; a broadcast is one event per send, over the targets it snapshotted. A channel is an
 * append-only log with a read cursor, so a position in a log names one message for ever.
 */
module Network {
  import opened Ids
  import opened Options
  import opened P2PTypes
  import opened Relay
  import opened RenterSide
  import opened ProviderSide

  datatype Chan = Chan(log: seq<Msg>, read: nat)

  /** Where the coroutine serving a connection is suspended. */
  datatype Handler =
    | Idle                                                        // waiting for the next message
    | AnnounceDue(capacity: Capacity)                             // a provider's PEER_LIST is out, its announce is not
    | Sending(msg: Msg, targets: seq<ConnId>, closing: bool)      // inside a broadcast
    | Done                                                        // returned

  datatype Conn = Conn(owner: PeerId, role: Role, open: bool, handler: Handler, up: Chan, down: Chan)

  datatype Phase = Ready | Bidding(job: JobId) | Waiting(job: JobId)

  datatype RenterNode = RenterNode(
    conn: ConnId, minVramGb: int, maxPriceHalalaHr: int, timeoutSecs: int,
    cache: Cache, bids: map<JobId, seq<Bid>>, results: map<JobId, Result>, phase: Phase)

  datatype ProviderNode = ProviderNode(conn: ConnId, vramGb: int, priceHalala: int)

  /** What a renter decided when a bid window closed. */
  datatype Award = Award(accept: Accept, winner: Bid, offers: seq<Bid>)

  /** One `_execute_job` task. */
  datatype Exec = Exec(provider: PeerId, accept: Accept, result: Option<Result>)

  /** History only, read by no guard: where the JOB_ACCEPT of a job is. */
  datatype Token = InUp(c: ConnId, i: nat) | InDown(c: ConnId, i: nat) | Started(k: nat)

  datatype Net = Net(
    conns: map<ConnId, Conn>, reg: Registry,
    renters: map<PeerId, RenterNode>, providers: map<PeerId, ProviderNode>,
    jobs: map<JobId, JobSpec>, awards: map<JobId, Award>, execs: seq<Exec>,
    direct: set<Result>, token: map<JobId, Token>)

  const INIT: Net := Net(map[], map[], map[], map[], map[], map[], [], {}, map[])

  datatype Event =
    | ConnectProvider(c: ConnId, id: PeerId, vramGb: int, priceHalala: int, capacity: Capacity)
    | ConnectRenter(c: ConnId, id: PeerId, minVramGb: int, maxPriceHalalaHr: int, timeoutSecs: int)
    | Close(c: ConnId)
    | ServeHello(c: ConnId, list: seq<Entry>)
    | BeginAnnounce(c: ConnId, targets: seq<ConnId>)
    | RouteAnnounce(c: ConnId, targets: seq<ConnId>)
    | RouteRequest(c: ConnId, targets: seq<ConnId>)
    | RouteTo(c: ConnId)
    | SendNext(c: ConnId)
    | Cleanup(c: ConnId, targets: seq<ConnId>)
    | Heartbeat(c: ConnId, capacity: Capacity)
    | DeliverToProvider(c: ConnId)
    | DeliverToRenter(c: ConnId)
    | DeliverDirect(id: PeerId, result: Result)
    | Submit(id: PeerId, job: JobId)
    | Choose(id: PeerId, k: nat)
    | StopWaiting(id: PeerId)
    | Finish(k: nat, success: bool, output: string, elapsedSecs: int, direct: bool, relayed: bool)

  // ---- Channels and connections ----

  function Push(ch: Chan, msg: Msg): Chan {
    ch.(log := ch.log + [msg])
  }

  predicate HasUnread(ch: Chan) {
    ch.read < |ch.log|
  }

  function PushUp(conns: map<ConnId, Conn>, c: ConnId, msg: Msg): map<ConnId, Conn> {
    if c in conns then conns[c := conns[c].(up := Push(conns[c].up, msg))] else conns
  }

  function PushDown(conns: map<ConnId, Conn>, c: ConnId, msg: Msg): map<ConnId, Conn> {
    if c in conns then conns[c := conns[c].(down := Push(conns[c].down, msg))] else conns
  }

  function ReadUp(conns: map<ConnId, Conn>, c: ConnId, handler: Handler): map<ConnId, Conn>
    requires c in conns
  {
    conns[c := conns[c].(up := conns[c].up.(read := conns[c].up.read + 1), handler := handler)]
  }

  function ReadDown(conns: map<ConnId, Conn>, c: ConnId): map<ConnId, Conn>
    requires c in conns
  {
    conns[c := conns[c].(down := conns[c].down.(read := conns[c].down.read + 1))]
  }

  /** A handler about to send to the remaining targets. */
  function Onward(msg: Msg, targets: seq<ConnId>, closing: bool): Handler {
    if targets != [] then Sending(msg, targets, closing) else if closing then Done else Idle
  }

  predicate Live(conn: Conn) {
    !conn.handler.Done?
  }

  // ---- Connections come and go ----

  /** An id connects again only once the handler of its old connection has returned. */
  ghost predicate NoLiveConn(s: Net, id: PeerId) {
    forall c :: c in s.conns && s.conns[c].owner == id ==> !Live(s.conns[c])
  }

  ghost predicate CanConnectProvider(s: Net, c: ConnId, id: PeerId, vramGb: int, priceHalala: int, capacity: Capacity) {
    && c !in s.conns && id !in s.renters && NoLiveConn(s, id)
    && (id in s.providers ==> s.providers[id].vramGb == vramGb && s.providers[id].priceHalala == priceHalala)
    && capacity.vramGb == vramGb && capacity.priceHalalaHr == priceHalala
  }

  function AfterConnectProvider(s: Net, c: ConnId, id: PeerId, vramGb: int, priceHalala: int, capacity: Capacity): Net {
    var up := Chan([PeerHello(Provider, Some(capacity))], 0);
    s.(conns := s.conns[c := Conn(id, Provider, true, Idle, up, Chan([], 0))],
       providers := s.providers[id := ProviderNode(c, vramGb, priceHalala)])
  }

  ghost predicate CanConnectRenter(s: Net, c: ConnId, id: PeerId) {
    c !in s.conns && id !in s.renters && id !in s.providers && NoLiveConn(s, id)
  }

  function AfterConnectRenter(s: Net, c: ConnId, id: PeerId, minVramGb: int, maxPriceHalalaHr: int,
                              timeoutSecs: int): Net {
    s.(conns := s.conns[c := Conn(id, Renter, true, Idle, Chan([PeerHello(Renter, None)], 0), Chan([], 0))],
       renters := s.renters[id := RenterNode(c, minVramGb, maxPriceHalalaHr, timeoutSecs, map[], map[], map[], Ready)])
  }

  predicate CanClose(s: Net, c: ConnId) {
    c in s.conns && s.conns[c].open
  }

  function AfterClose(s: Net, c: ConnId): Net
    requires CanClose(s, c)
  {
    s.(conns := s.conns[c := s.conns[c].(open := false)])
  }

  ghost predicate CanCleanup(s: Net, c: ConnId, targets: seq<ConnId>) {
    && c in s.conns && !s.conns[c].open && s.conns[c].handler.Idle?
    && (Registered(s, c) && s.reg[s.conns[c].owner].role.Provider? ==>
          Addresses(targets, Removed(s.reg, s.conns[c].owner), Renter, None))
  }

  /** The handler knows a peer id, and that id is registered. */
  predicate Registered(s: Net, c: ConnId) {
    c in s.conns && s.conns[c].up.read > 0 && s.conns[c].owner in s.reg
  }

  function AfterCleanup(s: Net, c: ConnId, targets: seq<ConnId>): Net
    requires c in s.conns
  {
    var conn := s.conns[c];
    if Registered(s, c) then
      var handler := if s.reg[conn.owner].role.Provider? then Onward(PeerBye(conn.owner), targets, true) else Done;
      s.(reg := Removed(s.reg, conn.owner), conns := s.conns[c := conn.(handler := handler)])
    else
      s.(conns := s.conns[c := conn.(handler := Done)])
  }

  // ---- The relay ----

  predicate AtMessage(s: Net, c: ConnId) {
    c in s.conns && s.conns[c].handler.Idle? && HasUnread(s.conns[c].up)
  }

  function NextUp(s: Net, c: ConnId): Msg
    requires AtMessage(s, c)
  {
    s.conns[c].up.log[s.conns[c].up.read]
  }

  predicate AtHello(s: Net, c: ConnId) {
    AtMessage(s, c) && NextUp(s, c).PeerHello?
  }

  function WithHello(s: Net, c: ConnId): Registry
    requires AtHello(s, c)
  {
    s.reg[s.conns[c].owner := Peer(c, NextUp(s, c).role, NextUp(s, c).hello)]
  }

  ghost predicate CanServeHello(s: Net, c: ConnId, list: seq<Entry>) {
    AtHello(s, c) && ListsProviders(list, WithHello(s, c), s.conns[c].owner)
  }

  function AfterServeHello(s: Net, c: ConnId, list: seq<Entry>): Net
    requires AtHello(s, c)
  {
    var hello := NextUp(s, c);
    var handler := if hello.role.Provider? && hello.hello.Some? then AnnounceDue(hello.hello.value) else Idle;
    s.(reg := WithHello(s, c), conns := PushDown(ReadUp(s.conns, c, handler), c, PeerList(list)))
  }

  ghost predicate CanBeginAnnounce(s: Net, c: ConnId, targets: seq<ConnId>) {
    c in s.conns && s.conns[c].handler.AnnounceDue? && Addresses(targets, s.reg, Renter, None)
  }

  function AfterBeginAnnounce(s: Net, c: ConnId, targets: seq<ConnId>): Net
    requires c in s.conns && s.conns[c].handler.AnnounceDue?
  {
    var conn := s.conns[c];
    var msg := AnnounceCapacity(conn.owner, conn.handler.capacity);
    s.(conns := s.conns[c := conn.(handler := Onward(msg, targets, false))])
  }

  ghost predicate CanRouteAnnounce(s: Net, c: ConnId, targets: seq<ConnId>) {
    && AtMessage(s, c) && NextUp(s, c).AnnounceCapacity?
    && Addresses(targets, Refreshed(s.reg, s.conns[c].owner, NextUp(s, c).capacity), Renter, Some(s.conns[c].owner))
  }

  function AfterRouteAnnounce(s: Net, c: ConnId, targets: seq<ConnId>): Net
    requires AtMessage(s, c) && NextUp(s, c).AnnounceCapacity?
  {
    var msg := NextUp(s, c);
    s.(reg := Refreshed(s.reg, s.conns[c].owner, msg.capacity),
       conns := ReadUp(s.conns, c, Onward(msg, targets, false)))
  }

  ghost predicate CanRouteRequest(s: Net, c: ConnId, targets: seq<ConnId>) {
    AtMessage(s, c) && NextUp(s, c).JobRequest? && Addresses(targets, s.reg, Provider, Some(s.conns[c].owner))
  }

  function AfterRouteRequest(s: Net, c: ConnId, targets: seq<ConnId>): Net
    requires AtMessage(s, c)
  {
    s.(conns := ReadUp(s.conns, c, Onward(NextUp(s, c), targets, false)))
  }

  /** The messages relayed to one peer, and which. */
  function Addressee(msg: Msg): Option<PeerId> {
    match msg
    case JobBid(bid) => Some(bid.renter)
    case JobAccept(accept) => Some(accept.provider)
    case JobResult(result) => Some(result.renter)
    case _ => None
  }

  predicate CanRouteTo(s: Net, c: ConnId) {
    AtMessage(s, c) && Addressee(NextUp(s, c)).Some?
  }

  function AfterRouteTo(s: Net, c: ConnId): Net
    requires CanRouteTo(s, c)
  {
    var msg := NextUp(s, c);
    var to := Addressee(msg).value;
    var conns := ReadUp(s.conns, c, Idle);
    if to in s.reg && s.reg[to].conn in s.conns then
      var d := s.reg[to].conn;
      s.(conns := PushDown(conns, d, msg),
         token := if msg.JobAccept? then s.token[msg.accept.jobId := InDown(d, |s.conns[d].down.log|)] else s.token)
    else
      s.(conns := conns)
  }

  predicate CanSendNext(s: Net, c: ConnId) {
    c in s.conns && s.conns[c].handler.Sending? && s.conns[c].handler.targets != []
  }

  function AfterSendNext(s: Net, c: ConnId): Net
    requires CanSendNext(s, c)
  {
    var handler := s.conns[c].handler;
    var conns := PushDown(s.conns, handler.targets[0], handler.msg);
    s.(conns := conns[c := conns[c].(handler := Onward(handler.msg, handler.targets[1..], handler.closing))])
  }

  // ---- Providers ----

  predicate CanHeartbeat(s: Net, c: ConnId, capacity: Capacity) {
    && c in s.conns && s.conns[c].open && s.conns[c].role.Provider? && s.conns[c].owner in s.providers
    && capacity.vramGb == s.providers[s.conns[c].owner].vramGb
    && capacity.priceHalalaHr == s.providers[s.conns[c].owner].priceHalala
  }

  function AfterHeartbeat(s: Net, c: ConnId, capacity: Capacity): Net
    requires CanHeartbeat(s, c, capacity)
  {
    s.(conns := PushUp(s.conns, c, AnnounceCapacity(s.conns[c].owner, capacity)))
  }

  predicate CanDeliver(s: Net, c: ConnId) {
    c in s.conns && s.conns[c].open && HasUnread(s.conns[c].down)
  }

  function NextDown(s: Net, c: ConnId): Msg
    requires CanDeliver(s, c)
  {
    s.conns[c].down.log[s.conns[c].down.read]
  }

  predicate CanDeliverToProvider(s: Net, c: ConnId) {
    CanDeliver(s, c) && s.conns[c].role.Provider? && s.conns[c].owner in s.providers
  }

  function AfterDeliverToProvider(s: Net, c: ConnId): Net
    requires CanDeliverToProvider(s, c)
  {
    var id := s.conns[c].owner;
    var node := s.providers[id];
    var conns := ReadDown(s.conns, c);
    match NextDown(s, c)
    case JobRequest(spec) =>
      if Eligible(node.vramGb, node.priceHalala, spec) then
        s.(conns := PushUp(conns, c, JobBid(BidFor(id, node.vramGb, node.priceHalala, spec))))
      else
        s.(conns := conns)
    case JobAccept(accept) =>
      s.(conns := conns, execs := s.execs + [Exec(id, accept, None)],
         token := s.token[accept.jobId := Started(|s.execs|)])
    case _ =>
      s.(conns := conns)
  }

  predicate CanFinish(s: Net, k: nat) {
    k < |s.execs| && s.execs[k].result.None?
  }

  /** `direct`: the payload reached the renter's socket; `relayed`: the provider went on to the relay. */
  function AfterFinish(s: Net, k: nat, result: Result, direct: bool, relayed: bool): Net
    requires CanFinish(s, k)
  {
    var exec := s.execs[k];
    var execs := s.execs[k := exec.(result := Some(result))];
    var sent := if direct then s.direct + {result} else s.direct;
    var up := relayed && exec.provider in s.providers && s.providers[exec.provider].conn in s.conns
              && s.conns[s.providers[exec.provider].conn].open;
    s.(execs := execs, direct := sent,
       conns := if up then PushUp(s.conns, s.providers[exec.provider].conn, JobResult(result)) else s.conns)
  }

  // ---- Renters ----

  function Dispatched(r: RenterNode, msg: Msg): RenterNode {
    r.(cache := CacheAfter(r.cache, msg), bids := BidsAfter(r.bids, msg), results := ResultsAfter(r.results, msg))
  }

  predicate CanDeliverToRenter(s: Net, c: ConnId) {
    CanDeliver(s, c) && s.conns[c].role.Renter? && s.conns[c].owner in s.renters
  }

  function AfterDeliverToRenter(s: Net, c: ConnId): Net
    requires CanDeliverToRenter(s, c)
  {
    var id := s.conns[c].owner;
    s.(conns := ReadDown(s.conns, c), renters := s.renters[id := Dispatched(s.renters[id], NextDown(s, c))])
  }

  predicate CanDeliverDirect(s: Net, id: PeerId, result: Result) {
    id in s.renters && result in s.direct && result.renter == id
  }

  function AfterDeliverDirect(s: Net, id: PeerId, result: Result): Net
    requires CanDeliverDirect(s, id, result)
  {
    s.(direct := s.direct - {result}, renters := s.renters[id := Dispatched(s.renters[id], JobResult(result))])
  }

  predicate CanSubmit(s: Net, id: PeerId, job: JobId) {
    && id in s.renters && s.renters[id].phase.Ready? && job !in s.jobs
    && s.renters[id].conn in s.conns && s.conns[s.renters[id].conn].open
  }

  function SpecOf(id: PeerId, job: JobId, r: RenterNode): JobSpec {
    JobSpec(job, id, r.minVramGb, r.maxPriceHalalaHr, r.timeoutSecs)
  }

  function AfterSubmit(s: Net, id: PeerId, job: JobId): Net
    requires CanSubmit(s, id, job)
  {
    var r := s.renters[id];
    s.(jobs := s.jobs[job := SpecOf(id, job, r)],
       renters := s.renters[id := r.(bids := r.bids[job := []], phase := Bidding(job))],
       conns := PushUp(s.conns, r.conn, JobRequest(SpecOf(id, job, r))))
  }

  /** The bid window of `id`'s job closes; bid `k` wins. */
  ghost predicate CanChoose(s: Net, id: PeerId, k: nat) {
    && id in s.renters && s.renters[id].phase.Bidding? && s.renters[id].phase.job in s.renters[id].bids
    && FirstCheapest(s.renters[id].bids[s.renters[id].phase.job], k)
    && s.renters[id].conn in s.conns && s.conns[s.renters[id].conn].open
  }

  function AcceptOf(id: PeerId, job: JobId, winner: Bid): Accept {
    Accept(job, winner.provider, id, winner.priceHalalaHr)
  }

  ghost function AfterChoose(s: Net, id: PeerId, k: nat): Net
    requires CanChoose(s, id, k)
  {
    var r := s.renters[id];
    var job := r.phase.job;
    var accept := AcceptOf(id, job, r.bids[job][k]);
    s.(renters := s.renters[id := r.(phase := Waiting(job))],
       awards := s.awards[job := Award(accept, r.bids[job][k], r.bids[job])],
       token := s.token[job := InUp(r.conn, |s.conns[r.conn].up.log|)],
       conns := PushUp(s.conns, r.conn, JobAccept(accept)))
  }

  /** `submit_job` returns: a result arrived, the wait timed out, or nobody bid. */
  predicate CanStopWaiting(s: Net, id: PeerId) {
    && id in s.renters
    && var r := s.renters[id];
    && (r.phase.Waiting? || (r.phase.Bidding? && r.phase.job in r.bids && r.bids[r.phase.job] == []))
  }

  function AfterStopWaiting(s: Net, id: PeerId): Net
    requires CanStopWaiting(s, id)
  {
    s.(renters := s.renters[id := s.renters[id].(phase := Ready)])
  }

  // ---- Runs ----

  ghost predicate Enabled(s: Net, e: Event) {
    match e
    case ConnectProvider(c, id, vramGb, priceHalala, capacity) =>
      CanConnectProvider(s, c, id, vramGb, priceHalala, capacity)
    case ConnectRenter(c, id, _, _, _) => CanConnectRenter(s, c, id)
    case Close(c) => CanClose(s, c)
    case ServeHello(c, list) => CanServeHello(s, c, list)
    case BeginAnnounce(c, targets) => CanBeginAnnounce(s, c, targets)
    case RouteAnnounce(c, targets) => CanRouteAnnounce(s, c, targets)
    case RouteRequest(c, targets) => CanRouteRequest(s, c, targets)
    case RouteTo(c) => CanRouteTo(s, c)
    case SendNext(c) => CanSendNext(s, c)
    case Cleanup(c, targets) => CanCleanup(s, c, targets)
    case Heartbeat(c, capacity) => CanHeartbeat(s, c, capacity)
    case DeliverToProvider(c) => CanDeliverToProvider(s, c)
    case DeliverToRenter(c) => CanDeliverToRenter(s, c)
    case DeliverDirect(id, result) => CanDeliverDirect(s, id, result)
    case Submit(id, job) => CanSubmit(s, id, job)
    case Choose(id, k) => CanChoose(s, id, k)
    case StopWaiting(id) => CanStopWaiting(s, id)
    case Finish(k, _, _, _, _, _) => CanFinish(s, k)
  }

  ghost function After(s: Net, e: Event): Net
    requires Enabled(s, e)
  {
    match e
    case ConnectProvider(c, id, vramGb, priceHalala, capacity) =>
      AfterConnectProvider(s, c, id, vramGb, priceHalala, capacity)
    case ConnectRenter(c, id, vram, price, timeout) => AfterConnectRenter(s, c, id, vram, price, timeout)
    case Close(c) => AfterClose(s, c)
    case ServeHello(c, list) => AfterServeHello(s, c, list)
    case BeginAnnounce(c, targets) => AfterBeginAnnounce(s, c, targets)
    case RouteAnnounce(c, targets) => AfterRouteAnnounce(s, c, targets)
    case RouteRequest(c, targets) => AfterRouteRequest(s, c, targets)
    case RouteTo(c) => AfterRouteTo(s, c)
    case SendNext(c) => AfterSendNext(s, c)
    case Cleanup(c, targets) => AfterCleanup(s, c, targets)
    case Heartbeat(c, capacity) => AfterHeartbeat(s, c, capacity)
    case DeliverToProvider(c) => AfterDeliverToProvider(s, c)
    case DeliverToRenter(c) => AfterDeliverToRenter(s, c)
    case DeliverDirect(id, result) => AfterDeliverDirect(s, id, result)
    case Submit(id, job) => AfterSubmit(s, id, job)
    case Choose(id, k) => AfterChoose(s, id, k)
    case StopWaiting(id) => AfterStopWaiting(s, id)
    case Finish(k, success, output, elapsedSecs, direct, relayed) =>
      var result := ResultFor(s.execs[k].provider, s.execs[k].accept, success, output, elapsedSecs);
      AfterFinish(s, k, result, direct, relayed)
  }

  ghost predicate Step(s: Net, s': Net) {
    exists e :: Enabled(s, e) && s' == After(s, e)
  }

  /** A run from the empty network. */
  ghost predicate IsRun(run: seq<Net>) {
    && run != [] && run[0] == INIT
    && forall i :: 0 <= i < |run| - 1 ==> Step(run[i], run[i + 1])
  }
}
