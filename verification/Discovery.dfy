/**
 * p2p/dcp-discovery-scaffold.js: a provider's environment is published in two steps, peer id to
 * content id and content id to environment, each record with its own expiry. The content id is
 * taken as injective and the DHT as a map.
 */
module Discovery {
  import opened Ids
  import opened Options

  // ---- Normalising what a provider passes in ----

  /** A JavaScript value where a number is wanted: missing, a finite number, or anything else. */
  datatype RawNum = Absent | Finite(n: real) | Unusable

  datatype RawEnv = RawEnv(
    peerId: Option<string>, gpuModel: Option<string>, gpu: Option<string>, vramGb: RawNum, vram: RawNum,
    pricePerHour: RawNum, cuda: Option<string>, driver: Option<string>, os: Option<string>,
    region: Option<string>, location: Option<string>, reliability: RawNum,
    daemonVersion: Option<string>, version: Option<string>, slots: RawNum, tags: Option<seq<string>>)

  datatype Env = Env(
    gpuModel: string, vramGb: real, pricePerHour: real, cuda: Option<string>, driver: Option<string>,
    os: Option<string>, region: string, reliability: real, daemonVersion: Option<string>,
    slots: real, tags: seq<string>)

  datatype Cid = CidOf(env: Env)

  function OrElse<T>(first: Option<T>, second: Option<T>): Option<T> {
    if first.Some? then first else second
  }

  function Get<T>(o: Option<T>, fallback: T): T {
    if o.Some? then o.value else fallback
  }

  function OrNum(first: RawNum, second: RawNum): RawNum {
    if first.Absent? then second else first
  }

  function PositiveFinite(value: RawNum, fallback: real): real {
    if value.Finite? && value.n > 0.0 then value.n else fallback
  }

  function Clamp(value: real, min: real, max: real): real {
    var low := if value < min then min else value;
    if low > max then max else low
  }

  function Normalized(raw: RawEnv): Env {
    Env(
      Get(OrElse(raw.gpuModel, raw.gpu), "unknown"),
      PositiveFinite(OrNum(OrNum(raw.vramGb, raw.vram), Finite(0.0)), 0.0),
      PositiveFinite(OrNum(raw.pricePerHour, Finite(0.0)), 0.0),
      raw.cuda, raw.driver, raw.os,
      Get(OrElse(raw.region, raw.location), "sa"),
      Clamp(PositiveFinite(OrNum(raw.reliability, Finite(0.0)), 0.0), 0.0, 100.0),
      OrElse(raw.daemonVersion, raw.version),
      PositiveFinite(OrNum(raw.slots, Finite(1.0)), 1.0),
      Get(raw.tags, []))
  }

  predicate IsSpace(c: char) {
    c == ' ' || '\t' <= c <= '\r'
  }

  function TrimStart(s: string): string {
    if s != "" && IsSpace(s[0]) then TrimStart(s[1..]) else s
  }

  function TrimEnd(s: string): string {
    if s != "" && IsSpace(s[|s| - 1]) then TrimEnd(s[..|s| - 1]) else s
  }

  function Trim(s: string): string {
    TrimEnd(TrimStart(s))
  }

  lemma {:induction false} TrimStartStops(s: string)
    ensures TrimStart(s) == "" || !IsSpace(TrimStart(s)[0])
  {
    if s != "" && IsSpace(s[0]) {
      TrimStartStops(s[1..]);
    }
  }

  lemma {:induction false} TrimEndStops(s: string)
    ensures TrimEnd(s) == "" || !IsSpace(TrimEnd(s)[|TrimEnd(s)| - 1])
    ensures TrimEnd(s) <= s
  {
    if s != "" && IsSpace(s[|s| - 1]) {
      TrimEndStops(s[..|s| - 1]);
    }
  }

  lemma {:induction false} TrimStartDrops(s: string) returns (n: nat)
    ensures n <= |s| && TrimStart(s) == s[n..] && forall i :: 0 <= i < n ==> IsSpace(s[i])
  {
    n := 0;
    if s != "" && IsSpace(s[0]) {
      var m := TrimStartDrops(s[1..]);
      n := m + 1;
      assert s[1..][m..] == s[n..] && forall i :: 0 < i < n ==> s[i] == s[1..][i - 1];
    }
  }

  lemma {:induction false} TrimEndDrops(s: string) returns (n: nat)
    ensures n <= |s| && TrimEnd(s) == s[..n] && forall i :: n <= i < |s| ==> IsSpace(s[i])
  {
    n := |s|;
    if s != "" && IsSpace(s[|s| - 1]) {
      n := TrimEndDrops(s[..|s| - 1]);
      assert s[..|s| - 1][..n] == s[..n];
    }
  }

  /** Trimming takes the spaces off both ends, all of them and nothing else. */
  lemma TrimIs(s: string) returns (from: nat, to: nat)
    ensures from <= to <= |s| && Trim(s) == s[from..to]
    ensures forall i :: 0 <= i < |s| && !(from <= i < to) ==> IsSpace(s[i])
    ensures from < to ==> !IsSpace(s[from]) && !IsSpace(s[to - 1])
  {
    hide TrimStart, TrimEnd;
    from := TrimStartDrops(s);
    var n := TrimEndDrops(s[from..]);
    to := from + n;
    TrimStartStops(s);
    TrimEndStops(TrimStart(s));
    assert s[from..][..n] == s[from..to];
    forall i | 0 <= i < |s| && !(from <= i < to)
      ensures IsSpace(s[i])
    {
      assert i >= to ==> s[i] == s[from..][i - from];
    }
  }

  lemma TrimIdempotent(s: string)
    ensures Trim(Trim(s)) == Trim(s)
  {
    var t := Trim(s);
    TrimStartStops(s);
    TrimEndStops(TrimStart(s));
    if t != "" {
      assert t[0] == TrimStart(s)[0];
    }
  }

  predicate Blank(s: string) {
    Trim(s) == ""
  }

  /** `validateEnvironmentEnvelope` on the payload. */
  predicate ValidEnv(env: Env) {
    !Blank(env.gpuModel) && env.gpuModel != "unknown" && env.vramGb > 0.0
  }

  /** The id an announcement is filed under: the provider's own choice, trimmed, or the node's id. */
  function PeerOf(raw: RawEnv, nodeId: PeerId): PeerId {
    if raw.peerId.Some? && !Blank(raw.peerId.value) then PeerId(Trim(raw.peerId.value)) else nodeId
  }

  const DEFAULT_TTL_MS: real := 120000.0

  function TtlMs(ttl: RawNum): real {
    Clamp(PositiveFinite(OrNum(ttl, Finite(DEFAULT_TTL_MS)), DEFAULT_TTL_MS), 30000.0, 86400000.0)
  }

  /** Whatever was asked for, a record lives for 30 seconds to a day; a request within that is honoured. */
  lemma TtlIsBounded(ttl: RawNum)
    ensures 30000.0 <= TtlMs(ttl) <= 86400000.0
    ensures ttl.Finite? && 30000.0 <= ttl.n <= 86400000.0 ==> TtlMs(ttl) == ttl.n
    ensures ttl.Finite? && 0.0 < ttl.n < 30000.0 ==> TtlMs(ttl) == 30000.0
    ensures ttl.Finite? && ttl.n > 86400000.0 ==> TtlMs(ttl) == 86400000.0
    ensures (ttl.Finite? ==> ttl.n <= 0.0) ==> TtlMs(ttl) == 120000.0
  {
  }

  /** A finite positive number is taken as it is, anything else as `otherwise`. */
  ghost predicate TakenAs(taken: real, value: RawNum, otherwise: real) {
    taken == if value.Finite? && value.n > 0.0 then value.n else otherwise
  }

  /** The first of two sources that is there, or `otherwise`. */
  ghost predicate FirstOf<T(!new)>(taken: T, first: Option<T>, second: Option<T>, otherwise: T) {
    taken == match (first, second)
             case (Some(x), _) => x
             case (None, Some(y)) => y
             case (None, None) => otherwise
  }

  /** What is filed for each thing a provider says about itself. */
  ghost predicate FiledAs(raw: RawEnv, env: Env) {
    && FirstOf(env.gpuModel, raw.gpuModel, raw.gpu, "unknown")
    && TakenAs(env.vramGb, if raw.vramGb.Absent? then raw.vram else raw.vramGb, 0.0)
    && TakenAs(env.pricePerHour, raw.pricePerHour, 0.0)
    && env.cuda == raw.cuda && env.driver == raw.driver && env.os == raw.os
    && FirstOf(env.region, raw.region, raw.location, "sa")
    && TakenAs(env.reliability,
               if raw.reliability.Finite? && raw.reliability.n > 100.0 then Finite(100.0) else raw.reliability, 0.0)
    && env.daemonVersion == (if raw.daemonVersion.Some? then raw.daemonVersion else raw.version)
    && TakenAs(env.slots, raw.slots, 1.0)
    && env.tags == (if raw.tags.Some? then raw.tags.value else [])
  }

  /** Field by field. */
  lemma NormalizedFields(raw: RawEnv)
    ensures FiledAs(raw, Normalized(raw))
  {
  }

  /** Exactly which inputs normalise to an environment that resolving accepts, and the bounds on the rest. */
  lemma NormalizedIsValidIff(raw: RawEnv)
    ensures ValidEnv(Normalized(raw)) <==>
      && var gpu := OrElse(raw.gpuModel, raw.gpu);
      && var vram := OrNum(raw.vramGb, raw.vram);
      && gpu.Some? && !Blank(gpu.value) && gpu.value != "unknown" && vram.Finite? && vram.n > 0.0
    ensures Normalized(raw).vramGb >= 0.0 && Normalized(raw).pricePerHour >= 0.0 && Normalized(raw).slots > 0.0
    ensures 0.0 <= Normalized(raw).reliability <= 100.0
  {
  }

  // ---- Records and the store ----

  /** A parsed `env_cid` field: missing, not a content id, or a content id. */
  datatype CidField = NoCid | BadCid | Link(cid: Cid)

  datatype ProviderRecord = ProviderRecord(peerId: PeerId, envCid: CidField, announcedAt: Option<int>,
                                           expiresAt: Option<int>)

  datatype EnvRecord = EnvRecord(env: Option<Env>, announcedAt: Option<int>, expiresAt: Option<int>)

  datatype Store = Store(providers: map<PeerId, ProviderRecord>, envs: map<Cid, EnvRecord>, index: seq<PeerId>)

  const EMPTY: Store := Store(map[], map[], [])

  /** An announcement as the two envelopes carry it. */
  datatype Announcement = Announcement(peer: PeerId, env: Env, announcedAt: int, expiresAt: int)

  function EnvEnvelope(a: Announcement): EnvRecord {
    EnvRecord(Some(a.env), Some(a.announcedAt), Some(a.expiresAt))
  }

  function ProviderEnvelope(a: Announcement): ProviderRecord {
    ProviderRecord(a.peer, Link(CidOf(a.env)), Some(a.announcedAt), Some(a.expiresAt))
  }

  function PutEnv(s: Store, a: Announcement): Store {
    s.(envs := s.envs[CidOf(a.env) := EnvEnvelope(a)])
  }

  function PutProvider(s: Store, a: Announcement): Store {
    s.(providers := s.providers[a.peer := ProviderEnvelope(a)])
  }

  function Trimmed(id: PeerId): PeerId {
    PeerId(Trim(id.name))
  }

  predicate Nameless(id: PeerId) {
    id.name == ""
  }

  /** `normalizePeerIdList`: trimmed, non-blank, each once, in order of first appearance. */
  function NormalizedIds(raw: seq<PeerId>): seq<PeerId> {
    if raw == [] then []
    else
      var init, last := NormalizedIds(raw[..|raw| - 1]), Trimmed(raw[|raw| - 1]);
      if Nameless(last) || last in init then init else init + [last]
  }

  ghost predicate HasTrimmed(raw: seq<PeerId>, id: PeerId) {
    exists i :: 0 <= i < |raw| && Trimmed(raw[i]) == id
  }

  lemma HasTrimmedSnoc(init: seq<PeerId>, last: PeerId, id: PeerId)
    ensures HasTrimmed(init + [last], id) <==> HasTrimmed(init, id) || Trimmed(last) == id
  {
    hide Trimmed;
    var raw := init + [last];
    assert raw[|init|] == last;
    assert forall i :: 0 <= i < |init| ==> raw[i] == init[i];
  }

  lemma {:induction false} NormalizedIdsMembers(raw: seq<PeerId>, id: PeerId)
    ensures id in NormalizedIds(raw) <==> !Nameless(id) && HasTrimmed(raw, id)
  {
    hide Trimmed, Nameless, HasTrimmed;
    if raw == [] {
      assert !HasTrimmed(raw, id) by { NothingTrimmed(id); }
    } else {
      var init, last := raw[..|raw| - 1], raw[|raw| - 1];
      NormalizedIdsMembers(init, id);
      assert raw == init + [last];
      HasTrimmedSnoc(init, last, id);
    }
  }

  lemma NothingTrimmed(id: PeerId)
    ensures !HasTrimmed([], id)
  {
  }

  lemma {:induction false} NormalizedIdsDistinct(raw: seq<PeerId>, i: nat, j: nat)
    requires i < j < |NormalizedIds(raw)|
    ensures NormalizedIds(raw)[i] != NormalizedIds(raw)[j]
  {
    hide Trimmed, Nameless;
    var init := NormalizedIds(raw[..|raw| - 1]);
    if j < |init| {
      NormalizedIdsDistinct(raw[..|raw| - 1], i, j);
    } else {
      assert init[i] in init;
    }
  }

  /** The ids stand in the order of their first appearance: more of the list only adds at the end. */
  lemma {:induction false} NormalizedIdsGrow(raw: seq<PeerId>, n: nat)
    requires n <= |raw|
    ensures NormalizedIds(raw[..n]) <= NormalizedIds(raw)
  {
    if n < |raw| {
      var init := raw[..|raw| - 1];
      assert init[..n] == raw[..n];
      NormalizedIdsGrow(init, n);
    } else {
      assert raw[..n] == raw;
    }
  }

  function PutIndex(s: Store, peer: PeerId): (s': Store)
    ensures s'.providers == s.providers && s'.envs == s.envs
  {
    var id := Trimmed(peer);
    if Nameless(id) then s
    else
      var ids := NormalizedIds(s.index);
      s.(index := if id in ids then ids else ids + [id])
  }

  /** One `announceProviderEnvironment` whose puts all land, with nothing in between. */
  function AfterAnnounce(s: Store, a: Announcement): (s': Store)
    ensures s'.providers == s.providers[a.peer := ProviderEnvelope(a)]
    ensures s'.envs == s.envs[CidOf(a.env) := EnvEnvelope(a)]
  {
    PutIndex(PutProvider(PutEnv(s, a), a), a.peer)
  }

  // ---- Resolving ----

  datatype Reason =
    | ProviderMissing | ProviderInvalid | ProviderStale | ProviderBadCid
    | EnvMissing | EnvInvalid | EnvStale

  datatype Answer = FromDht(provider: ProviderRecord, environment: EnvRecord) | Fallback(reason: Reason)

  /** `isExpiredRecord`: by the record's own expiry, else by its age; unreadable dates are expired. */
  predicate Expired(announcedAt: Option<int>, expiresAt: Option<int>, now: int, maxAge: int) {
    match expiresAt
    case Some(at) => at <= now
    case None =>
      match announcedAt
      case Some(at) => at + maxAge <= now
      case None => true
  }

  /** The second level, through the provider's link. */
  function ResolveEnv(envs: map<Cid, EnvRecord>, provider: ProviderRecord, allowStale: bool, maxAge: int,
                      later: int): Answer
    requires provider.envCid.Link?
  {
    if provider.envCid.cid !in envs then Fallback(EnvMissing)
    else
      var record := envs[provider.envCid.cid];
      if record.env.None? || record.announcedAt.None? || !ValidEnv(record.env.value) then Fallback(EnvInvalid)
      else if !allowStale && Expired(record.announcedAt, record.expiresAt, later, maxAge) then Fallback(EnvStale)
      else FromDht(provider, record)
  }

  /** The clock is read once for each of the two records. */
  function Resolve(s: Store, peer: PeerId, allowStale: bool, maxAge: int, now: int, later: int): Answer {
    if peer !in s.providers || s.providers[peer].envCid.NoCid? then Fallback(ProviderMissing)
    else
      var provider := s.providers[peer];
      if Nameless(provider.peerId) || provider.announcedAt.None? then Fallback(ProviderInvalid)
      else if !allowStale && Expired(provider.announcedAt, provider.expiresAt, now, maxAge) then Fallback(ProviderStale)
      else if provider.envCid.BadCid? then Fallback(ProviderBadCid)
      else ResolveEnv(s.envs, provider, allowStale, maxAge, later)
  }

  /** The record has a date of its own, or an age, that is not past. */
  ghost predicate Unexpired(announcedAt: Option<int>, expiresAt: Option<int>, now: int, maxAge: int) {
    if expiresAt.Some? then now < expiresAt.value else announcedAt.Some? && now < announcedAt.value + maxAge
  }

  ghost predicate ProviderUsable(r: ProviderRecord, allowStale: bool, maxAge: int, now: int) {
    && r.peerId.name != "" && r.envCid.Link? && r.announcedAt.Some?
    && (allowStale || Unexpired(r.announcedAt, r.expiresAt, now, maxAge))
  }

  ghost predicate EnvUsable(r: EnvRecord, allowStale: bool, maxAge: int, later: int) {
    && r.env.Some? && r.announcedAt.Some?
    && Trim(r.env.value.gpuModel) != "" && r.env.value.gpuModel != "unknown" && r.env.value.vramGb > 0.0
    && (allowStale || Unexpired(r.announcedAt, r.expiresAt, later, maxAge))
  }

  /**
   * On any store, whoever filled it: the DHT answers exactly with a usable record of the peer and the usable
   * record that it links to.
   */
  lemma AnswersIff(s: Store, peer: PeerId, allowStale: bool, maxAge: int, now: int, later: int,
                   provider: ProviderRecord, environment: EnvRecord)
    ensures Resolve(s, peer, allowStale, maxAge, now, later) == FromDht(provider, environment) <==>
      && peer in s.providers && s.providers[peer] == provider && ProviderUsable(provider, allowStale, maxAge, now)
      && provider.envCid.cid in s.envs && s.envs[provider.envCid.cid] == environment
      && EnvUsable(environment, allowStale, maxAge, later)
  {
    hide Trim;
  }

  /** Otherwise the reason is the first thing found missing. */
  lemma ReasonIs(s: Store, peer: PeerId, allowStale: bool, maxAge: int, now: int, later: int)
    requires peer in s.providers && Resolve(s, peer, allowStale, maxAge, now, later).Fallback?
    ensures var p, reason := s.providers[peer], Resolve(s, peer, allowStale, maxAge, now, later).reason;
      var known := p.peerId.name != "" && p.announcedAt.Some?;
      var current := allowStale || Unexpired(p.announcedAt, p.expiresAt, now, maxAge);
      && (p.envCid.NoCid? <==> reason == ProviderMissing)
      && (!p.envCid.NoCid? && !known <==> reason == ProviderInvalid)
      && (!p.envCid.NoCid? && known && !current <==> reason == ProviderStale)
      && (p.envCid.BadCid? && known && current <==> reason == ProviderBadCid)
      && (p.envCid.Link? && known && current && p.envCid.cid !in s.envs <==> reason == EnvMissing)
      && (reason == EnvStale ==>
            EnvUsable(s.envs[p.envCid.cid], true, maxAge, later)
              && !EnvUsable(s.envs[p.envCid.cid], false, maxAge, later))
      && (reason == EnvInvalid ==> !EnvUsable(s.envs[p.envCid.cid], true, maxAge, later))
  {
    hide Trim;
  }

  // ---- The node's side, as the code runs it ----

  class Dht {
    var store: Store

    constructor ()
      ensures store == EMPTY
    {
      store := EMPTY;
    }

    /** The clock is read twice, for the two dates. */
    method Announce(raw: RawEnv, nodeId: PeerId, ttl: RawNum, announcedAt: int, now: int) returns (a: Announcement)
      modifies this
      ensures a == Announcement(PeerOf(raw, nodeId), Normalized(raw), announcedAt, now + TtlMs(ttl).Floor)
      ensures announcedAt <= now ==> a.expiresAt >= announcedAt + 30000
      ensures store == AfterAnnounce(old(store), a)
      ensures FiledAs(raw, a.env) && a.announcedAt == announcedAt
      ensures var own := if raw.peerId.Some? then Trim(raw.peerId.value) else "";
        a.peer == if own != "" then PeerId(own) else nodeId
      ensures store.providers == old(store).providers[a.peer :=
        ProviderRecord(a.peer, Link(CidOf(a.env)), Some(announcedAt), Some(a.expiresAt))]
      ensures store.envs
          == old(store).envs[CidOf(a.env) := EnvRecord(Some(a.env), Some(announcedAt), Some(a.expiresAt))]
    {
      TtlIsBounded(ttl);
      NormalizedFields(raw);
      var expiresAt := now + TtlMs(ttl).Floor;
      a := Announcement(PeerOf(raw, nodeId), Normalized(raw), announcedAt, expiresAt);
      store := PutEnv(store, a);
      store := PutProvider(store, a);
      UpdateIndex(a.peer);
    }

    method UpdateIndex(peer: PeerId)
      modifies this
      ensures store == PutIndex(old(store), peer)
      ensures store.providers == old(store).providers && store.envs == old(store).envs
      ensures NormalizedIds(old(store).index) <= store.index || store.index == old(store).index
    {
      var current := NormalizedIds(store.index);
      var id := Trimmed(peer);
      if Nameless(id) {
        return;
      }
      var providers := current;
      if id !in providers {
        providers := providers + [id];
      }
      store := store.(index := providers);
    }
  }

  // ---- Any interleaving of puts ----

  /** Announcements begin; each of their puts lands at most at any later time, in any order. */
  datatype Event =
    | Begin(a: Announcement) | LandEnv(a: Announcement) | LandProvider(a: Announcement) | LandIndex(a: Announcement)

  ghost predicate Possible(begun: set<Announcement>, e: Event) {
    e.Begin? || e.a in begun
  }

  ghost function StoreAfter(events: seq<Event>): Store {
    if events == [] then EMPTY
    else
      var s := StoreAfter(events[..|events| - 1]);
      var e := events[|events| - 1];
      match e
      case Begin(_) => s
      case LandEnv(a) => PutEnv(s, a)
      case LandProvider(a) => PutProvider(s, a)
      case LandIndex(a) => PutIndex(s, a.peer)
  }

  ghost function Begun(events: seq<Event>): set<Announcement> {
    set e <- events | e.Begin? :: e.a
  }

  ghost predicate Scheduled(events: seq<Event>) {
    forall i :: 0 <= i < |events| ==> Possible(Begun(events[..i]), events[i])
  }

  lemma BegunGrows(events: seq<Event>)
    requires events != [] && Scheduled(events)
    ensures Scheduled(events[..|events| - 1]) && Begun(events[..|events| - 1]) <= Begun(events)
    ensures Possible(Begun(events[..|events| - 1]), events[|events| - 1])
  {
    var init := events[..|events| - 1];
    assert forall i :: 0 <= i < |init| ==> init[..i] == events[..i];
    forall a | a in Begun(init)
      ensures a in Begun(events)
    {
      var e :| e in init && e.Begin? && e.a == a;
      assert e in events;
    }
  }

  lemma {:induction false} ProvidersAreAnnounced(events: seq<Event>, p: PeerId)
    requires Scheduled(events) && p in StoreAfter(events).providers
    ensures exists a :: a in Begun(events) && a.peer == p && StoreAfter(events).providers[p] == ProviderEnvelope(a)
  {
    var init, e := events[..|events| - 1], events[|events| - 1];
    BegunGrows(events);
    if e.LandProvider? && e.a.peer == p {
      assert e.a in Begun(events);
    } else {
      ProvidersAreAnnounced(init, p);
    }
  }

  lemma {:induction false} EnvsAreAnnounced(events: seq<Event>, cid: Cid)
    requires Scheduled(events) && cid in StoreAfter(events).envs
    ensures exists a :: a in Begun(events) && CidOf(a.env) == cid && StoreAfter(events).envs[cid] == EnvEnvelope(a)
  {
    var init, e := events[..|events| - 1], events[|events| - 1];
    BegunGrows(events);
    if e.LandEnv? && CidOf(e.a.env) == cid {
      assert e.a in Begun(events);
    } else {
      EnvsAreAnnounced(init, cid);
    }
  }

  /**
   * However the puts of any announcements interleave, and whichever are lost, an answer from the DHT
   * for peer `p` pairs `p` with an environment `p` itself announced, under a record of its own that
   * has not expired.
   */
  lemma DhtAnswersAreOwn(events: seq<Event>, p: PeerId, allowStale: bool, maxAge: int, now: int, later: int)
    requires Scheduled(events)
    requires Resolve(StoreAfter(events), p, allowStale, maxAge, now, later).FromDht?
    ensures var answer := Resolve(StoreAfter(events), p, allowStale, maxAge, now, later);
            exists a :: && a in Begun(events) && a.peer == p && answer.provider == ProviderEnvelope(a)
                        && answer.environment.env == Some(a.env) && (allowStale || now < a.expiresAt)
  {
    var s := StoreAfter(events);
    ProvidersAreAnnounced(events, p);
    var a :| a in Begun(events) && a.peer == p && s.providers[p] == ProviderEnvelope(a);
    EnvsAreAnnounced(events, CidOf(a.env));
    var b :| b in Begun(events) && CidOf(b.env) == CidOf(a.env) && s.envs[CidOf(a.env)] == EnvEnvelope(b);
  }

  // ---- Atomic announcements: the store refines a map ----

  function Published(history: seq<Announcement>): Store {
    if history == [] then EMPTY
    else AfterAnnounce(Published(history[..|history| - 1]), history[|history| - 1])
  }

  /** The simple map: a peer's latest announcement. */
  function Latest(history: seq<Announcement>, p: PeerId): Option<Announcement> {
    if history == [] then None
    else if history[|history| - 1].peer == p then Some(history[|history| - 1])
    else Latest(history[..|history| - 1], p)
  }

  /** The latest announcement of an environment, by whichever peer. */
  function LatestOf(history: seq<Announcement>, env: Env): Option<Announcement> {
    if history == [] then None
    else if history[|history| - 1].env == env then Some(history[|history| - 1])
    else LatestOf(history[..|history| - 1], env)
  }

  lemma {:induction false} PublishedProvider(history: seq<Announcement>, p: PeerId)
    ensures var providers := Published(history).providers; var latest := Latest(history, p);
            && (p in providers <==> latest.Some?)
            && (latest.Some? ==> latest.value.peer == p && providers[p] == ProviderEnvelope(latest.value))
  {
    hide AfterAnnounce;
    if history != [] {
      PublishedProvider(history[..|history| - 1], p);
    }
  }

  lemma {:induction false} PublishedEnv(history: seq<Announcement>, env: Env)
    ensures var envs := Published(history).envs; var latest := LatestOf(history, env);
            && (CidOf(env) in envs <==> latest.Some?)
            && (latest.Some? ==> latest.value.env == env && envs[CidOf(env)] == EnvEnvelope(latest.value))
  {
    hide AfterAnnounce;
    if history != [] {
      PublishedEnv(history[..|history| - 1], env);
    }
  }

  lemma {:induction false} LatestHasEnv(history: seq<Announcement>, p: PeerId)
    requires Latest(history, p).Some?
    ensures LatestOf(history, Latest(history, p).value.env).Some?
    ensures Latest(history, p).value in history && Latest(history, p).value.peer == p
  {
    if history[|history| - 1].peer != p {
      LatestHasEnv(history[..|history| - 1], p);
    }
  }

  /** Resolving through a provider record of `a` and an environment record of `b`. */
  lemma ResolveLinked(s: Store, p: PeerId, a: Announcement, b: Announcement, maxAge: int, now: int, later: int)
    requires p in s.providers && s.providers[p] == ProviderEnvelope(a) && !Nameless(a.peer)
    requires CidOf(a.env) in s.envs && s.envs[CidOf(a.env)] == EnvEnvelope(b) && b.env == a.env
    ensures Resolve(s, p, false, maxAge, now, later)
            == if a.expiresAt <= now then Fallback(ProviderStale)
               else if !ValidEnv(a.env) then Fallback(EnvInvalid)
               else if b.expiresAt <= later then Fallback(EnvStale)
               else FromDht(ProviderEnvelope(a), EnvEnvelope(b))
  {
    ResolveLinkedEnv(s.envs, a, b, maxAge, later);
  }

  lemma ResolveLinkedEnv(envs: map<Cid, EnvRecord>, a: Announcement, b: Announcement, maxAge: int, later: int)
    requires CidOf(a.env) in envs && envs[CidOf(a.env)] == EnvEnvelope(b) && b.env == a.env
    ensures ResolveEnv(envs, ProviderEnvelope(a), false, maxAge, later)
            == if !ValidEnv(a.env) then Fallback(EnvInvalid)
               else if b.expiresAt <= later then Fallback(EnvStale)
               else FromDht(ProviderEnvelope(a), EnvEnvelope(b))
  {
    var record := envs[ProviderEnvelope(a).envCid.cid];
    assert record == EnvEnvelope(b);
  }

  /**
   * The exact instants at which the DHT answers, and what it answers: p's latest announcement must
   * be valid and unexpired, and so must the latest record of that environment, whoever put it there.
   */
  lemma ResolveExactly(history: seq<Announcement>, p: PeerId, maxAge: int, now: int, later: int)
    requires !Nameless(p)
    ensures var latest := Latest(history, p);
            && (latest.Some? ==> LatestOf(history, latest.value.env).Some?)
            && Resolve(Published(history), p, false, maxAge, now, later)
               == if latest.None? then Fallback(ProviderMissing)
                  else if latest.value.expiresAt <= now then Fallback(ProviderStale)
                  else if !ValidEnv(latest.value.env) then Fallback(EnvInvalid)
                  else if LatestOf(history, latest.value.env).value.expiresAt <= later then Fallback(EnvStale)
                  else FromDht(ProviderEnvelope(latest.value), EnvEnvelope(LatestOf(history, latest.value.env).value))
  {
    var latest := Latest(history, p);
    PublishedProvider(history, p);
    if latest.Some? {
      PublishedEnv(history, latest.value.env);
      LatestHasEnv(history, p);
      ResolveLinked(Published(history), p, latest.value, LatestOf(history, latest.value.env).value, maxAge, now, later);
    }
  }

  /** No announcement expires before an earlier one does. */
  ghost predicate ExpiriesGrow(history: seq<Announcement>) {
    forall i, j :: 0 <= i < j < |history| ==> history[i].expiresAt <= history[j].expiresAt
  }

  lemma {:induction false} GrowingOutlives(history: seq<Announcement>, a: Announcement)
    requires ExpiriesGrow(history) && a in history
    ensures LatestOf(history, a.env).Some? && a.expiresAt <= LatestOf(history, a.env).value.expiresAt
  {
    var init, last := history[..|history| - 1], history[|history| - 1];
    if last.env != a.env {
      assert history == init + [last];
      assert a in init;
      GrowingOutlives(init, a);
    } else {
      var i :| 0 <= i < |history| && history[i] == a;
      assert i < |history| - 1 ==> history[i].expiresAt <= last.expiresAt;
    }
  }

  /** p's latest announcement is valid and has not expired. */
  ghost predicate Live(history: seq<Announcement>, p: PeerId, now: int) {
    var latest := Latest(history, p);
    latest.Some? && ValidEnv(latest.value.env) && now < latest.value.expiresAt
  }

  /**
   * The two levels are one map from peers to their latest announcements: what is live throughout the lookup is
   * answered from the DHT, with that announcement's own environment, and what is not live when it starts is not.
   */
  ghost predicate AnswersAsMap(history: seq<Announcement>, p: PeerId, maxAge: int, now: int, later: int) {
    var answer := Resolve(Published(history), p, false, maxAge, now, later);
    && (Live(history, p, later) ==> answer.FromDht?)
    && (!Live(history, p, now) ==> answer.Fallback?)
    && (answer.FromDht? ==> answer.provider == ProviderEnvelope(Latest(history, p).value)
                            && answer.environment.env == Some(Latest(history, p).value.env))
  }

  /** They are while expiries grow along the history. */
  lemma StoreRefinesMap(history: seq<Announcement>, p: PeerId, maxAge: int, now: int, later: int)
    requires ExpiriesGrow(history) && !Nameless(p) && now <= later
    ensures AnswersAsMap(history, p, maxAge, now, later)
  {
    ResolveExactly(history, p, maxAge, now, later);
    var latest := Latest(history, p);
    if latest.Some? {
      LatestHasEnv(history, p);
      GrowingOutlives(history, latest.value);
      PublishedEnv(history, latest.value.env);
    }
  }

  /** All with time to live `ttl`, counted from the second of each announcement's readings of the clock. */
  ghost predicate OneTtl(history: seq<Announcement>, clock: seq<int>, ttl: int) {
    && |clock| == |history|
    && (forall i :: 0 <= i < |history| ==> history[i].expiresAt == clock[i] + ttl)
    && (forall i, j :: 0 <= i < j < |clock| ==> clock[i] <= clock[j])
  }

  /** In particular with one time to live and a clock that does not go back. */
  lemma OneTtlRefinesMap(history: seq<Announcement>, clock: seq<int>, ttl: int, p: PeerId, maxAge: int, now: int,
                         later: int)
    requires OneTtl(history, clock, ttl) && !Nameless(p) && now <= later
    ensures AnswersAsMap(history, p, maxAge, now, later)
  {
    assert ExpiriesGrow(history);
    StoreRefinesMap(history, p, maxAge, now, later);
  }

  /**
   * With mixed times to live: a valid announcement is answered exactly until it expires exactly if the latest
   * record of its environment, whoever put it there, does not expire before it.
   */
  lemma AnsweredUntilExpiryIff(history: seq<Announcement>, p: PeerId, maxAge: int)
    requires !Nameless(p) && Latest(history, p).Some? && ValidEnv(Latest(history, p).value.env)
    ensures LatestOf(history, Latest(history, p).value.env).Some?
    ensures var a := Latest(history, p).value;
      (forall now :: Resolve(Published(history), p, false, maxAge, now, now).FromDht? <==> now < a.expiresAt)
      <==> a.expiresAt <= LatestOf(history, a.env).value.expiresAt
  {
    var a := Latest(history, p).value;
    forall now
      ensures LatestOf(history, a.env).Some?
      ensures Resolve(Published(history), p, false, maxAge, now, now).FromDht?
         <==> now < a.expiresAt && now < LatestOf(history, a.env).value.expiresAt
    {
      ResolveExactly(history, p, maxAge, now, now);
    }
    var end := LatestOf(history, a.env).value.expiresAt;
    assert Resolve(Published(history), p, false, maxAge, end, end).FromDht? <==> end < a.expiresAt && end < end;
  }

  /** With two times to live that can fail: another peer's shorter one takes p's environment down early. */
  lemma ShorterTtlHidesAnother(env: Env, p: PeerId, q: PeerId)
    requires ValidEnv(env) && p != q && !Nameless(p)
    ensures var history := [Announcement(p, env, 0, 120000), Announcement(q, env, 1, 30001)];
            && Latest(history, p) == Some(history[0]) && 40000 < history[0].expiresAt
            && Resolve(Published(history), p, false, 120000, 40000, 40000) == Fallback(EnvStale)
  {
    var history := [Announcement(p, env, 0, 120000), Announcement(q, env, 1, 30001)];
    var first := history[..1];
    assert first[|first| - 1].peer == p;
    ResolveExactly(history, p, 120000, 40000, 40000);
  }

  // ---- The provider index ----

  ghost predicate Normal(ids: seq<PeerId>) {
    forall i :: 0 <= i < |ids| ==> !Nameless(ids[i]) && Trimmed(ids[i]) == ids[i]
  }

  /** Normalising a normal list keeps its members. */
  lemma NormalMembers(ids: seq<PeerId>, id: PeerId)
    requires Normal(ids)
    ensures id in NormalizedIds(ids) <==> id in ids
  {
    hide Trimmed, Nameless, NormalizedIds;
    NormalizedIdsMembers(ids, id);
    if HasTrimmed(ids, id) {
      var i :| 0 <= i < |ids| && Trimmed(ids[i]) == id;
      assert ids[i] in ids;
    }
    if id in ids {
      var i :| 0 <= i < |ids| && ids[i] == id;
      assert Trimmed(ids[i]) == id;
    }
  }

  lemma IndexAfter(s: Store, peer: PeerId, id: PeerId)
    requires Normal(s.index)
    ensures id in PutIndex(s, peer).index <==> id in s.index || (id == Trimmed(peer) && !Nameless(id))
  {
    hide Trimmed, Nameless, NormalizedIds, Normal;
    NormalMembers(s.index, id);
    NormalMembers(s.index, Trimmed(peer));
  }

  ghost predicate Announced(history: seq<Announcement>, id: PeerId) {
    !Nameless(id) && exists a <- history :: Trimmed(a.peer) == id
  }

  lemma {:induction false} NormalizedIsNormal(raw: seq<PeerId>)
    ensures Normal(NormalizedIds(raw))
  {
    hide Trimmed, Nameless;
    if raw != [] {
      NormalizedIsNormal(raw[..|raw| - 1]);
      TrimmedIsFixed(raw[|raw| - 1]);
    }
  }

  lemma TrimmedIsFixed(id: PeerId)
    ensures Trimmed(Trimmed(id)) == Trimmed(id)
  {
    TrimIdempotent(id.name);
    hide Trim;
  }

  lemma IndexStaysNormal(s: Store, peer: PeerId)
    requires Normal(s.index)
    ensures Normal(PutIndex(s, peer).index)
  {
    hide Trimmed, Nameless, NormalizedIds;
    NormalizedIsNormal(s.index);
    TrimmedIsFixed(peer);
  }

  lemma {:induction false} IndexIsNormal(history: seq<Announcement>)
    ensures Normal(Published(history).index)
  {
    hide Normal, PutIndex;
    if history == [] {
      EmptyIsNormal();
    } else {
      var init, last := history[..|history| - 1], history[|history| - 1];
      IndexIsNormal(init);
      IndexStaysNormal(PutProvider(PutEnv(Published(init), last), last), last.peer);
    }
  }

  lemma EmptyIsNormal()
    ensures Normal([])
  {
  }

  lemma NormalMember(ids: seq<PeerId>, id: PeerId)
    requires Normal(ids) && id in ids
    ensures Trimmed(id) == id
  {
    hide Trimmed;
  }

  lemma NobodyAnnounced(id: PeerId)
    ensures !Announced([], id)
  {
  }

  /** The index lists exactly the peers that announced. */
  lemma {:induction false} IndexListsPeers(history: seq<Announcement>, id: PeerId)
    ensures id in Published(history).index <==> Announced(history, id)
    ensures id in Published(history).index ==> Trimmed(id) == id
  {
    hide Normal, PutIndex, Trimmed, Nameless, Announced;
    if history == [] {
      NobodyAnnounced(id);
    } else {
      var init, last := history[..|history| - 1], history[|history| - 1];
      assert history == init + [last];
      IndexListsPeers(init, id);
      IndexIsNormal(init);
      IndexAfter(PutProvider(PutEnv(Published(init), last), last), last.peer, id);
      AnnouncedSnoc(init, last, id);
    }
    IndexIsNormal(history);
    if id in Published(history).index {
      NormalMember(Published(history).index, id);
    }
  }

  lemma AnnouncedSnoc(init: seq<Announcement>, last: Announcement, id: PeerId)
    ensures Announced(init + [last], id) <==> Announced(init, id) || (id == Trimmed(last.peer) && !Nameless(id))
  {
    if Announced(init, id) {
      var a :| a in init && Trimmed(a.peer) == id;
      assert a in init + [last];
    }
    if id == Trimmed(last.peer) {
      assert last in init + [last];
    }
  }

  /** And it lists none of them twice. */
  lemma {:induction false} IndexIsDistinct(history: seq<Announcement>, i: nat, j: nat)
    requires i < j < |Published(history).index|
    ensures Published(history).index[i] != Published(history).index[j]
  {
    var init, last := history[..|history| - 1], history[|history| - 1];
    var before := PutProvider(PutEnv(Published(init), last), last);
    if Nameless(Trimmed(last.peer)) {
      IndexIsDistinct(init, i, j);
    } else {
      PutIndexDistinct(before, last.peer, i, j);
    }
  }

  lemma PutIndexDistinct(s: Store, peer: PeerId, i: nat, j: nat)
    requires !Nameless(Trimmed(peer)) && i < j < |PutIndex(s, peer).index|
    ensures PutIndex(s, peer).index[i] != PutIndex(s, peer).index[j]
  {
    var ids := NormalizedIds(s.index);
    if j < |ids| {
      NormalizedIdsDistinct(s.index, i, j);
    } else {
      assert ids[i] in ids;
    }
  }
}
