/**
 * p2p/heartbeat-protocol.js, `createHeartbeatEmitter`: two async entry paths into one emitter, a first
 * emission started at once and a chain of timers, interleaved at every `await`.
 */
module Heartbeat {
  import opened Options

  datatype Entry = First | Chain

  /** Where an emission is suspended; a chain emission that is over still has `scheduleNext` to call. */
  datatype Phase = AwaitMetrics | AwaitAnnounce(number: nat) | Finished

  datatype Task = Timer(due: int) | Emission(entry: Entry, phase: Phase)

  /** How the DHT put inside `announceHeartbeat` ends; the two abort errors are reported as a timeout. */
  datatype Put = Stored(timestamp: int) | AbortError | TimeoutError | OtherError(message: string)

  datatype Stats = Stats(announced: nat, failed: nat, lastAnnounceAt: Option<int>, lastError: Option<string>)

  /**
   * The closure's variables and suspended tasks, and what has happened so far: the sequence numbers passed
   * to `announceHeartbeat`, the emissions started and completed, the times chain emissions started, the clock.
   */
  datatype State = State(
    running: bool, sequence: nat, lastAnnounceMs: int, stats: Stats, tasks: seq<Task>,
    passed: seq<nat>, started: nat, completed: nat, chainStarts: seq<int>, clock: int)

  datatype Event =
    | Fire(i: nat, now: int)
    | MetricsReady(i: nat)
    | BeforeAnnounceFails(i: nat, message: string, now: int)
    | AnnounceSettles(i: nat, put: Put, now: int)
    | Reschedule(i: nat, now: int)
    | Stop

  function NextDue(now: int, last: int, interval: int): int {
    var delay := interval - (now - last);
    now + if delay < 0 then 0 else delay
  }

  function Created(now: int, interval: int): State {
    State(true, 0, 0, Stats(0, 0, None, None), [Emission(First, AwaitMetrics), Timer(NextDue(now, 0, interval))],
          [], 1, 0, [], now)
  }

  // ---- Transitions ----

  function Without(tasks: seq<Task>, i: nat): seq<Task>
    requires i < |tasks|
  {
    tasks[..i] + tasks[i + 1..]
  }

  predicate InPhase(s: State, i: nat, phase: Phase) {
    i < |s.tasks| && s.tasks[i].Emission? && s.tasks[i].phase == phase
  }

  ghost predicate Enabled(s: State, e: Event) {
    match e
    case Fire(i, now) => now >= s.clock && i < |s.tasks| && s.tasks[i].Timer? && s.tasks[i].due <= now
    case MetricsReady(i) => InPhase(s, i, AwaitMetrics)
    case BeforeAnnounceFails(i, _, now) => now >= s.clock && InPhase(s, i, AwaitMetrics)
    case AnnounceSettles(i, _, now) =>
      now >= s.clock && i < |s.tasks| && s.tasks[i].Emission? && s.tasks[i].phase.AwaitAnnounce?
    case Reschedule(i, now) => now >= s.clock && InPhase(s, i, Finished)
    case Stop => true
  }

  /** The end of `emitHeartbeat`: stamp the time; the first emission is gone, a chain one goes on to reschedule. */
  function Complete(s: State, i: nat, stats: Stats, now: int): State
    requires i < |s.tasks| && s.tasks[i].Emission?
  {
    s.(stats := stats, lastAnnounceMs := now, completed := s.completed + 1, clock := now,
       tasks := if s.tasks[i].entry == First then Without(s.tasks, i) else s.tasks[i := Emission(Chain, Finished)])
  }

  function Counted(stats: Stats, put: Put): Stats {
    match put
    case Stored(t) => stats.(announced := stats.announced + 1, lastAnnounceAt := Some(t))
    case AbortError => stats.(failed := stats.failed + 1)
    case TimeoutError => stats.(failed := stats.failed + 1)
    case OtherError(m) => stats.(failed := stats.failed + 1, lastError := Some(m))
  }

  ghost function After(s: State, e: Event, interval: int): State
    requires Enabled(s, e)
  {
    match e
    case Fire(i, now) =>
      s.(tasks := s.tasks[i := Emission(Chain, AwaitMetrics)], started := s.started + 1,
         chainStarts := s.chainStarts + [now], clock := now)
    case MetricsReady(i) =>
      s.(tasks := s.tasks[i := Emission(s.tasks[i].entry, AwaitAnnounce(s.sequence))],
         passed := s.passed + [s.sequence], sequence := s.sequence + 1)
    case BeforeAnnounceFails(i, message, now) =>
      Complete(s, i, s.stats.(failed := s.stats.failed + 1, lastError := Some(message)), now)
    case AnnounceSettles(i, put, now) => Complete(s, i, Counted(s.stats, put), now)
    case Reschedule(i, now) =>
      s.(clock := now,
         tasks := Without(s.tasks, i) + if s.running then [Timer(NextDue(now, s.lastAnnounceMs, interval))] else [])
    case Stop => s.(running := false)
  }

  /** Every interleaving: each event is enabled where it happens. */
  ghost predicate IsRun(states: seq<State>, events: seq<Event>, start: int, interval: int) {
    && |states| == |events| + 1 && states[0] == Created(start, interval)
    && forall k :: 0 <= k < |events| ==>
         Enabled(states[k], events[k]) && states[k + 1] == After(states[k], events[k], interval)
  }

  // ---- Counting tasks ----

  datatype Kind = TimerChain | Pending | InFlight | FirstPath

  predicate Is(t: Task, kind: Kind) {
    match kind
    case TimerChain => t.Timer? || t.entry == Chain
    case Pending => t.Timer?
    case InFlight => t.Emission? && t.phase != Finished
    case FirstPath => t.Emission? && t.entry == First
  }

  function Count(tasks: seq<Task>, kind: Kind): nat {
    if tasks == [] then 0 else (if Is(tasks[0], kind) then 1 else 0) + Count(tasks[1..], kind)
  }

  lemma {:induction false} CountConcat(a: seq<Task>, b: seq<Task>, kind: Kind)
    ensures Count(a + b, kind) == Count(a, kind) + Count(b, kind)
  {
    if a == [] {
      assert a + b == b;
    } else {
      CountConcat(a[1..], b, kind);
      assert (a + b)[1..] == a[1..] + b;
    }
  }

  lemma CountSplit(tasks: seq<Task>, i: nat, kind: Kind)
    requires i < |tasks|
    ensures Count(tasks, kind) == Count(Without(tasks, i), kind) + if Is(tasks[i], kind) then 1 else 0
  {
    CountConcat(tasks[..i], tasks[i + 1..], kind);
    CountConcat([tasks[i]], tasks[i + 1..], kind);
    CountConcat(tasks[..i], [tasks[i]] + tasks[i + 1..], kind);
    assert tasks == tasks[..i] + ([tasks[i]] + tasks[i + 1..]);
  }

  lemma CountUpdate(tasks: seq<Task>, i: nat, t: Task, kind: Kind)
    requires i < |tasks|
    ensures Count(tasks[i := t], kind) == Count(Without(tasks, i), kind) + if Is(t, kind) then 1 else 0
  {
    CountSplit(tasks[i := t], i, kind);
    assert Without(tasks[i := t], i) == Without(tasks, i);
  }

  lemma {:induction false} CountMember(tasks: seq<Task>, i: nat, kind: Kind)
    requires i < |tasks| && Is(tasks[i], kind)
    ensures Count(tasks, kind) > 0
  {
    CountSplit(tasks, i, kind);
  }

  // ---- The invariant ----

  ghost predicate Spaced(starts: seq<int>, interval: int) {
    forall k :: 0 < k < |starts| ==> starts[k] - starts[k - 1] >= interval
  }

  /** The timer chain's one token is never ahead of its last emission plus the interval. */
  ghost predicate TaskOk(s: State, interval: int, i: nat) {
    i < |s.tasks| ==>
      && var t := s.tasks[i];
      && (t.Emission? && t.entry == First ==> t.phase != Finished)
      && (t.Emission? && t.entry == Chain ==> s.chainStarts != [] && s.chainStarts[|s.chainStarts| - 1] <= s.clock)
      && (t.Emission? && t.phase == Finished ==>
            s.chainStarts != [] && s.chainStarts[|s.chainStarts| - 1] <= s.lastAnnounceMs)
      && (t.Timer? && s.chainStarts != [] ==> t.due >= s.chainStarts[|s.chainStarts| - 1] + interval)
  }

  ghost predicate Inv(s: State, interval: int) {
    var holds :=
      && Count(s.tasks, TimerChain) <= 1 && (s.running ==> Count(s.tasks, TimerChain) == 1)
      && Count(s.tasks, FirstPath) <= 1
      && |s.passed| == s.sequence && (forall k :: 0 <= k < |s.passed| ==> s.passed[k] == k)
      && s.stats.announced + s.stats.failed == s.completed
      && s.started == s.completed + Count(s.tasks, InFlight)
      && Spaced(s.chainStarts, interval)
      && forall i: nat {:trigger TaskOk(s, interval, i)} :: TaskOk(s, interval, i);
    holds
  }

  /** The chain's token is unique, so every other task is on the first path. */
  lemma OthersAreFirst(s: State, interval: int, i: nat, j: nat)
    requires Inv(s, interval) && i < |s.tasks| && j < |s.tasks| && i != j && Is(s.tasks[i], TimerChain)
    ensures Is(s.tasks[j], FirstPath)
  {
    CountSplit(s.tasks, i, TimerChain);
    var rest := Without(s.tasks, i);
    var k := if j < i then j else j - 1;
    assert rest[k] == s.tasks[j];
    if Is(rest[k], TimerChain) {
      CountMember(rest, k, TimerChain);
    }
  }

  lemma CreatedInv(now: int, interval: int)
    ensures Inv(Created(now, interval), interval)
  {
    var s := Created(now, interval);
    var t0, t1 := s.tasks[0], s.tasks[1];
    assert s.tasks == [t0] + [t1];
    CountConcat([t0], [t1], TimerChain);
    CountConcat([t0], [t1], FirstPath);
    CountConcat([t0], [t1], InFlight);
    assert forall i: nat :: TaskOk(s, interval, i);
  }

  lemma Recount(s: State, i: nat, t: Task)
    requires i < |s.tasks|
    ensures forall kind: Kind {:trigger Count(s.tasks[i := t], kind)} ::
      Count(s.tasks[i := t], kind) + (if Is(s.tasks[i], kind) then 1 else 0)
        == Count(s.tasks, kind) + if Is(t, kind) then 1 else 0
    ensures forall kind: Kind {:trigger Count(Without(s.tasks, i), kind)} ::
      Count(Without(s.tasks, i), kind) + (if Is(s.tasks[i], kind) then 1 else 0) == Count(s.tasks, kind)
  {
    forall kind: Kind
      ensures Count(s.tasks[i := t], kind) == Count(Without(s.tasks, i), kind) + if Is(t, kind) then 1 else 0
      ensures Count(Without(s.tasks, i), kind) + (if Is(s.tasks[i], kind) then 1 else 0) == Count(s.tasks, kind)
    {
      CountSplit(s.tasks, i, kind);
      CountUpdate(s.tasks, i, t, kind);
    }
  }

  lemma FireInv(s: State, e: Event, interval: int)
    requires Inv(s, interval) && e.Fire? && Enabled(s, e)
    ensures Inv(After(s, e, interval), interval)
  {
    var s' := After(s, e, interval);
    Recount(s, e.i, Emission(Chain, AwaitMetrics));
    assert TaskOk(s, interval, e.i);
    forall j: nat
      ensures TaskOk(s', interval, j)
    {
      assert TaskOk(s, interval, j);
      if j < |s.tasks| && j != e.i {
        OthersAreFirst(s, interval, e.i, j);
      }
    }
  }

  lemma MetricsInv(s: State, e: Event, interval: int)
    requires Inv(s, interval) && e.MetricsReady? && Enabled(s, e)
    ensures Inv(After(s, e, interval), interval)
  {
    var s' := After(s, e, interval);
    Recount(s, e.i, s'.tasks[e.i]);
    forall j: nat
      ensures TaskOk(s', interval, j)
    {
      assert TaskOk(s, interval, j);
    }
  }

  lemma CompleteInv(s: State, i: nat, stats: Stats, now: int, interval: int)
    requires Inv(s, interval) && i < |s.tasks| && s.tasks[i].Emission? && s.tasks[i].phase != Finished && now >= s.clock
    requires stats.announced + stats.failed == s.stats.announced + s.stats.failed + 1
    ensures Inv(Complete(s, i, stats, now), interval)
  {
    var s' := Complete(s, i, stats, now);
    Recount(s, i, Emission(Chain, Finished));
    assert TaskOk(s, interval, i);
    forall j: nat
      ensures TaskOk(s', interval, j)
    {
      assert TaskOk(s, interval, j);
      assert TaskOk(s, interval, j + 1);
    }
  }

  lemma RescheduleInv(s: State, e: Event, interval: int)
    requires Inv(s, interval) && e.Reschedule? && Enabled(s, e)
    ensures Inv(After(s, e, interval), interval)
  {
    var s', timer := After(s, e, interval), Timer(NextDue(e.now, s.lastAnnounceMs, interval));
    Recount(s, e.i, timer);
    assert TaskOk(s, interval, e.i);
    var rest := Without(s.tasks, e.i);
    CountConcat(rest, [timer], TimerChain);
    CountConcat(rest, [timer], FirstPath);
    CountConcat(rest, [timer], InFlight);
    assert !s.running ==> s'.tasks == rest;
    forall j: nat
      ensures TaskOk(s', interval, j)
    {
      assert TaskOk(s, interval, j);
      assert TaskOk(s, interval, j + 1);
    }
  }

  lemma StepInv(s: State, e: Event, interval: int)
    requires Inv(s, interval) && Enabled(s, e)
    ensures Inv(After(s, e, interval), interval)
  {
    match e
    case Fire(_, _) => FireInv(s, e, interval);
    case MetricsReady(_) => MetricsInv(s, e, interval);
    case BeforeAnnounceFails(i, m, now) =>
      CompleteInv(s, i, s.stats.(failed := s.stats.failed + 1, lastError := Some(m)), now, interval);
    case AnnounceSettles(i, put, now) => CompleteInv(s, i, Counted(s.stats, put), now, interval);
    case Reschedule(_, _) => RescheduleInv(s, e, interval);
    case Stop =>
      var s' := After(s, e, interval);
      forall j: nat
        ensures TaskOk(s', interval, j)
      {
        assert TaskOk(s, interval, j);
      }
  }

  // ---- Theorems over every interleaving ----

  lemma {:induction false} InvAlways(states: seq<State>, events: seq<Event>, start: int, interval: int, k: nat)
    requires IsRun(states, events, start, interval) && k < |states|
    ensures Inv(states[k], interval)
  {
    if k == 0 {
      CreatedInv(start, interval);
    } else {
      InvAlways(states, events, start, interval, k - 1);
      StepInv(states[k - 1], events[k - 1], interval);
    }
  }

  /** The numbers passed to `announceHeartbeat` are 0, 1, 2, … with no gap and no repeat, whichever path passes them. */
  lemma SequenceNumbersAreExact(states: seq<State>, events: seq<Event>, start: int, interval: int, k: nat)
    requires IsRun(states, events, start, interval) && k < |states|
    ensures states[k].passed == seq(states[k].sequence, n => n)
  {
    InvAlways(states, events, start, interval, k);
  }

  /** Every completed emission is counted once, as announced or failed; at most two are ever in flight. */
  lemma EveryEmissionIsCounted(states: seq<State>, events: seq<Event>, start: int, interval: int, k: nat)
    requires IsRun(states, events, start, interval) && k < |states|
    ensures states[k].stats.announced + states[k].stats.failed == states[k].completed
    ensures states[k].completed <= states[k].started <= states[k].completed + 2
  {
    InvAlways(states, events, start, interval, k);
    AtMostTwo(states[k].tasks);
  }

  predicate Announces(e: Event) {
    e.AnnounceSettles? && e.put.Stored?
  }

  predicate Fails(e: Event) {
    e.BeforeAnnounceFails? || (e.AnnounceSettles? && !e.put.Stored?)
  }

  ghost function Announcements(events: seq<Event>): nat {
    if events == [] then 0
    else Announcements(events[..|events| - 1]) + if Announces(events[|events| - 1]) then 1 else 0
  }

  ghost function Failures(events: seq<Event>): nat {
    if events == [] then 0 else Failures(events[..|events| - 1]) + if Fails(events[|events| - 1]) then 1 else 0
  }

  /** The error last reported: a timeout reports none, and does not clear one. */
  ghost function LastError(events: seq<Event>): Option<string> {
    if events == [] then None
    else
      match events[|events| - 1]
      case BeforeAnnounceFails(_, message, _) => Some(message)
      case AnnounceSettles(_, OtherError(message), _) => Some(message)
      case _ => LastError(events[..|events| - 1])
  }

  /** The time stamp of the last announcement that was stored. */
  ghost function LastStored(events: seq<Event>): Option<int> {
    if events == [] then None
    else if Announces(events[|events| - 1]) then Some(events[|events| - 1].put.timestamp)
    else LastStored(events[..|events| - 1])
  }

  /** What `getStats` reports, read off the events: the puts that were stored, the failures, the last of each. */
  lemma {:induction false} StatsAreExact(states: seq<State>, events: seq<Event>, start: int, interval: int, k: nat)
    requires IsRun(states, events, start, interval) && k < |states|
    ensures states[k].stats
         == Stats(Announcements(events[..k]), Failures(events[..k]), LastStored(events[..k]), LastError(events[..k]))
  {
    if k > 0 {
      StatsAreExact(states, events, start, interval, k - 1);
      assert events[..k][..k - 1] == events[..k - 1] && events[..k][k - 1] == events[k - 1];
      assert Enabled(states[k - 1], events[k - 1]) && states[k] == After(states[k - 1], events[k - 1], interval);
    }
  }

  lemma {:induction false} AtMostTwo(tasks: seq<Task>)
    ensures Count(tasks, InFlight) <= Count(tasks, FirstPath) + Count(tasks, TimerChain)
  {
    if tasks != [] {
      AtMostTwo(tasks[1..]);
    }
  }

  /** There is never more than one timer-chain token, and exactly one until `stop`. */
  lemma OneTimerChain(states: seq<State>, events: seq<Event>, start: int, interval: int, k: nat)
    requires IsRun(states, events, start, interval) && k < |states|
    ensures Count(states[k].tasks, TimerChain) <= 1
    ensures states[k].running ==> Count(states[k].tasks, TimerChain) == 1
  {
    InvAlways(states, events, start, interval, k);
  }

  /** Chain emissions start at least an interval apart. */
  lemma EmissionsAreSpaced(states: seq<State>, events: seq<Event>, start: int, interval: int, k: nat)
    requires IsRun(states, events, start, interval) && k < |states|
    ensures Spaced(states[k].chainStarts, interval)
  {
    InvAlways(states, events, start, interval, k);
  }

  lemma StoppedStep(s: State, e: Event, interval: int)
    requires !s.running && Enabled(s, e)
    ensures var s' := After(s, e, interval);
      !s'.running && s'.started + Count(s'.tasks, Pending) <= s.started + Count(s.tasks, Pending)
  {
    var s' := After(s, e, interval);
    if !e.Stop? {
      Recount(s, e.i, if e.MetricsReady? then s'.tasks[e.i]
              else Emission(Chain, if e.Fire? then AwaitMetrics else Finished));
      if e.Reschedule? {
        assert s'.tasks == Without(s.tasks, e.i);
      }
    }
  }

  lemma {:induction false} StoppedRun(states: seq<State>, events: seq<Event>, start: int, interval: int, j: nat, k: nat)
    requires IsRun(states, events, start, interval) && j <= k < |states| && !states[j].running
    ensures !states[k].running
    ensures states[k].started + Count(states[k].tasks, Pending) <= states[j].started + Count(states[j].tasks, Pending)
    decreases k
  {
    if j < k {
      StoppedRun(states, events, start, interval, j, k - 1);
      StoppedStep(states[k - 1], events[k - 1], interval);
    }
  }

  lemma {:induction false} PendingIsChain(tasks: seq<Task>)
    ensures Count(tasks, Pending) <= Count(tasks, TimerChain)
  {
    if tasks != [] {
      PendingIsChain(tasks[1..]);
    }
  }

  /** `stop` is final, and at most one emission starts after it: the timer already pending. */
  lemma AtMostOneStartAfterStop(states: seq<State>, events: seq<Event>, start: int, interval: int, j: nat, k: nat)
    requires IsRun(states, events, start, interval) && j <= k < |states| && !states[j].running
    ensures !states[k].running
    ensures states[k].started <= states[j].started + 1
    ensures Count(states[j].tasks, Pending) == 0 ==> states[k].started <= states[j].started
  {
    InvAlways(states, events, start, interval, j);
    PendingIsChain(states[j].tasks);
    StoppedRun(states, events, start, interval, j, k);
  }

  // ---- The emitter ----

  class Emitter {
    const intervalMs: int
    var running: bool
    var sequence: nat
    var lastAnnounceMs: int
    var stats: Stats
    var tasks: seq<Task>
    ghost var passed: seq<nat>
    ghost var started: nat
    ghost var completed: nat
    ghost var chainStarts: seq<int>
    ghost var clock: int

    ghost function Now(): State
      reads this
    {
      State(running, sequence, lastAnnounceMs, stats, tasks, passed, started, completed, chainStarts, clock)
    }

    constructor (intervalMs: int, now: int)
      ensures this.intervalMs == intervalMs && Now() == Created(now, intervalMs)
      ensures running && sequence == 0 && stats == Stats(0, 0, None, None)
      ensures tasks == [Emission(First, AwaitMetrics), Timer(if now < intervalMs then intervalMs else now)]
    {
      this.intervalMs := intervalMs;
      running, sequence, lastAnnounceMs, stats := true, 0, 0, Stats(0, 0, None, None);
      tasks, passed, started, completed, chainStarts, clock := [Emission(First, AwaitMetrics)], [], 1, 0, [], now;
      new;
      ScheduleNext(now);
    }

    method ScheduleNext(now: int)
      modifies this`tasks
      ensures tasks == old(tasks) + if running then [Timer(NextDue(now, lastAnnounceMs, intervalMs))] else []
      ensures running ==>
        tasks == old(tasks) + [Timer(if now < lastAnnounceMs + intervalMs then lastAnnounceMs + intervalMs else now)]
    {
      if !running {
        return;
      }
      var elapsed := now - lastAnnounceMs;
      var delayMs := if intervalMs - elapsed < 0 then 0 else intervalMs - elapsed;
      tasks := tasks + [Timer(now + delayMs)];
    }

    /** A due timer's callback enters `emitHeartbeat` and suspends in `getMetrics`. */
    method FireTimer(i: nat, now: int)
      requires Enabled(Now(), Fire(i, now))
      modifies this
      ensures Now() == After(old(Now()), Fire(i, now), intervalMs)
      ensures tasks == old(tasks)[i := Emission(Chain, AwaitMetrics)] && stats == old(stats)
          && sequence == old(sequence)
    {
      tasks := tasks[i := Emission(Chain, AwaitMetrics)];
      started, chainStarts, clock := started + 1, chainStarts + [now], now;
    }

    /** Metrics and status are in: take a number and suspend in `announceHeartbeat`. */
    method Announce(i: nat)
      requires Enabled(Now(), MetricsReady(i))
      modifies this
      ensures Now() == After(old(Now()), MetricsReady(i), intervalMs)
      ensures sequence == old(sequence) + 1 && stats == old(stats)
      ensures tasks == old(tasks)[i := Emission(old(tasks)[i].entry, AwaitAnnounce(old(sequence)))]
    {
      var number := sequence;
      sequence := sequence + 1;
      passed := passed + [number];
      tasks := tasks[i := Emission(tasks[i].entry, AwaitAnnounce(number))];
    }

    /** The lines after the try block, common to every way out of it. */
    method Finish(i: nat, now: int)
      requires i < |tasks| && tasks[i].Emission?
      modifies this
      ensures Now() == Complete(old(Now()), i, stats, now) && stats == old(stats) && lastAnnounceMs == now
      ensures if old(tasks)[i].entry == First then tasks == old(tasks)[..i] + old(tasks)[i + 1..]
              else tasks == old(tasks)[i := Emission(Chain, Finished)]
    {
      lastAnnounceMs := now;
      tasks := if tasks[i].entry == First then Without(tasks, i) else tasks[i := Emission(Chain, Finished)];
      completed, clock := completed + 1, now;
    }

    /** `getMetrics` or `getStatus` threw, before any number was taken. */
    method FailBeforeAnnounce(i: nat, message: string, now: int)
      requires Enabled(Now(), BeforeAnnounceFails(i, message, now))
      modifies this
      ensures Now() == After(old(Now()), BeforeAnnounceFails(i, message, now), intervalMs)
      ensures stats == old(stats).(failed := old(stats).failed + 1, lastError := Some(message)) && lastAnnounceMs == now
    {
      stats := stats.(failed := stats.failed + 1, lastError := Some(message));
      Finish(i, now);
    }

    method Settle(i: nat, put: Put, now: int)
      requires Enabled(Now(), AnnounceSettles(i, put, now))
      modifies this
      ensures Now() == After(old(Now()), AnnounceSettles(i, put, now), intervalMs)
      ensures stats.announced == old(stats).announced + (if put.Stored? then 1 else 0)
      ensures stats.failed == old(stats).failed + (if put.Stored? then 0 else 1)
      ensures stats.lastAnnounceAt == if put.Stored? then Some(put.timestamp) else old(stats).lastAnnounceAt
      ensures stats.lastError == if put.OtherError? then Some(put.message) else old(stats).lastError
      ensures lastAnnounceMs == now
    {
      match put {
        case Stored(timestamp) => stats := stats.(announced := stats.announced + 1, lastAnnounceAt := Some(timestamp));
        case AbortError => stats := stats.(failed := stats.failed + 1);
        case TimeoutError => stats := stats.(failed := stats.failed + 1);
        case OtherError(message) => stats := stats.(failed := stats.failed + 1, lastError := Some(message));
      }
      Finish(i, now);
    }

    /** The timer callback's last line. */
    method ChainNext(i: nat, now: int)
      requires Enabled(Now(), Reschedule(i, now))
      modifies this
      ensures Now() == After(old(Now()), Reschedule(i, now), intervalMs)
      ensures stats == old(stats) && sequence == old(sequence)
    {
      clock := now;
      tasks := Without(tasks, i);
      ScheduleNext(now);
    }

    method StopEmitter()
      modifies this
      ensures Now() == After(old(Now()), Stop, intervalMs)
      ensures !running && tasks == old(tasks) && stats == old(stats)
    {
      running := false;
    }
  }
}
