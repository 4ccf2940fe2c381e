/** ops/burst.py, `extend`, `teardown` and `reap`: the active records and what is done to the pods. */
module BurstLifecycle {
  import opened Ids
  import opened Options

  /** The deadline, and whether a rented volume, a tunnel port and the pod's password are on the record. */
  datatype Record = Record(deadline: int, volume: bool, port: bool, password: bool)

  /** What --job-id finds in the task spec: no volume (nor without it), or one, with the password or not. */
  datatype Recovery = NoVolume | Volume(password: bool)

  /** A record without a volume takes the one found, and with it a password it lacks. */
  function Completed(record: Record, recovery: Recovery): Record {
    if record.volume || recovery.NoVolume? then record
    else record.(volume := true, password := record.password || recovery.password)
  }

  predicate Saves(record: Record, recovery: Recovery) {
    var st := Completed(record, recovery);
    st.volume && st.port && st.password
  }

  /**
   * There is something to save by: a port, and a volume and the password, both on the record or, where it has
   * no volume, the volume in the task spec and the password in either.
   */
  ghost predicate Savable(record: Record, recovery: Recovery) {
    record.port && if record.volume then record.password else recovery.Volume? && (record.password || recovery.password)
  }

  /** What the outside saw, in order. */
  datatype Note = Snapshot(pod: PodId) | DeleteIssued(pod: PodId) | Reaped(pod: PodId, now: int)

  datatype World = World(active: map<PodId, Record>, log: seq<Note>)

  const NOTHING: World := World(map[], [])

  /**
   * Steps that do not overlap. `lost`: the DELETE raised something other than SystemExit, so the
   * rest of the teardown did not happen. `removed`: the record's file went away.
   */
  datatype Step =
    | Launched(pod: PodId, now: int, duration: int, volume: bool, port: bool, password: bool)
    | Extend(pod: PodId, now: int, add: int)
    | Teardown(pod: PodId, recovery: Recovery, lost: bool, removed: bool)
    | ReapOne(pod: PodId, now: int, lost: bool, removed: bool)

  function Max(a: int, b: int): int {
    if a < b then b else a
  }

  function Extended(record: Record, now: int, add: int): Record {
    record.(deadline := Max(record.deadline, now) + add)
  }

  /** `teardown`: snapshot if there is a record to snapshot by, then DELETE, then drop the record. */
  function TornDown(w: World, pod: PodId, recovery: Recovery, lost: bool, removed: bool): World {
    var snapshot := if pod in w.active && Saves(w.active[pod], recovery) then [Snapshot(pod)] else [];
    World(if !lost && removed then w.active - {pod} else w.active, w.log + snapshot + [DeleteIssued(pod)])
  }

  predicate Possible(w: World, step: Step) {
    match step
    case Launched(pod, _, _, _, _, _) => pod !in w.active && forall note <- w.log :: note.pod != pod
    case Extend(pod, _, _) => true
    case Teardown(pod, _, _, _) => true
    case ReapOne(pod, now, _, _) => pod in w.active && now > w.active[pod].deadline
  }

  function After(w: World, step: Step): World {
    match step
    case Launched(pod, now, duration, volume, port, password) =>
      w.(active := w.active[pod := Record(now + duration, volume, port, password)])
    case Extend(pod, now, add) =>
      if pod in w.active then w.(active := w.active[pod := Extended(w.active[pod], now, add)]) else w
    case Teardown(pod, recovery, lost, removed) => TornDown(w, pod, recovery, lost, removed)
    case ReapOne(pod, now, lost, removed) =>
      TornDown(w.(log := w.log + [Reaped(pod, now)]), pod, NoVolume, lost, removed)
  }

  function Run(steps: seq<Step>): World {
    if steps == [] then NOTHING else After(Run(steps[..|steps| - 1]), steps[|steps| - 1])
  }

  predicate Legal(steps: seq<Step>) {
    steps != [] ==> Legal(steps[..|steps| - 1]) && Possible(Run(steps[..|steps| - 1]), steps[|steps| - 1])
  }

  // ---- The code, over the records it mutates ----

  class ActivePods {
    var active: map<PodId, Record>
    var log: seq<Note>

    constructor ()
      ensures State() == NOTHING
    {
      active, log := map[], [];
    }

    function State(): World
      reads this
    {
      World(active, log)
    }

    method ExtendPod(pod: PodId, now: int, add: int) returns (raised: bool)
      modifies this
      ensures raised <==> pod !in old(active)
      ensures State() == After(old(State()), Extend(pod, now, add))
      ensures log == old(log) && active.Keys == old(active).Keys
      ensures forall other <- active :: other != pod ==> active[other] == old(active)[other]
      ensures !raised ==>
        var was := old(active)[pod];
        active[pod] == was.(deadline := (if was.deadline < now then now else was.deadline) + add)
    {
      if pod !in active {
        return true;
      }
      var record := active[pod];
      var from := if record.deadline >= now then record.deadline else now;
      active := active[pod := record.(deadline := from + add)];
      raised := false;
    }

    method TeardownPod(pod: PodId, recovery: Recovery, lost: bool, removed: bool) returns (raised: bool)
      modifies this
      ensures raised <==> lost
      ensures State() == TornDown(old(State()), pod, recovery, lost, removed)
      ensures var saves := pod in old(active) && Savable(old(active)[pod], recovery);
        log == old(log) + (if saves then [Snapshot(pod)] else []) + [DeleteIssued(pod)]
      ensures active == if lost || !removed then old(active) else old(active) - {pod}
    {
      if pod in active {
        var st := active[pod];
        if !st.volume && recovery.Volume? {
          st := st.(volume := true);
          if !st.password && recovery.password {
            st := st.(password := true);
          }
        }
        if st.volume && st.port && st.password {
          log := log + [Snapshot(pod)];
        }
      }
      log := log + [DeleteIssued(pod)];
      if lost {
        return true;
      }
      if removed {
        active := active - {pod};
      }
      raised := false;
    }

    /** The loop body for a pod past its deadline: the teardown, which reads the record itself. */
    method ReapPod(pod: PodId, now: int, lost: bool, removed: bool) returns (raised: bool)
      modifies this
      ensures raised <==> lost
      ensures State() == After(old(State()), ReapOne(pod, now, lost, removed))
      ensures var saves := pod in old(active) && Savable(old(active)[pod], NoVolume);
        log == old(log) + [Reaped(pod, now)] + (if saves then [Snapshot(pod)] else []) + [DeleteIssued(pod)]
      ensures active == if lost || !removed then old(active) else old(active) - {pod}
    {
      log := log + [Reaped(pod, now)];
      raised := TeardownPod(pod, NoVolume, lost, removed);
    }

    /**
     * `reap` over a directory listing. `lost` and `removable` are the pods whose DELETE raises and whose file
     * can be removed; an error out of one teardown ends the loop there.
     */
    method Reap(listing: seq<PodId>, now: int, lost: set<PodId>, removable: set<PodId>)
      returns (tried: seq<PodId>, raised: bool)
      requires forall i, j :: 0 <= i < j < |listing| ==> listing[i] != listing[j]
      requires forall pod <- listing :: pod in active
      modifies this
      ensures tried <= Due(old(active), listing, now) && State() == ReapedAll(old(State()), tried, now, lost, removable)
      ensures forall k :: 0 <= k < |tried| ==> (tried[k] in lost <==> raised && k == |tried| - 1)
      ensures if raised then tried != [] else tried == Due(old(active), listing, now)
    {
      hide After;
      tried, raised := [], false;
      ghost var start := State();
      for i := 0 to |listing|
        invariant !raised && tried == Due(start.active, listing[..i], now)
        invariant forall pod <- tried :: pod in listing[..i] && pod !in lost
        invariant State() == ReapedAll(start, tried, now, lost, removable)
      {
        var pod := listing[i];
        DueSnoc(start.active, listing[..i], pod, now);
        assert listing[..i + 1] == listing[..i] + [pod];
        ReapedAllActive(start, tried, now, lost, removable);
        assert pod !in tried;
        if now > active[pod].deadline {
          ReapedAllSnoc(start, tried, pod, now, lost, removable);
          raised := ReapPod(pod, now, pod in lost, pod in removable);
          tried := tried + [pod];
          if raised {
            DuePrefix(start.active, listing, now, i + 1);
            return;
          }
        }
      }
      assert listing[..|listing|] == listing;
    }
  }

  /** Tearing pods down drops the records of those whose teardown ran to its end, and no others. */
  lemma {:induction false} ReapedAllActive(w: World, pods: seq<PodId>, now: int, lost: set<PodId>,
                                           removable: set<PodId>)
    ensures ReapedAll(w, pods, now, lost, removable).active == w.active - ((set pod | pod in pods) * removable - lost)
  {
    if pods != [] {
      var init, pod := pods[..|pods| - 1], pods[|pods| - 1];
      ReapedAllActive(w, init, now, lost, removable);
      assert pods == init + [pod];
    }
  }

  lemma DueSnoc(active: map<PodId, Record>, listing: seq<PodId>, pod: PodId, now: int)
    requires (forall p <- listing :: p in active) && pod in active
    ensures forall p <- listing + [pod] :: p in active
    ensures Due(active, listing + [pod], now)
         == Due(active, listing, now) + if now > active[pod].deadline then [pod] else []
  {
    assert (listing + [pod])[..|listing|] == listing;
  }

  lemma ReapedAllSnoc(w: World, pods: seq<PodId>, pod: PodId, now: int, lost: set<PodId>, removable: set<PodId>)
    ensures ReapedAll(w, pods + [pod], now, lost, removable)
         == After(ReapedAll(w, pods, now, lost, removable), ReapOne(pod, now, pod in lost, pod in removable))
  {
    assert (pods + [pod])[..|pods|] == pods;
  }

  /** The listed pods whose deadline has passed. */
  function Due(active: map<PodId, Record>, listing: seq<PodId>, now: int): seq<PodId>
    requires forall pod <- listing :: pod in active
  {
    if listing == [] then []
    else
      var rest, last := Due(active, listing[..|listing| - 1], now), listing[|listing| - 1];
      if now > active[last].deadline then rest + [last] else rest
  }

  /** Due is past the deadline: exactly those listed pods, each once. */
  lemma {:induction false} DueIff(active: map<PodId, Record>, listing: seq<PodId>, now: int, pod: PodId)
    requires forall p <- listing :: p in active
    requires forall i, j :: 0 <= i < j < |listing| ==> listing[i] != listing[j]
    ensures pod in Due(active, listing, now) <==> pod in listing && now > active[pod].deadline
    ensures var due := Due(active, listing, now); forall i, j :: 0 <= i < j < |due| ==> due[i] != due[j]
  {
    if listing != [] {
      var init, last := listing[..|listing| - 1], listing[|listing| - 1];
      DueIff(active, init, now, pod);
      DueIff(active, init, now, last);
      assert listing == init + [last];
    }
  }

  lemma {:induction false} DuePrefix(active: map<PodId, Record>, listing: seq<PodId>, now: int, n: nat)
    requires n <= |listing| && forall pod <- listing :: pod in active
    ensures Due(active, listing[..n], now) <= Due(active, listing, now)
  {
    if n < |listing| {
      var init := listing[..|listing| - 1];
      assert init[..n] == listing[..n];
      DuePrefix(active, init, now, n);
    } else {
      assert listing[..n] == listing;
    }
  }

  function ReapedAll(w: World, pods: seq<PodId>, now: int, lost: set<PodId>, removable: set<PodId>): World {
    if pods == [] then w
    else
      var pod := pods[|pods| - 1];
      After(ReapedAll(w, pods[..|pods| - 1], now, lost, removable), ReapOne(pod, now, pod in lost, pod in removable))
  }

  // ---- Deadlines ----

  /** A pod's first deadline plus every extension it was granted. */
  function Granted(steps: seq<Step>, pod: PodId): int {
    if steps == [] then 0
    else
      var before := Granted(steps[..|steps| - 1], pod);
      match steps[|steps| - 1]
      case Launched(p, now, duration, _, _, _) => if p == pod then now + duration else before
      case Extend(p, _, add) => if p == pod && pod in Run(steps[..|steps| - 1]).active then before + add else before
      case _ => before
  }

  lemma {:induction false} DeadlineCoversGrants(steps: seq<Step>, pod: PodId)
    requires Legal(steps) && pod in Run(steps).active
    ensures Run(steps).active[pod].deadline >= Granted(steps, pod)
  {
    if steps != [] {
      var init := steps[..|steps| - 1];
      if pod in Run(init).active {
        DeadlineCoversGrants(init, pod);
      }
    }
  }

  /** No extension of the pod came after its deadline. */
  ghost predicate InTime(steps: seq<Step>, pod: PodId) {
    steps != [] ==>
      var init, last := steps[..|steps| - 1], steps[|steps| - 1];
      InTime(init, pod)
      && (last.Extend? && last.pod == pod && pod in Run(init).active ==> last.now <= Run(init).active[pod].deadline)
  }

  /** Then the deadline is exactly that. */
  lemma {:induction false} DeadlineIsGrants(steps: seq<Step>, pod: PodId)
    requires Legal(steps) && pod in Run(steps).active && InTime(steps, pod)
    ensures Run(steps).active[pod].deadline == Granted(steps, pod)
  {
    if steps != [] {
      var init := steps[..|steps| - 1];
      if pod in Run(init).active {
        DeadlineIsGrants(init, pod);
      }
    }
  }

  /** A pod is only ever reaped after its first deadline plus all its extensions, whatever their signs. */
  lemma NeverReapedEarly(steps: seq<Step>, pod: PodId, now: int, lost: bool, removed: bool)
    requires Legal(steps) && Possible(Run(steps), ReapOne(pod, now, lost, removed))
    ensures now > Granted(steps, pod)
  {
    DeadlineCoversGrants(steps, pod);
  }

  // ---- Snapshots ----

  predicate IsTeardown(step: Step, pod: PodId) {
    (step.Teardown? || step.ReapOne?) && step.pod == pod
  }

  /** No snapshot follows a snapshot or a DELETE of the same pod: there is at most one, and it comes first. */
  predicate SnapshotFirst(log: seq<Note>, pod: PodId) {
    forall i, j :: 0 <= i < j < |log| && log[j] == Snapshot(pod)
      ==> log[i] != Snapshot(pod) && log[i] != DeleteIssued(pod)
  }

  predicate Untouched(log: seq<Note>, pod: PodId) {
    forall i :: 0 <= i < |log| ==> log[i] != Snapshot(pod) && log[i] != DeleteIssued(pod)
  }

  /** The step is a teardown that leaves the pod's record: its DELETE raised, or the file did not go away. */
  predicate LeavesRecord(step: Step, pod: PodId) {
    IsTeardown(step, pod) && (step.lost || !step.removed)
  }

  /** How the pod was launched. */
  function LaunchOf(steps: seq<Step>, pod: PodId): Option<Record> {
    if steps == [] then None
    else
      match steps[|steps| - 1]
      case Launched(p, now, duration, volume, port, password) =>
        if p == pod then Some(Record(now + duration, volume, port, password)) else LaunchOf(steps[..|steps| - 1], pod)
      case _ => LaunchOf(steps[..|steps| - 1], pod)
  }

  predicate Torn(steps: seq<Step>, pod: PodId) {
    exists i :: 0 <= i < |steps| && IsTeardown(steps[i], pod)
  }

  predicate RecordLeft(steps: seq<Step>, pod: PodId) {
    forall i :: 0 <= i < |steps| && IsTeardown(steps[i], pod) ==> LeavesRecord(steps[i], pod)
  }

  /** What a teardown finds through --job-id; a reap does not look. */
  function RecoveryOf(step: Step): Recovery {
    if step.Teardown? then step.recovery else NoVolume
  }

  /**
   * After these steps this one would save the workspace again: it is a teardown of a pod torn down before, all
   * of whose teardowns so far left the record, and what it was launched with, completed by what is found now,
   * is enough to save by.
   */
  predicate SavesAgainAt(before: seq<Step>, step: Step, pod: PodId) {
    && IsTeardown(step, pod) && Torn(before, pod) && RecordLeft(before, pod)
    && var launch := LaunchOf(before, pod);
    && launch.Some? && Saves(launch.value, RecoveryOf(step))
  }

  predicate SavesAgain(steps: seq<Step>, pod: PodId) {
    exists j :: 0 <= j < |steps| && SavesAgainAt(steps[..j], steps[j], pod)
  }

  lemma TornSnoc(init: seq<Step>, last: Step, pod: PodId)
    ensures Torn(init + [last], pod) <==> Torn(init, pod) || IsTeardown(last, pod)
    ensures RecordLeft(init + [last], pod)
        <==> RecordLeft(init, pod) && (IsTeardown(last, pod) ==> LeavesRecord(last, pod))
  {
    var steps := init + [last];
    assert steps[|init|] == last && forall i :: 0 <= i < |init| ==> steps[i] == init[i];
  }

  lemma SavesAgainSnoc(init: seq<Step>, last: Step, pod: PodId)
    ensures SavesAgain(init + [last], pod) <==> SavesAgain(init, pod) || SavesAgainAt(init, last, pod)
  {
    hide SavesAgainAt;
    var steps := init + [last];
    assert steps[|init|] == last && steps[..|init|] == init;
    assert forall j :: 0 <= j < |init| ==> steps[j] == init[j] && steps[..j] == init[..j];
  }

  /** The pod has a record exactly if it was launched and every teardown left it; the record is the launch's. */
  ghost predicate RecordAgrees(w: World, steps: seq<Step>, pod: PodId) {
    var launch := LaunchOf(steps, pod);
    && (pod in w.active <==> launch.Some? && RecordLeft(steps, pod))
    && (pod in w.active ==> w.active[pod] == launch.value.(deadline := w.active[pod].deadline))
  }

  /** The log shows the pod touched exactly if it was torn down, and in order exactly if nothing saved it again. */
  ghost predicate LogAgrees(w: World, steps: seq<Step>, pod: PodId) {
    && (Untouched(w.log, pod) <==> !Torn(steps, pod))
    && (SnapshotFirst(w.log, pod) <==> !SavesAgain(steps, pod))
  }

  ghost predicate Agrees(steps: seq<Step>, pod: PodId) {
    var holds := RecordAgrees(Run(steps), steps, pod) && LogAgrees(Run(steps), steps, pod);
    holds
  }

  lemma OtherNotes(log: seq<Note>, more: seq<Note>, pod: PodId)
    requires forall note <- more :: note.pod != pod
    ensures Untouched(log + more, pod) <==> Untouched(log, pod)
    ensures SnapshotFirst(log + more, pod) <==> SnapshotFirst(log, pod)
  {
    var all := log + more;
    assert forall i :: 0 <= i < |log| ==> all[i] == log[i];
    assert forall i :: |log| <= i < |all| ==> all[i] == more[i - |log|] && all[i] in more;
  }

  /** A teardown's own notes: the order is kept exactly if it saved nothing or came first. */
  lemma TeardownNotes(log: seq<Note>, pod: PodId, saved: bool)
    ensures var all := log + (if saved then [Snapshot(pod)] else []) + [DeleteIssued(pod)];
      !Untouched(all, pod) && (SnapshotFirst(all, pod) <==> SnapshotFirst(log, pod) && (saved ==> Untouched(log, pod)))
  {
    var all := log + (if saved then [Snapshot(pod)] else []) + [DeleteIssued(pod)];
    assert all[|all| - 1] == DeleteIssued(pod);
    assert forall i :: 0 <= i < |log| ==> all[i] == log[i];
    if saved {
      assert all[|log|] == Snapshot(pod);
    }
  }

  /** The notes a step adds about this pod, and whether it saves its workspace. */
  lemma StepNotes(w: World, step: Step, pod: PodId)
    ensures var saves := IsTeardown(step, pod) && pod in w.active && Saves(w.active[pod], RecoveryOf(step));
      && (Untouched(After(w, step).log, pod) <==> Untouched(w.log, pod) && !IsTeardown(step, pod))
      && (SnapshotFirst(After(w, step).log, pod) <==> SnapshotFirst(w.log, pod) && (saves ==> Untouched(w.log, pod)))
  {
    var saves := IsTeardown(step, pod) && pod in w.active && Saves(w.active[pod], RecoveryOf(step));
    if IsTeardown(step, pod) {
      var reaped := if step.ReapOne? then [Reaped(pod, step.now)] else [];
      ReapedNote(w.log, reaped, pod);
      TeardownNotes(w.log + reaped, pod, saves);
      assert w.log + [] == w.log;
    } else if step.Teardown? || step.ReapOne? {
      var more := After(w, step).log[|w.log|..];
      assert After(w, step).log == w.log + more;
      OtherNotes(w.log, more, pod);
    }
  }

  lemma ReapedNote(log: seq<Note>, reaped: seq<Note>, pod: PodId)
    requires reaped == [] || (exists now :: reaped == [Reaped(pod, now)])
    ensures Untouched(log + reaped, pod) <==> Untouched(log, pod)
    ensures SnapshotFirst(log + reaped, pod) <==> SnapshotFirst(log, pod)
  {
    assert forall i :: 0 <= i < |log| ==> (log + reaped)[i] == log[i];
  }

  /** A launch finds its pod with no record and no notes. */
  lemma LaunchIsFirst(w: World, step: Step)
    requires step.Launched? && Possible(w, step)
    ensures step.pod !in w.active && Untouched(w.log, step.pod)
  {
    forall i | 0 <= i < |w.log|
      ensures w.log[i] != Snapshot(step.pod) && w.log[i] != DeleteIssued(step.pod)
    {
      assert w.log[i] in w.log;
    }
  }

  lemma RecordStep(init: seq<Step>, last: Step, pod: PodId)
    requires Possible(Run(init), last) && RecordAgrees(Run(init), init, pod) && LogAgrees(Run(init), init, pod)
    ensures RecordAgrees(After(Run(init), last), init + [last], pod)
  {
    var steps := init + [last];
    assert steps[..|steps| - 1] == init && steps[|steps| - 1] == last;
    TornSnoc(init, last, pod);
    if last.Launched? && last.pod == pod {
      LaunchIsFirst(Run(init), last);
      UntornLeftRecord(init, pod);
    }
    hide Untouched, SnapshotFirst, SavesAgain, Torn, RecordLeft, Run;
  }

  lemma UntornLeftRecord(steps: seq<Step>, pod: PodId)
    requires !Torn(steps, pod)
    ensures RecordLeft(steps, pod)
  {
  }

  lemma LogStep(init: seq<Step>, last: Step, pod: PodId)
    requires RecordAgrees(Run(init), init, pod) && LogAgrees(Run(init), init, pod)
    ensures LogAgrees(After(Run(init), last), init + [last], pod)
  {
    TornSnoc(init, last, pod);
    SavesAgainSnoc(init, last, pod);
    StepNotes(Run(init), last, pod);
    hide Untouched, SnapshotFirst, SavesAgain, Torn, RecordLeft, Run, After, LaunchOf;
  }

  lemma AgreesStep(init: seq<Step>, last: Step, pod: PodId)
    requires Possible(Run(init), last) && Agrees(init, pod)
    ensures Agrees(init + [last], pod)
  {
    var steps := init + [last];
    assert steps[..|steps| - 1] == init && Run(steps) == After(Run(init), last);
    RecordStep(init, last, pod);
    LogStep(init, last, pod);
  }

  lemma {:induction false} StepsAgree(steps: seq<Step>, pod: PodId)
    requires Legal(steps)
    ensures Agrees(steps, pod)
  {
    if steps != [] {
      var init, last := steps[..|steps| - 1], steps[|steps| - 1];
      assert steps == init + [last];
      StepsAgree(init, pod);
      AgreesStep(init, last, pod);
    }
  }

  /**
   * Exactly when a pod's workspace is snapshotted at most once and never after its DELETE was issued, read off
   * the steps alone: no teardown comes after one or more others that all left the record and could save again.
   */
  lemma SnapshotOnceIff(steps: seq<Step>, pod: PodId)
    requires Legal(steps)
    ensures SnapshotFirst(Run(steps).log, pod) <==> !SavesAgain(steps, pod)
  {
    StepsAgree(steps, pod);
  }

  /** Teardowns of this pod ran to their end, and its record then went away. */
  predicate RunsOut(step: Step, pod: PodId) {
    IsTeardown(step, pod) ==> !LeavesRecord(step, pod)
  }

  /** In particular where every teardown of the pod is answered and its record then goes away. */
  lemma SnapshotOnceBeforeDelete(steps: seq<Step>, pod: PodId)
    requires Legal(steps) && forall step <- steps :: RunsOut(step, pod)
    ensures SnapshotFirst(Run(steps).log, pod) && (pod in Run(steps).active ==> Untouched(Run(steps).log, pod))
  {
    SnapshotOnceIff(steps, pod);
    StepsAgree(steps, pod);
    assert forall i :: 0 <= i < |steps| ==> RunsOut(steps[i], pod);
    forall j | 0 <= j < |steps|
      ensures !SavesAgainAt(steps[..j], steps[j], pod)
    {
      assert forall i :: 0 <= i < j ==> steps[..j][i] == steps[i];
    }
  }

  /**
   * Two ways to leave the record, and what the next teardown then does: whatever pod could be saved by its
   * record and the task spec is saved twice.
   */
  lemma LeftRecordSnapshotsAgain(pod: PodId, launch: Record, recovery: Recovery, lost: bool, removed: bool)
    requires (lost || !removed) && Saves(launch, recovery)
    ensures var steps := [Launched(pod, 0, launch.deadline, launch.volume, launch.port, launch.password),
                          Teardown(pod, recovery, lost, removed), Teardown(pod, recovery, false, true)];
            Legal(steps) && Run(steps).log == [Snapshot(pod), DeleteIssued(pod), Snapshot(pod), DeleteIssued(pod)]
  {
    var first := Launched(pod, 0, launch.deadline, launch.volume, launch.port, launch.password);
    var a := [first];
    var b := a + [Teardown(pod, recovery, lost, removed)];
    var c := b + [Teardown(pod, recovery, false, true)];
    assert a[..0] == [] && b[..1] == a && c[..2] == b;
    assert Run([]) == NOTHING && Legal([]);
    assert Legal(a);
    assert Run(a).log == [] && Run(a).active == map[pod := launch];
    assert Run(b).log == [Snapshot(pod), DeleteIssued(pod)] && Run(b).active == map[pod := launch];
    assert Legal(b) && Legal(c);
    assert c == [first, Teardown(pod, recovery, lost, removed), Teardown(pod, recovery, false, true)];
  }

  /** So is one whose record has a port alone, where the task spec has the volume and the password. */
  lemma OldRecordSnapshotsAgain(pod: PodId)
    ensures var steps := [Launched(pod, 0, 10, false, true, false),
                          Teardown(pod, Volume(true), true, true), Teardown(pod, Volume(true), false, true)];
            Legal(steps) && !SnapshotFirst(Run(steps).log, pod)
  {
    LeftRecordSnapshotsAgain(pod, Record(10, false, true, false), Volume(true), true, true);
    var log := [Snapshot(pod), DeleteIssued(pod), Snapshot(pod), DeleteIssued(pod)];
    assert log[0] == Snapshot(pod) && log[2] == Snapshot(pod);
  }
}
