/**
 * ops/burst.py, `launch` for a job: everything outside the program is a scripted reply, and any of
 * them may fail.
 */
module BurstLaunch {
  import opened Ids
  import opened Options
  import opened Ledger

  /**
   * A create request: answered with a pod or without one, refused (SystemExit), or its reply lost. Whatever
   * but the first comes back, there may be a pod all the same.
   */
  datatype CreateReply =
    | Created(pod: PodId) | NoPod(orphan: Option<PodId>) | CreateRefused(orphan: Option<PodId>)
    | CreateLost(orphan: Option<PodId>)

  /** A pod DELETE: done, refused (SystemExit, the pod stays), or its reply lost (any other exception). */
  datatype DeleteReply = Deleted | DeleteRefused | DeleteLost(gone: bool)

  /** The outside world's replies, in the order one launch may ask for them. */
  datatype Script = Script(
    prepared: bool,              // the init script and the availability query
    creates: seq<CreateReply>,   // one per create attempt
    polls: seq<bool>,            // is the tunnel up, every ten seconds
    giveUp: DeleteReply,         // the DELETE after the last poll
    relays: bool,                // starting the relays and restoring the workspace
    record: bool,                // writing the active record
    jobWrite: bool,              // job_success commits
    undo: DeleteReply,           // the DELETE after a failed job_success
    undoRest: bool,              // the rest of that teardown
    failWrite: bool,             // the first job_fail commits
    failAgain: bool,             // the second one does, when the first raised inside a handler
    reported: bool)              // printing the result

  predicate Removes(reply: DeleteReply) {
    reply.Deleted? || (reply.DeleteLost? && reply.gone)
  }

  /** How a piece of code ends: normally, with SystemExit, or with another exception. */
  datatype Ending = Normal | Exits | Raises

  datatype Creation = Creation(made: Option<PodId>, orphans: set<PodId>)

  /** The pod a request made. */
  function Born(reply: CreateReply): set<PodId> {
    if reply.Created? then {reply.pod} else if reply.orphan.Some? then {reply.orphan.value} else {}
  }

  /** `create_pod`: the first attempt that yields a pod; a lost reply ends the attempts. */
  function FirstPod(creates: seq<CreateReply>): Creation
    decreases |creates|
  {
    if creates == [] then Creation(None, {})
    else
      match creates[0]
      case Created(pod) => Creation(Some(pod), {})
      case CreateLost(_) => Creation(None, Born(creates[0]))
      case _ => FirstPod(creates[1..]).(orphans := Born(creates[0]) + FirstPod(creates[1..]).orphans)
  }

  /** Where a launch gets to. */
  datatype Stage = NotPrepared | NotCreated | NoTunnel | NoRelays | NoRecord | NotWritten | Unreported | Finished

  function Reached(script: Script): Stage {
    if !script.prepared then NotPrepared
    else if FirstPod(script.creates).made.None? then NotCreated
    else if true !in script.polls then NoTunnel
    else if !script.relays then NoRelays
    else if !script.record then NoRecord
    else if !script.jobWrite then NotWritten
    else if !script.reported then Unreported
    else Finished
  }

  predicate Undone(script: Script) {
    script.undoRest && !script.undo.DeleteLost?
  }

  /** Some `job_fail` of the launch commits. */
  predicate Refunded(script: Script) {
    script.failWrite || (Reached(script).NotWritten? && Undone(script) && script.failAgain)
  }

  /**
   * The launches that come out clean. A pod that no one will tear down is one whose create request did
   * not say so, whose DELETE did not take, or that was up when the relays, the record or the report
   * failed; a job is left un-refunded when the first DELETE is refused or `job_fail` does not commit.
   */
  predicate Benign(script: Script) {
    && (script.prepared ==> FirstPod(script.creates).orphans == {})
    && match Reached(script)
       case NotPrepared => Refunded(script)
       case NotCreated => Refunded(script)
       case NoTunnel => Refunded(script) && Removes(script.giveUp)
       case NoRelays => false
       case NoRecord => false
       case NotWritten => Refunded(script) && Removes(script.undo)
       case Unreported => !Refunded(script)
       case Finished => true
  }

  /** The new pods a launch leaves. */
  function LeftPods(script: Script): set<PodId> {
    var created := FirstPod(script.creates);
    match Reached(script)
    case NotPrepared => {}
    case NotCreated => created.orphans
    case NoTunnel => created.orphans + if Removes(script.giveUp) then {} else {created.made.value}
    case NotWritten => created.orphans + if Removes(script.undo) then {} else {created.made.value}
    case _ => created.orphans + {created.made.value}
  }

  /** The ledger a launch leaves. */
  function LaunchedDb(db: Db, j: JobId, script: Script, jupyterPort: nat, sshPort: nat): Db {
    var first := FirstPod(script.creates);
    var published :=
      if Reached(script) in {Unreported, Finished} then Succeeded(db, j, Access(first.made.value, jupyterPort, sshPort))
      else db;
    if Reached(script).Finished? || (Reached(script).NoTunnel? && script.giveUp.DeleteRefused?) then published
    else if Refunded(script) then FailedDb(published, j)
    else published
  }

  /** The active record of a pod, as far as the launch writes it. */
  datatype ActiveRecord = ActiveRecord(job: JobId, access: Access, deadline: int)

  /** Pods the script brings into being are new, each from one request. */
  ghost predicate FreshPods(script: Script, pods: set<PodId>, active: map<PodId, ActiveRecord>) {
    && (forall r <- script.creates :: Born(r) !! pods && Born(r) !! active.Keys)
    && (forall i, k :: 0 <= i < k < |script.creates| ==> Born(script.creates[i]) !! Born(script.creates[k]))
  }

  lemma {:induction false} FirstPodIsScripted(creates: seq<CreateReply>)
    requires forall i, k :: 0 <= i < k < |creates| ==> Born(creates[i]) !! Born(creates[k])
    ensures FirstPod(creates).made.Some? ==>
      exists r <- creates :: r.Created? && r.pod == FirstPod(creates).made.value
    ensures forall pod <- FirstPod(creates).orphans ::
      exists r <- creates :: pod in Born(r)
    ensures FirstPod(creates).made.Some? ==> FirstPod(creates).made.value !in FirstPod(creates).orphans
    decreases |creates|
  {
    if creates != [] {
      var rest := creates[1..];
      FirstPodIsScripted(rest);
      assert forall r <- rest :: r in creates;
      if !creates[0].Created? && !creates[0].CreateLost? && FirstPod(rest).made.Some? {
        var k :| 0 <= k < |rest| && rest[k].Created? && rest[k].pod == FirstPod(rest).made.value;
        assert creates[k + 1] == rest[k];
      }
    }
  }

  /** The attempts go on past refusals and answers without a pod; what those left behind are the orphans. */
  lemma {:induction false} FirstPodIs(creates: seq<CreateReply>) returns (n: nat)
    ensures n <= |creates| && forall i :: 0 <= i < n ==> creates[i].NoPod? || creates[i].CreateRefused?
    ensures n < |creates| ==> creates[n].Created? || creates[n].CreateLost?
    ensures FirstPod(creates).made == if n < |creates| && creates[n].Created? then Some(creates[n].pod) else None
    ensures forall pod :: pod in FirstPod(creates).orphans <==>
      exists i :: 0 <= i <= n && i < |creates| && !creates[i].Created? && creates[i].orphan == Some(pod)
    decreases |creates|
  {
    if creates == [] || creates[0].Created? {
      n := 0;
    } else if creates[0].CreateLost? {
      n := 0;
      assert forall pod :: pod in FirstPod(creates).orphans ==> creates[0].orphan == Some(pod);
    } else {
      var rest := creates[1..];
      var m := FirstPodIs(rest);
      n := m + 1;
      assert forall i :: 0 <= i < |rest| ==> rest[i] == creates[i + 1];
      forall pod
        ensures pod in FirstPod(creates).orphans <==>
          exists i :: 0 <= i <= n && i < |creates| && !creates[i].Created? && creates[i].orphan == Some(pod)
      {
        if pod in FirstPod(rest).orphans {
          var i :| 0 <= i <= m && i < |rest| && !rest[i].Created? && rest[i].orphan == Some(pod);
          assert creates[i + 1] == rest[i];
        }
        if i :| 0 <= i <= n && i < |creates| && !creates[i].Created? && creates[i].orphan == Some(pod) {
          if i > 0 {
            assert rest[i - 1] == creates[i];
          }
        }
      }
    }
  }

  /** Benign, reply by reply. */
  lemma BenignIff(script: Script)
    ensures var created := FirstPod(script.creates);
      Benign(script) <==>
      (if !script.prepared then script.failWrite
       else
         && created.orphans == {}
         && if created.made.None? then script.failWrite
            else if true !in script.polls then script.failWrite && script.giveUp in {Deleted, DeleteLost(true)}
            else
              && script.relays && script.record
              && if script.jobWrite then script.reported || !script.failWrite
                 else
                   && script.undo in {Deleted, DeleteLost(true)}
                   && (script.failWrite || (script.undo == Deleted && script.undoRest && script.failAgain)))
  {
  }

  /** The replies that lead to `job_success` being called. */
  predicate Publishes(script: Script) {
    script.prepared && FirstPod(script.creates).made.Some? && true in script.polls && script.relays && script.record
  }

  /** What a launch leaves, clean or not: the job's row, and which of the new pods. */
  lemma LaunchLeaves(db: Db, j: JobId, script: Script, jupyterPort: nat, sshPort: nat, pod: PodId)
    requires j in db.jobs && Launchable(db.jobs[j].status)
    ensures var created := FirstPod(script.creates);
      var written := Publishes(script) && script.jobWrite;
      var stuck := script.prepared && created.made.Some? && true !in script.polls && script.giveUp == DeleteRefused;
      var retried :=
        Publishes(script) && !script.jobWrite && script.undoRest && !script.undo.DeleteLost? && script.failAgain;
      var row := LaunchedDb(db, j, script, jupyterPort, sshPort).jobs[j];
      && (row.status == Failed <==> !stuck && !(written && script.reported) && (script.failWrite || retried))
      && (row.status != Failed ==> row.status == if written then Running else db.jobs[j].status)
      && row.access == (if written then Some(Access(created.made.value, jupyterPort, sshPort)) else db.jobs[j].access)
    ensures var created := FirstPod(script.creates);
      var kept :=
        && created.made == Some(pod)
        && !(true !in script.polls && script.giveUp in {Deleted, DeleteLost(true)})
        && !(Publishes(script) && !script.jobWrite && script.undo in {Deleted, DeleteLost(true)});
      pod in LeftPods(script) <==> script.prepared && (pod in created.orphans || kept)
  {
  }

  /** Running: published, recorded, and its pod the only new one. */
  ghost predicate EndsRunning(before: Db, after: Db, pods: set<PodId>, pods': set<PodId>,
                              active': map<PodId, ActiveRecord>, j: JobId) {
    j in before.jobs && exists access: Access ::
      && access.pod !in pods && pods' == pods + {access.pod}
      && after.jobs == before.jobs[j := before.jobs[j].(status := Running, access := Some(access))]
      && after.balances == before.balances
      && access.pod in active' && active'[access.pod].job == j && active'[access.pod].access == access
  }

  /** Failed: the cost credited to a renter that has not been paid back, the job marked, and no new pod. */
  ghost predicate EndsFailed(before: Db, after: Db, pods: set<PodId>, pods': set<PodId>, j: JobId) {
    j in before.jobs &&
    var row := before.jobs[j];
    var pays := row.renter.Some? && row.cost != 0 && !row.refunded;
    && after.jobs == before.jobs[j := row.(status := Failed, refunded := row.refunded || pays)]
    && after.balances.Keys == before.balances.Keys
    && (forall r <- after.balances ::
          after.balances[r] == before.balances[r] + if pays && row.renter == Some(r) then row.cost else 0)
    && pods' == pods
  }

  ghost predicate EndsClean(before: Db, after: Db, pods: set<PodId>, pods': set<PodId>,
                            active': map<PodId, ActiveRecord>, j: JobId) {
    EndsRunning(before, after, pods, pods', active', j) || EndsFailed(before, after, pods, pods', j)
  }

  lemma LeftPodsAreFresh(script: Script, pods: set<PodId>, active: map<PodId, ActiveRecord>)
    requires FreshPods(script, pods, active)
    ensures LeftPods(script) !! pods && FirstPod(script.creates).orphans !! pods
    ensures FirstPod(script.creates).made.Some? ==>
      FirstPod(script.creates).made.value !in FirstPod(script.creates).orphans + pods
  {
    FirstPodIsScripted(script.creates);
  }

  lemma SecondPodIsNotClean(pods: set<PodId>, orphans: set<PodId>, pod: PodId)
    requires pod !in pods && pod !in orphans && orphans !! pods
    ensures forall other :: pods + (orphans + {pod}) == pods + {other} ==> orphans == {} && other == pod
  {
    forall other | pods + (orphans + {pod}) == pods + {other}
      ensures orphans == {} && other == pod
    {
      assert pod in pods + {other};
      assert forall o <- orphans :: o in pods + {other};
    }
  }

  /** What a launch of a waiting job leaves is clean exactly when its script is benign. */
  lemma CleanIffBenign(db: Db, j: JobId, script: Script, jupyterPort: nat, sshPort: nat,
                       pods: set<PodId>, active: map<PodId, ActiveRecord>, active': map<PodId, ActiveRecord>)
    requires j in db.jobs && Launchable(db.jobs[j].status) && FreshPods(script, pods, active)
    requires Reached(script) in {Unreported, Finished} ==>
               var pod := FirstPod(script.creates).made.value;
               pod in active' && active'[pod].job == j && active'[pod].access == Access(pod, jupyterPort, sshPort)
    ensures EndsClean(db, LaunchedDb(db, j, script, jupyterPort, sshPort), pods, pods + LeftPods(script), active', j)
            <==> Benign(script)
  {
    LeftPodsAreFresh(script, pods, active);
    var after := LaunchedDb(db, j, script, jupyterPort, sshPort);
    var pods' := pods + LeftPods(script);
    if pods' == pods {
      assert LeftPods(script) == {};
    }
    if Reached(script) in {Unreported, Finished} {
      var access := Access(FirstPod(script.creates).made.value, jupyterPort, sshPort);
      assert LeftPods(script) == FirstPod(script.creates).orphans + {access.pod} && access.pod in pods';
      if Benign(script) {
        assert after == Succeeded(db, j, access);
      } else {
        SecondPodIsNotClean(pods, FirstPod(script.creates).orphans, access.pod);
      }
    } else {
      assert after.jobs[j].status != Running;
    }
  }

  /** A failed launch of an unpaid-back job pays its renter the whole cost, once. */
  lemma FailedMeansRefunded(db: Db, j: JobId)
    requires j in db.jobs && Launchable(db.jobs[j].status) && Refunds(db, j) && db.jobs[j].renter.value in db.balances
    ensures var r := db.jobs[j].renter.value;
            && FailedDb(db, j).jobs[j].status == Failed && FailedDb(db, j).jobs[j].refunded
            && FailedDb(db, j).balances == db.balances[r := db.balances[r] + db.jobs[j].cost]
            && FailedDb(FailedDb(db, j), j) == FailedDb(db, j)
  {
  }

  class BurstHost {
    const database: Database
    var pods: set<PodId>
    var active: map<PodId, ActiveRecord>

    constructor (database: Database)
      ensures this.database == database && pods == {} && active == map[]
    {
      this.database := database;
      pods, active := {}, map[];
    }

    method CreatePod(creates: seq<CreateReply>) returns (made: Option<PodId>)
      modifies this`pods
      ensures made == FirstPod(creates).made
      ensures pods == old(pods) + FirstPod(creates).orphans + if made.Some? then {made.value} else {}
    {
      ghost var orphans := {};
      for i := 0 to |creates|
        invariant FirstPod(creates).made == FirstPod(creates[i..]).made
        invariant FirstPod(creates).orphans == orphans + FirstPod(creates[i..]).orphans && pods == old(pods) + orphans
      {
        pods := pods + Born(creates[i]);
        if creates[i].Created? {
          return Some(creates[i].pod);
        }
        if creates[i].CreateLost? {
          return None;
        }
        orphans := orphans + Born(creates[i]);
      }
      made := None;
    }

    method DeletePod(pod: PodId, reply: DeleteReply) returns (ending: Ending)
      modifies this`pods
      ensures pods == if reply == Deleted || reply == DeleteLost(true) then old(pods) - {pod} else old(pods)
      ensures ending == match reply case Deleted => Normal case DeleteRefused => Exits case DeleteLost(_) => Raises
    {
      match reply
      case Deleted =>
        pods := pods - {pod};
        ending := Normal;
      case DeleteRefused =>
        ending := Exits;
      case DeleteLost(gone) =>
        if gone {
          pods := pods - {pod};
        }
        ending := Raises;
    }

    /** `teardown` as launch uses it: a refused DELETE is only warned about. */
    method Undo(pod: PodId, reply: DeleteReply, rest: bool) returns (ending: Ending)
      modifies this
      ensures pods == if reply == Deleted || reply == DeleteLost(true) then old(pods) - {pod} else old(pods)
      ensures ending.Normal? || ending.Raises?
      ensures ending.Normal? <==> rest && !reply.DeleteLost?
      ensures active == if ending.Normal? then old(active) - {pod} else old(active)
    {
      var deleted := DeletePod(pod, reply);
      if deleted.Raises? || !rest {
        return Raises;
      }
      active := active - {pod};
      ending := Normal;
    }

    /** `range(40)` polls of the tunnel's port. */
    method AwaitTunnel(polls: seq<bool>) returns (up: bool)
      ensures up <==> true in polls
    {
      up := false;
      for i := 0 to |polls|
        invariant true !in polls[..i] && !up
      {
        assert polls[..i + 1] == polls[..i] + [polls[i]];
        if polls[i] {
          return true;
        }
      }
      assert polls[..|polls|] == polls;
    }

    /** `launch` after the tunnel is up: relays, record, publication, report. */
    method Publish(j: JobId, script: Script, pod: PodId, jupyterPort: nat, sshPort: nat, deadline: int)
      returns (ending: Ending)
      requires j in database.jobs && Launchable(database.jobs[j].status)
      requires script.prepared && FirstPod(script.creates).made == Some(pod) && true in script.polls
      modifies this, database
      ensures database.State() == match Reached(script)
                                  case NotWritten =>
                                    if Undone(script) && script.failWrite then FailedDb(old(database.State()), j)
                                    else old(database.State())
                                  case NoRelays => old(database.State())
                                  case NoRecord => old(database.State())
                                  case _ => Succeeded(old(database.State()), j, Access(pod, jupyterPort, sshPort))
      ensures pods == if Reached(script).NotWritten? && Removes(script.undo) then old(pods) - {pod} else old(pods)
      ensures Reached(script) in {Unreported, Finished} ==>
                pod in active && active[pod] == ActiveRecord(j, Access(pod, jupyterPort, sshPort), deadline)
      ensures active == if !script.relays || !script.record then old(active)
                        else if !script.jobWrite && script.undoRest && !script.undo.DeleteLost? then old(active) - {pod}
                        else old(active)[pod := ActiveRecord(j, Access(pod, jupyterPort, sshPort), deadline)]
      ensures ending == if Reached(script).Finished? then Normal
                        else if Reached(script).NotWritten? && Undone(script) && script.failWrite then Exits else Raises
    {
      if !script.relays || !script.record {
        return Raises;
      }
      var access := Access(pod, jupyterPort, sshPort);
      active := active[pod := ActiveRecord(j, access, deadline)];
      var unwritten := database.JobSuccess(j, access, script.jobWrite);
      if unwritten {
        var undone := Undo(pod, script.undo, script.undoRest);
        if undone.Raises? {
          return Raises;
        }
        active := active - {pod};
        var unfailed := database.JobFail(j, script.failWrite);
        return if unfailed then Raises else Exits;
      }
      ending := if script.reported then Normal else Raises;
    }

    /** `launch` up to its exception handlers. */
    method Attempt(j: JobId, script: Script, jupyterPort: nat, sshPort: nat, deadline: int) returns (ending: Ending)
      requires j in database.jobs && Launchable(database.jobs[j].status)
      requires FreshPods(script, pods, active)
      modifies this, database
      ensures database.State() == if Reached(script) in {Unreported, Finished}
                                  then Succeeded(old(database.State()), j,
                                                 Access(FirstPod(script.creates).made.value, jupyterPort, sshPort))
                                  else if Reached(script).NotWritten? && Undone(script) && script.failWrite
                                  then FailedDb(old(database.State()), j)
                                  else old(database.State())
      ensures pods == old(pods) + LeftPods(script)
      ensures Reached(script) in {Unreported, Finished} ==>
                var pod := FirstPod(script.creates).made.value;
                pod in active && active[pod] == ActiveRecord(j, Access(pod, jupyterPort, sshPort), deadline)
      ensures active == if Publishes(script) && (script.jobWrite || !script.undoRest || script.undo.DeleteLost?)
                        then
                          var pod := FirstPod(script.creates).made.value;
                          old(active)[pod := ActiveRecord(j, Access(pod, jupyterPort, sshPort), deadline)]
                        else old(active)
      ensures ending == if Reached(script).Finished? then Normal
                        else if Reached(script).NoTunnel? && script.giveUp.DeleteRefused? then Exits
                        else if Reached(script).NotWritten? && Undone(script) && script.failWrite then Exits
                        else Raises
    {
      FirstPodIsScripted(script.creates);
      if !script.prepared {
        return Raises;
      }
      var made := CreatePod(script.creates);
      if made.None? {
        return Raises;
      }
      var pod := made.value;
      var up := AwaitTunnel(script.polls);
      if !up {
        var deleted := DeletePod(pod, script.giveUp);
        return if deleted.Exits? then Exits else Raises;
      }
      ending := Publish(j, script, pod, jupyterPort, sshPort, deadline);
    }

    /** `launch` of a waiting job: it ends clean exactly when the script is benign. */
    method Launch(j: JobId, script: Script, jupyterPort: nat, sshPort: nat, deadline: int) returns (exited: bool)
      requires j in database.jobs && Launchable(database.jobs[j].status)
      requires FreshPods(script, pods, active)
      modifies this, database
      ensures database.State() == LaunchedDb(old(database.State()), j, script, jupyterPort, sshPort)
      ensures pods == old(pods) + LeftPods(script)
      ensures EndsClean(old(database.State()), database.State(), old(pods), pods, active, j) <==> Benign(script)
      ensures active == if Publishes(script) && (script.jobWrite || !script.undoRest || script.undo.DeleteLost?)
                        then
                          var pod := FirstPod(script.creates).made.value;
                          old(active)[pod := ActiveRecord(j, Access(pod, jupyterPort, sshPort), deadline)]
                        else old(active)
      ensures exited <==> !Reached(script).Finished?
    {
      var ending := Attempt(j, script, jupyterPort, sshPort, deadline);
      if ending.Raises? {
        var inHandler := Reached(script).NotWritten? && Undone(script);
        var _ := database.JobFail(j, if inHandler then script.failAgain else script.failWrite);
      }
      exited := !ending.Normal?;
      CleanIffBenign(old(database.State()), j, script, jupyterPort, sshPort, old(pods), old(active), active);
    }
  }

  /**
   * The premises a run book would name suffice: no create request makes a pod without saying so, the relays start,
   * the record is written, every DELETE that is issued takes without raising, `job_fail` commits, and the report
   * is printed. A refused DELETE after the tunnel never came up breaks them: the SystemExit skips
   * `job_fail`.
   */
  lemma OrdinaryFailuresAreBenign(script: Script)
    requires FirstPod(script.creates).orphans == {}
    requires script.relays && script.record && script.giveUp.Deleted? && script.undo.Deleted? && script.failWrite
        && script.reported
    ensures Benign(script)
  {
  }

  lemma RefusedDeleteStrandsTheRefund(db: Db, j: JobId, script: Script, jupyterPort: nat, sshPort: nat)
    requires j in db.jobs && Launchable(db.jobs[j].status)
    requires Reached(script).NoTunnel? && script.giveUp.DeleteRefused?
    ensures LaunchedDb(db, j, script, jupyterPort, sshPort) == db
        && LeftPods(script) == FirstPod(script.creates).orphans + {FirstPod(script.creates).made.value}
    ensures !Benign(script)
  {
  }
}
