/** ops/burst.py, `job_success` and `job_fail`: the job rows and the renters' balances. */
module Ledger {
  import opened Ids
  import opened Options

  type RenterId = nat

  datatype Status = Pulling | Queued | Assigned | Running | Completed | Failed | Stopped | Cancelled | Other

  /** What `job_success` publishes about the pod. */
  datatype Access = Access(pod: PodId, jupyterPort: nat, sshPort: nat)

  /** `renter` is absent when the column is NULL or 0, `cost` is 0 when it is NULL. */
  datatype JobRow = JobRow(status: Status, renter: Option<RenterId>, cost: int, refunded: bool, access: Option<Access>)

  const NO_JOB := JobRow(Other, None, 0, false, None)

  datatype Db = Db(jobs: map<JobId, JobRow>, balances: map<RenterId, int>)

  predicate Launchable(status: Status) {
    status.Pulling? || status.Queued? || status.Assigned?
  }

  predicate Terminal(status: Status) {
    status.Completed? || status.Failed? || status.Stopped? || status.Cancelled?
  }

  /** The guarded UPDATE of `job_success`: a job in any other status is left alone. */
  function Succeeded(db: Db, j: JobId, access: Access): Db {
    if j in db.jobs && Launchable(db.jobs[j].status) then
      db.(jobs := db.jobs[j := db.jobs[j].(status := Running, access := Some(access))])
    else db
  }

  /** `job_fail` would pay the renter back. */
  predicate Refunds(db: Db, j: JobId) {
    && j in db.jobs && !Terminal(db.jobs[j].status)
    && db.jobs[j].renter.Some? && db.jobs[j].cost != 0 && !db.jobs[j].refunded
  }

  function Credited(balances: map<RenterId, int>, r: RenterId, amount: int): map<RenterId, int> {
    if r in balances then balances[r := balances[r] + amount] else balances
  }

  function FailedDb(db: Db, j: JobId): Db {
    if j !in db.jobs || Terminal(db.jobs[j].status) then db
    else
      var row := db.jobs[j].(status := Failed);
      if Refunds(db, j) then
        Db(db.jobs[j := row.(refunded := true)], Credited(db.balances, row.renter.value, row.cost))
      else
        db.(jobs := db.jobs[j := row])
  }

  /** One connection's worth of work at a time; a raised error rolls the transaction back. */
  class Database {
    var jobs: map<JobId, JobRow>
    var balances: map<RenterId, int>

    constructor (db: Db)
      ensures State() == db
    {
      jobs, balances := db.jobs, db.balances;
    }

    function State(): Db
      reads this
    {
      Db(jobs, balances)
    }

    method JobSuccess(j: JobId, access: Access, commits: bool) returns (raised: bool)
      modifies this
      ensures raised == !commits
      ensures State() == if commits then Succeeded(old(State()), j, access) else old(State())
      ensures var waiting := j in old(jobs) && old(jobs)[j].status in {Pulling, Queued, Assigned};
        if commits && waiting then
          jobs == old(jobs)[j := old(jobs)[j].(status := Running, access := Some(access))]
        else jobs == old(jobs)
      ensures balances == old(balances)
    {
      if commits && j in jobs && (jobs[j].status in {Pulling, Queued, Assigned}) {
        jobs := jobs[j := jobs[j].(status := Running, access := Some(access))];
      }
      raised := !commits;
    }

    method JobFail(j: JobId, commits: bool) returns (raised: bool)
      modifies this
      ensures raised <==> !commits && j in old(jobs) && !Terminal(old(jobs)[j].status)
      ensures State() == if commits then FailedDb(old(State()), j) else old(State())
      ensures var live := j in old(jobs) && old(jobs)[j].status !in {Completed, Failed, Stopped, Cancelled};
        var row := if live then old(jobs)[j] else NO_JOB;
        var pays := commits && live && row.renter.Some? && row.cost != 0 && !row.refunded;
        && jobs == (if commits && live
                    then old(jobs)[j := row.(status := Failed, refunded := row.refunded || pays)] else old(jobs))
        && balances.Keys == old(balances).Keys
        && forall r <- balances ::
             balances[r] == old(balances)[r] + if pays && row.renter == Some(r) then row.cost else 0
    {
      raised := false;
      if j !in jobs {
        return;
      }
      var row := jobs[j];
      if row.status in {Completed, Failed, Stopped, Cancelled} {
        return;
      }
      if !commits {
        return true;
      }
      jobs := jobs[j := row.(status := Failed)];
      if row.renter.Some? && row.cost != 0 && !row.refunded {
        if row.renter.value in balances {
          balances := balances[row.renter.value := balances[row.renter.value] + row.cost];
        }
        jobs := jobs[j := row.(status := Failed, refunded := true)];
      }
    }
  }

  // ---- Sums over finite maps ----

  ghost function Sum<K(!new)>(m: map<K, int>): int
    decreases |m|
  {
    if m == map[] then 0
    else
      var k :| k in m;
      m[k] + Sum(m - {k})
  }

  /** Which key is taken out first does not matter. */
  lemma {:induction false} SumTake<K(!new)>(m: map<K, int>, k: K)
    requires k in m
    ensures Sum(m) == m[k] + Sum(m - {k})
    decreases |m|
  {
    var first :| first in m && Sum(m) == m[first] + Sum(m - {first});
    if first != k {
      SumTake(m - {first}, k);
      SumTake(m - {k}, first);
      assert m - {first} - {k} == m - {k} - {first};
    }
  }

  lemma SumPut<K(!new)>(m: map<K, int>, k: K, v: int)
    ensures Sum(m[k := v]) == v + Sum(m - {k})
  {
    SumTake(m[k := v], k);
    assert m[k := v] - {k} == m - {k};
  }

  // ---- What is owed ----

  /** The un-refunded costs of one renter's jobs. */
  ghost function Held(jobs: map<JobId, JobRow>, r: RenterId): map<JobId, int> {
    map j | j in jobs && !jobs[j].refunded && jobs[j].renter == Some(r) :: jobs[j].cost
  }

  ghost function AllHeld(jobs: map<JobId, JobRow>): map<JobId, int> {
    map j | j in jobs && !jobs[j].refunded && jobs[j].renter.Some? :: jobs[j].cost
  }

  ghost function Worth(db: Db, r: RenterId): int {
    (if r in db.balances then db.balances[r] else 0) + Sum(Held(db.jobs, r))
  }

  ghost function Total(db: Db): int {
    Sum(db.balances) + Sum(AllHeld(db.jobs))
  }

  // ---- Serialised calls ----

  datatype Call = Success(j: JobId, access: Access) | Fail(j: JobId)

  function After(db: Db, call: Call): Db {
    match call
    case Success(j, access) => Succeeded(db, j, access)
    case Fail(j) => FailedDb(db, j)
  }

  function AfterAll(db: Db, calls: seq<Call>): Db
    decreases |calls|
  {
    if calls == [] then db else AfterAll(After(db, calls[0]), calls[1..])
  }

  /** A renter's balance and what its jobs still hold add up to the same, call by call. */
  lemma WorthKept(db: Db, call: Call, r: RenterId)
    requires r in db.balances
    ensures r in After(db, call).balances && Worth(After(db, call), r) == Worth(db, r)
  {
    var db' := After(db, call);
    var j := call.j;
    if call.Fail? && Refunds(db, j) && db.jobs[j].renter == Some(r) {
      SumTake(Held(db.jobs, r), j);
      assert Held(db'.jobs, r) == Held(db.jobs, r) - {j};
    } else {
      assert Held(db'.jobs, r) == Held(db.jobs, r);
    }
  }

  /** The total is kept exactly when no refund goes to a renter without a row. */
  lemma TotalKeptIff(db: Db, call: Call)
    ensures Total(After(db, call)) == Total(db)
            <==> !(call.Fail? && Refunds(db, call.j) && db.jobs[call.j].renter.value !in db.balances)
  {
    var db' := After(db, call);
    var j := call.j;
    if call.Fail? && Refunds(db, j) {
      var r := db.jobs[j].renter.value;
      SumTake(AllHeld(db.jobs), j);
      assert AllHeld(db'.jobs) == AllHeld(db.jobs) - {j};
      if r in db.balances {
        SumTake(db.balances, r);
        SumPut(db.balances, r, db.balances[r] + db.jobs[j].cost);
      }
    } else {
      assert AllHeld(db'.jobs) == AllHeld(db.jobs);
    }
  }

  ghost predicate RentersExist(db: Db) {
    forall j :: j in db.jobs && db.jobs[j].renter.Some? ==> db.jobs[j].renter.value in db.balances
  }

  ghost function Refunded(db: Db, calls: seq<Call>, j: JobId): nat
    decreases |calls|
  {
    if calls == [] then 0
    else (if calls[0] == Fail(j) && Refunds(db, j) then 1 else 0) + Refunded(After(db, calls[0]), calls[1..], j)
  }

  /** Over any run: each renter's worth is kept. */
  lemma {:induction false} WorthConserved(db: Db, calls: seq<Call>, r: RenterId)
    requires r in db.balances
    ensures Worth(AfterAll(db, calls), r) == Worth(db, r)
    decreases |calls|
  {
    if calls != [] {
      WorthKept(db, calls[0], r);
      WorthConserved(After(db, calls[0]), calls[1..], r);
    }
  }

  /** Over any run on a ledger whose jobs all have their renters: the total is kept. */
  lemma {:induction false} TotalConserved(db: Db, calls: seq<Call>)
    requires RentersExist(db)
    ensures Total(AfterAll(db, calls)) == Total(db)
    decreases |calls|
  {
    if calls != [] {
      TotalKeptIff(db, calls[0]);
      TotalConserved(After(db, calls[0]), calls[1..]);
    }
  }

  /** Over any run: a job is refunded at most once, never again once it has been, and is then marked. */
  lemma {:induction false} RefundedAtMostOnce(db: Db, calls: seq<Call>, j: JobId)
    ensures Refunded(db, calls, j) <= 1
    ensures j in db.jobs && db.jobs[j].refunded ==> Refunded(db, calls, j) == 0
    ensures Refunded(db, calls, j) == 1 ==> j in AfterAll(db, calls).jobs && AfterAll(db, calls).jobs[j].refunded
    ensures j in db.jobs && db.jobs[j].refunded
        ==> j in AfterAll(db, calls).jobs && AfterAll(db, calls).jobs[j].refunded
    decreases |calls|
  {
    if calls != [] {
      RefundedAtMostOnce(After(db, calls[0]), calls[1..], j);
    }
  }

  /** Over any run: a terminal job keeps its row, status and all. */
  lemma {:induction false} TerminalStays(db: Db, calls: seq<Call>, j: JobId)
    requires j in db.jobs && Terminal(db.jobs[j].status)
    ensures j in AfterAll(db, calls).jobs && AfterAll(db, calls).jobs[j] == db.jobs[j]
    decreases |calls|
  {
    if calls != [] {
      assert After(db, calls[0]).jobs[j] == db.jobs[j];
      TerminalStays(After(db, calls[0]), calls[1..], j);
    }
  }
}
