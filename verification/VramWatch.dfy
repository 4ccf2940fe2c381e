/**
 * ops/dcp-vram-parking-watch.py, `main`: one cron run reads every online provider and updates the
 * episode dictionary. The theorems are about whole sequences of runs.
 */
module VramWatch {
  import opened Options

  const FULL_PCT: real := 0.80
  const FULL_SUSTAIN := 30 * 60
  const PARTIAL_PCT: real := 0.40
  const PARTIAL_SUSTAIN := 2 * 3600
  const UTIL_MAX: real := 5.0
  const HEARTBEAT_FRESH_SECONDS := 20 * 60

  type ProviderId = int

  datatype Tier = Full | Partial

  datatype Gpu = Gpu(gpuVramMib: Option<real>, vramMb: Option<real>, memoryUsedMb: Option<real>,
                     freeVramMib: Option<real>, gpuUtilPct: Option<real>)

  /** One online provider; `gpu` is None when its status is not JSON. */
  datatype Row = Row(id: ProviderId, gpu: Option<Gpu>, heartbeat: Option<int>)

  datatype Run = Run(now: int, rows: seq<Row>, exceptions: map<ProviderId, int>, podActive: set<ProviderId>)

  datatype Episode = Episode(since: int, alerted: bool, tier: Tier)

  datatype Notice = Alert(id: ProviderId, tier: Tier) | Recovery(id: ProviderId)

  // ---- What one row says about its provider ----

  datatype Reading = Skipped | Clear | Parked(tier: Tier)

  /** Python's `a or b or 0`: a zero or missing figure falls through. */
  function TotalOf(g: Gpu): real {
    if g.gpuVramMib.Some? && g.gpuVramMib.value != 0.0 then g.gpuVramMib.value
    else if g.vramMb.Some? then g.vramMb.value
    else 0.0
  }

  function UsedOf(g: Gpu): Option<real> {
    if g.memoryUsedMb.Some? then g.memoryUsedMb
    else if g.freeVramMib.Some? && TotalOf(g) != 0.0 then Some(TotalOf(g) - g.freeVramMib.value)
    else None
  }

  function TierOf(run: Run, id: ProviderId, pct: real, util: real): Reading {
    if id in run.podActive || util > UTIL_MAX then Clear
    else if pct > FULL_PCT then Parked(Full)
    else if pct > PARTIAL_PCT then Parked(Partial)
    else Clear
  }

  function RowReading(run: Run, row: Row): Reading {
    if row.gpu.None? then Skipped
    else
      var g := row.gpu.value;
      if TotalOf(g) == 0.0 || UsedOf(g).None? || g.gpuUtilPct.None? then Skipped
      else if row.heartbeat.Some? && run.now - row.heartbeat.value > HEARTBEAT_FRESH_SECONDS then Skipped
      else if row.id in run.exceptions && run.now < run.exceptions[row.id] then Skipped
      else TierOf(run, row.id, UsedOf(g).value / TotalOf(g), g.gpuUtilPct.value)
  }

  /** The figures of a row, where they are to be had: total memory not zero, memory in use, utilisation. */
  ghost predicate Figures(g: Gpu, total: real, used: real, util: real) {
    && total != 0.0 && g.gpuUtilPct == Some(util)
    && (if g.gpuVramMib.Some? && g.gpuVramMib.value != 0.0 then g.gpuVramMib == Some(total)
        else g.vramMb == Some(total))
    && (if g.memoryUsedMb.Some? then g.memoryUsedMb == Some(used) else g.freeVramMib == Some(total - used))
  }

  /** The heartbeat is at most twenty minutes old, or has no time, and no exception is running. */
  ghost predicate Counts(run: Run, row: Row) {
    && (row.heartbeat.Some? ==> run.now - row.heartbeat.value <= 20 * 60)
    && (row.id in run.exceptions ==> run.exceptions[row.id] <= run.now)
  }

  /**
   * What is read off a row: parked is memory held at up to 5% utilisation and outside a paid pod, full above 80%,
   * partial above 40%.
   */
  lemma ReadingIs(run: Run, row: Row, total: real, used: real, util: real)
    requires row.gpu.Some? && Figures(row.gpu.value, total, used, util) && Counts(run, row)
    ensures var idle := row.id !in run.podActive && util <= 5.0;
      RowReading(run, row) == if idle && used / total > 0.80 then Parked(Full)
                              else if idle && used / total > 0.40 then Parked(Partial) else Clear
  {
  }

  /** And a row is passed over exactly when it does not count or a figure is not to be had. */
  lemma SkippedIff(run: Run, row: Row)
    ensures RowReading(run, row) == Skipped <==>
      row.gpu.None? || !Counts(run, row) || forall total, used, util :: !Figures(row.gpu.value, total, used, util)
  {
    if row.gpu.Some? && TotalOf(row.gpu.value) != 0.0 && UsedOf(row.gpu.value).Some? && row.gpu.value.gpuUtilPct.Some? {
      var g := row.gpu.value;
      assert Figures(g, TotalOf(g), UsedOf(g).value, g.gpuUtilPct.value);
    }
  }

  /** The table's primary key. */
  ghost predicate UniqueIds(run: Run) {
    forall i, j :: 0 <= i < j < |run.rows| ==> run.rows[i].id != run.rows[j].id
  }

  ghost predicate HasRow(run: Run, id: ProviderId) {
    exists i :: 0 <= i < |run.rows| && run.rows[i].id == id
  }

  /** What a run sees of a provider; one without a row is not seen at all. */
  ghost function Reads(run: Run, id: ProviderId): Reading {
    if HasRow(run, id) then
      var i :| 0 <= i < |run.rows| && run.rows[i].id == id;
      RowReading(run, run.rows[i])
    else Skipped
  }

  // ---- One run ----

  function Sustain(tier: Tier): int {
    if tier == Full then FULL_SUSTAIN else PARTIAL_SUSTAIN
  }

  function AfterReading(ep: Option<Episode>, reading: Reading, now: int): Option<Episode> {
    if !reading.Parked? then None
    else
      var e := if ep.Some? then ep.value else Episode(now, false, reading.tier);
      var tier := if e.tier == Full then Full else reading.tier;
      Some(Episode(e.since, e.alerted || now - e.since >= Sustain(tier), tier))
  }

  function NoticeOf(ep: Option<Episode>, reading: Reading, now: int, id: ProviderId): seq<Notice> {
    match reading
    case Skipped => []
    case Clear => if ep.Some? && ep.value.alerted then [Recovery(id)] else []
    case Parked(_) =>
      var e := AfterReading(ep, reading, now).value;
      if e.alerted && (ep.None? || !ep.value.alerted) then [Alert(id, e.tier)] else []
  }

  /** The notices of the first `n` rows, in row order. */
  ghost function NoticesOf(state: map<ProviderId, Episode>, run: Run, n: nat): seq<Notice>
    requires n <= |run.rows|
  {
    if n == 0 then []
    else
      var row := run.rows[n - 1];
      NoticesOf(state, run, n - 1) + NoticeOf(Lookup(state, row.id), RowReading(run, row), run.now, row.id)
  }

  ghost predicate StateFollows(before: map<ProviderId, Episode>, run: Run, after: map<ProviderId, Episode>) {
    forall id {:trigger Lookup(after, id)} ::
      Lookup(after, id) == AfterReading(Lookup(before, id), Reads(run, id), run.now)
  }

  lemma ReadsRow(run: Run, i: nat)
    requires UniqueIds(run) && i < |run.rows|
    ensures Reads(run, run.rows[i].id) == RowReading(run, run.rows[i])
  {
  }

  ghost predicate RowDone(before: map<ProviderId, Episode>, run: Run, state: map<ProviderId, Episode>, j: nat) {
    j < |run.rows| && !RowReading(run, run.rows[j]).Skipped? ==>
      Lookup(state, run.rows[j].id)
        == AfterReading(Lookup(before, run.rows[j].id), RowReading(run, run.rows[j]), run.now)
  }

  /** Every row done and the unseen keys dropped: the state follows the readings. */
  lemma Swept(before: map<ProviderId, Episode>, run: Run, kept: map<ProviderId, Episode>, seen: set<ProviderId>,
              after: map<ProviderId, Episode>)
    requires UniqueIds(run)
    requires forall j: nat {:trigger RowDone(before, run, kept, j)} :: j < |run.rows| ==> RowDone(before, run, kept, j)
    requires forall j :: 0 <= j < |run.rows| && RowReading(run, run.rows[j]).Parked? ==> run.rows[j].id in seen
    requires forall id <- seen :: Reads(run, id).Parked?
    requires after == map id | id in kept && id in seen :: kept[id]
    ensures StateFollows(before, run, after)
  {
    forall id
      ensures Lookup(after, id) == AfterReading(Lookup(before, id), Reads(run, id), run.now)
    {
      if HasRow(run, id) {
        var j :| 0 <= j < |run.rows| && run.rows[j].id == id;
        ReadsRow(run, j);
        assert RowDone(before, run, kept, j);
      }
    }
  }

  class Watch {
    var state: map<ProviderId, Episode>
    var sent: seq<Notice>

    constructor ()
      ensures state == map[] && sent == []
    {
      state, sent := map[], [];
    }

    /** The loop body for a row with a usable reading. */
    method Observe(id: ProviderId, reading: Reading, now: int)
      requires !reading.Skipped?
      modifies this
      ensures Lookup(state, id) == AfterReading(Lookup(old(state), id), reading, now)
      ensures forall other {:trigger Lookup(state, other)} ::
        other != id ==> Lookup(state, other) == Lookup(old(state), other)
      ensures sent == old(sent) + NoticeOf(Lookup(old(state), id), reading, now, id)
    {
      if reading.Parked? {
        var ep := if id in state then state[id] else Episode(now, false, reading.tier);
        if ep.tier != Full {
          ep := ep.(tier := reading.tier);
        }
        state := state[id := ep];
        var sustain := if ep.tier == Full then FULL_SUSTAIN else PARTIAL_SUSTAIN;
        if !ep.alerted && now - ep.since >= sustain {
          sent := sent + [Alert(id, ep.tier)];
          ep := ep.(alerted := true);
          state := state[id := ep];
        }
      } else {
        var ep := if id in state then Some(state[id]) else None;
        state := state - {id};
        if ep.Some? && ep.value.alerted {
          sent := sent + [Recovery(id)];
        }
      }
    }

    /** `main`: one cron run. */
    method RunOnce(run: Run)
      requires UniqueIds(run)
      modifies this
      ensures StateFollows(old(state), run, state)
      ensures sent == old(sent) + NoticesOf(old(state), run, |run.rows|)
    {
      hide RowReading, AfterReading, Lookup, StateFollows;
      ghost var before := state;
      var seen: set<ProviderId> := {};
      for i := 0 to |run.rows|
        invariant forall j :: 0 <= j < i && RowReading(run, run.rows[j]).Parked? ==> run.rows[j].id in seen
        invariant forall id <- seen :: Reads(run, id).Parked?
        invariant forall j :: 0 <= j < i ==> RowDone(before, run, state, j)
        invariant forall j :: i <= j < |run.rows| ==> Lookup(state, run.rows[j].id) == Lookup(before, run.rows[j].id)
        invariant sent == old(sent) + NoticesOf(before, run, i)
      {
        var row := run.rows[i];
        var reading := RowReading(run, row);
        ReadsRow(run, i);
        ghost var was := state;
        assert Lookup(was, row.id) == Lookup(before, row.id);
        if !reading.Skipped? {
          if reading.Parked? {
            seen := seen + {row.id};
          }
          Observe(row.id, reading, run.now);
        }
        forall j | 0 <= j <= i
          ensures RowDone(before, run, state, j)
        {
          if j < i {
            assert RowDone(before, run, was, j);
            assert run.rows[j].id != row.id;
            assert Lookup(state, run.rows[j].id) == Lookup(was, run.rows[j].id);
          }
        }
      }
      var kept := state;
      state := map id | id in kept && id in seen :: kept[id];
      Swept(before, run, kept, seen, state);
    }
  }

  // ---- Sequences of runs ----

  /** The episode saved for `id` after the first `k` runs. */
  ghost function Saved(runs: seq<Run>, k: nat, id: ProviderId): Option<Episode>
    requires k <= |runs|
  {
    if k == 0 then None else AfterReading(Saved(runs, k - 1, id), Reads(runs[k - 1], id), runs[k - 1].now)
  }

  /** What run `k` posts about `id`. */
  ghost function Posts(runs: seq<Run>, k: nat, id: ProviderId): seq<Notice>
    requires k < |runs|
  {
    NoticeOf(Saved(runs, k, id), Reads(runs[k], id), runs[k].now, id)
  }

  /** Every run from `s` through `k` saw the provider parked, and the one before `s` did not. */
  ghost predicate IsEpisode(runs: seq<Run>, s: nat, k: nat, id: ProviderId)
    requires k < |runs|
  {
    && s <= k
    && (forall i :: s <= i <= k ==> Reads(runs[i], id).Parked?)
    && (s > 0 ==> !Reads(runs[s - 1], id).Parked?)
  }

  ghost predicate SawFull(runs: seq<Run>, s: nat, k: nat, id: ProviderId)
    requires k < |runs|
  {
    exists i :: s <= i <= k && Reads(runs[i], id) == Parked(Full)
  }

  /** The episode that began at `s` has lasted long enough at `k`. */
  ghost predicate Due(runs: seq<Run>, s: nat, k: nat, id: ProviderId)
    requires s <= k < |runs|
  {
    runs[k].now - runs[s].now >= if SawFull(runs, s, k, id) then 30 * 60 else 2 * 3600
  }

  ghost predicate DueBy(runs: seq<Run>, s: nat, k: nat, id: ProviderId)
    requires s <= k < |runs|
  {
    exists j :: s <= j <= k && Due(runs, s, j, id)
  }

  lemma {:induction false} EpisodeExists(runs: seq<Run>, k: nat, id: ProviderId) returns (s: nat)
    requires k < |runs| && Reads(runs[k], id).Parked?
    ensures IsEpisode(runs, s, k, id)
  {
    if k > 0 && Reads(runs[k - 1], id).Parked? {
      s := EpisodeExists(runs, k - 1, id);
    } else {
      s := k;
    }
  }

  lemma SawFullStep(runs: seq<Run>, s: nat, k: nat, id: ProviderId)
    requires s < k < |runs|
    ensures SawFull(runs, s, k, id) <==> SawFull(runs, s, k - 1, id) || Reads(runs[k], id) == Parked(Full)
  {
  }

  lemma DueByStep(runs: seq<Run>, s: nat, k: nat, id: ProviderId)
    requires s < k < |runs|
    ensures DueBy(runs, s, k, id) <==> DueBy(runs, s, k - 1, id) || Due(runs, s, k, id)
  {
  }

  /** The saved episode records the episode's first run, whether any run saw it full, and whether it was ever due. */
  lemma {:induction false} SavedIsTheEpisode(runs: seq<Run>, s: nat, k: nat, id: ProviderId)
    requires k < |runs| && IsEpisode(runs, s, k, id)
    ensures Saved(runs, k + 1, id)
         == Some(Episode(runs[s].now, DueBy(runs, s, k, id), if SawFull(runs, s, k, id) then Full else Partial))
    decreases k
  {
    if s < k {
      SavedIsTheEpisode(runs, s, k - 1, id);
      SawFullStep(runs, s, k, id);
      DueByStep(runs, s, k, id);
    } else {
      assert Saved(runs, k, id) == None;
      assert Reads(runs[k], id).Parked?;
      assert SawFull(runs, k, k, id) <==> Reads(runs[k], id) == Parked(Full);
      assert DueBy(runs, k, k, id) <==> Due(runs, k, k, id);
    }
  }

  /** Saved keys are exactly the providers seen parked in the last run. */
  lemma SavedKeysAreParked(runs: seq<Run>, k: nat, id: ProviderId)
    requires k < |runs|
    ensures Saved(runs, k + 1, id).Some? <==> Reads(runs[k], id).Parked?
  {
  }

  /** An alert goes out at exactly the first run at which the current episode is due. */
  lemma AlertExactlyWhenDue(runs: seq<Run>, s: nat, k: nat, id: ProviderId)
    requires k < |runs| && IsEpisode(runs, s, k, id)
    ensures Posts(runs, k, id)
         == if Due(runs, s, k, id) && (k == s || !DueBy(runs, s, k - 1, id))
            then [Alert(id, if SawFull(runs, s, k, id) then Full else Partial)] else []
  {
    SavedIsTheEpisode(runs, s, k, id);
    if s < k {
      SavedIsTheEpisode(runs, s, k - 1, id);
      DueByStep(runs, s, k, id);
    } else {
      assert Saved(runs, k, id) == None;
      assert DueBy(runs, k, k, id) <==> Due(runs, k, k, id);
    }
  }

  /** The episode running at `k`, if any, had been due by then. */
  ghost predicate AlertedEpisode(runs: seq<Run>, k: nat, id: ProviderId)
    requires k < |runs|
  {
    exists s: nat {:trigger IsEpisode(runs, s, k, id)} :: IsEpisode(runs, s, k, id) && DueBy(runs, s, k, id)
  }

  lemma EpisodeUnique(runs: seq<Run>, s: nat, t: nat, k: nat, id: ProviderId)
    requires k < |runs| && IsEpisode(runs, s, k, id) && IsEpisode(runs, t, k, id)
    ensures s == t
  {
  }

  /** A recovery goes out exactly when a usable, clear reading ends an episode that had been due. */
  lemma RecoveryExactlyAfterAlert(runs: seq<Run>, k: nat, id: ProviderId)
    requires k < |runs| && !Reads(runs[k], id).Parked?
    ensures Posts(runs, k, id)
         == if Reads(runs[k], id).Clear? && k > 0 && AlertedEpisode(runs, k - 1, id) then [Recovery(id)] else []
  {
    if k > 0 && Reads(runs[k - 1], id).Parked? {
      var s := EpisodeExists(runs, k - 1, id);
      SavedIsTheEpisode(runs, s, k - 1, id);
      if AlertedEpisode(runs, k - 1, id) {
        var t: nat :| IsEpisode(runs, t, k - 1, id) && DueBy(runs, t, k - 1, id);
        EpisodeUnique(runs, s, t, k - 1, id);
      }
    }
  }

  ghost predicate MonotoneClock(runs: seq<Run>) {
    forall i, j :: 0 <= i <= j < |runs| ==> runs[i].now <= runs[j].now
  }

  /** At most one alert per episode. */
  lemma OneAlertPerEpisode(runs: seq<Run>, s: nat, j: nat, k: nat, id: ProviderId)
    requires j < k < |runs| && IsEpisode(runs, s, j, id) && IsEpisode(runs, s, k, id)
    ensures Posts(runs, j, id) == [] || Posts(runs, k, id) == []
  {
    AlertExactlyWhenDue(runs, s, j, id);
    AlertExactlyWhenDue(runs, s, k, id);
  }

  /** Every recovery closes an episode in which exactly the due run posted the alert. */
  lemma {:induction false} RecoveryFollowsItsAlert(runs: seq<Run>, k: nat, id: ProviderId) returns (s: nat, j: nat)
    requires k < |runs| && Recovery(id) in Posts(runs, k, id)
    ensures s <= j < k && IsEpisode(runs, s, k - 1, id) && IsEpisode(runs, s, j, id)
    ensures |Posts(runs, j, id)| == 1 && Posts(runs, j, id)[0].Alert?
  {
    assert !Reads(runs[k], id).Parked?;
    RecoveryExactlyAfterAlert(runs, k, id);
    s :| IsEpisode(runs, s, k - 1, id) && DueBy(runs, s, k - 1, id);
    j := FirstDue(runs, s, k - 1, id);
    assert IsEpisode(runs, s, j, id);
    AlertExactlyWhenDue(runs, s, j, id);
  }

  lemma {:induction false} FirstDue(runs: seq<Run>, s: nat, k: nat, id: ProviderId) returns (j: nat)
    requires s <= k < |runs| && DueBy(runs, s, k, id)
    ensures s <= j <= k && Due(runs, s, j, id) && (j == s || !DueBy(runs, s, j - 1, id))
    decreases k
  {
    if k > s && DueBy(runs, s, k - 1, id) {
      j := FirstDue(runs, s, k - 1, id);
    } else {
      j := k;
    }
  }

  /** With a clock that never runs back, an overdue episode stays due: the alert is never more than one run late. */
  lemma DueStaysDue(runs: seq<Run>, s: nat, j: nat, k: nat, id: ProviderId)
    requires MonotoneClock(runs) && s <= j <= k < |runs| && Due(runs, s, j, id)
    ensures Due(runs, s, k, id)
  {
    assert SawFull(runs, s, j, id) ==> SawFull(runs, s, k, id);
    assert runs[j].now <= runs[k].now;
  }

  /** What run `k` posts about the providers of its first `n` rows, in row order. */
  ghost function RowPosts(runs: seq<Run>, k: nat, n: nat): seq<Notice>
    requires k < |runs| && n <= |runs[k].rows|
  {
    if n == 0 then [] else RowPosts(runs, k, n - 1) + Posts(runs, k, runs[k].rows[n - 1].id)
  }

  /** The file agrees with `Saved` on every provider. */
  ghost predicate FileIs(runs: seq<Run>, k: nat, state: map<ProviderId, Episode>)
    requires k <= |runs|
  {
    forall id {:trigger Lookup(state, id)} :: Lookup(state, id) == Saved(runs, k, id)
  }

  lemma {:induction false} RowsPost(runs: seq<Run>, k: nat, before: map<ProviderId, Episode>, n: nat)
    requires k < |runs| && UniqueIds(runs[k]) && FileIs(runs, k, before) && n <= |runs[k].rows|
    ensures NoticesOf(before, runs[k], n) == RowPosts(runs, k, n)
  {
    if n > 0 {
      RowsPost(runs, k, before, n - 1);
      ReadsRow(runs[k], n - 1);
      var id := runs[k].rows[n - 1].id;
      assert Lookup(before, id) == Saved(runs, k, id);
    }
  }

  /** One run of `RunOnce` from the saved state saves what `Saved` says. */
  lemma RunFollows(runs: seq<Run>, k: nat, before: map<ProviderId, Episode>, after: map<ProviderId, Episode>)
    requires k < |runs| && StateFollows(before, runs[k], after) && FileIs(runs, k, before)
    ensures FileIs(runs, k + 1, after)
  {
    forall id
      ensures Lookup(after, id) == Saved(runs, k + 1, id)
    {
      assert Lookup(before, id) == Saved(runs, k, id);
    }
  }

  lemma NothingSaved(runs: seq<Run>)
    ensures FileIs(runs, 0, map[])
  {
  }

  /** Runs `main` as cron does: the file and the posts, in row order, are those of the theorems above. */
  method Cron(runs: seq<Run>) returns (posted: seq<seq<Notice>>, state: map<ProviderId, Episode>)
    requires forall i :: 0 <= i < |runs| ==> UniqueIds(runs[i])
    ensures |posted| == |runs| && forall k :: 0 <= k < |runs| ==> posted[k] == RowPosts(runs, k, |runs[k].rows|)
    ensures FileIs(runs, |runs|, state)
  {
    hide StateFollows, Saved, Posts;
    var watch := new Watch();
    posted := [];
    NothingSaved(runs);
    for k := 0 to |runs|
      invariant fresh(watch) && |posted| == k
      invariant FileIs(runs, k, watch.state)
      invariant forall i :: 0 <= i < k ==> posted[i] == RowPosts(runs, i, |runs[i].rows|)
    {
      var already := |watch.sent|;
      ghost var before := watch.state;
      watch.RunOnce(runs[k]);
      RowsPost(runs, k, before, |runs[k].rows|);
      RunFollows(runs, k, before, watch.state);
      posted := posted + [watch.sent[already..]];
      assert posted[k] == NoticesOf(before, runs[k], |runs[k].rows|);
    }
    state := watch.state;
  }
}
