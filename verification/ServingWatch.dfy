/**
 * ops/dcp-provider-serving-watch.py, `main`: one alert per provider entering the not-serving state, one
 * recovery notice on leaving it, with the state file rewritten only when something changed.
 */
module ServingWatch {
  import opened Options
  import opened Text

  type ProviderId = int

  datatype Row = Row(id: ProviderId, email: string, endpointReachable: Option<int>)

  /**
   * One run: the online, non-burst providers, whether the state file reads (as no state, if not), and whether a
   * save, where there is one, succeeds.
   */
  datatype Run = Run(rows: seq<Row>, readable: bool, saves: bool)

  datatype Notice = Alert(id: ProviderId) | Recovery(id: ProviderId)

  const TEST_EMAIL_MARKERS := ["dcp.local", "example.com", "smoke", "benchmark", "sec-audit", "test@"]

  predicate IsTestAccount(email: string) {
    exists i :: 0 <= i < |TEST_EMAIL_MARKERS| && Contains(Lower(email), TEST_EMAIL_MARKERS[i])
  }

  datatype Reading = Absent | Serving | NotServing

  function RowReading(row: Row): Reading {
    if IsTestAccount(row.email) then Absent
    else if row.endpointReachable == Some(1) then Serving
    else NotServing
  }

  /** What is read off a row: synthetic accounts are not seen, and serving is an endpoint known to be reachable. */
  lemma ReadingIs(row: Row)
    ensures var email := Lower(row.email);
      var synthetic := Contains(email, "dcp.local") || Contains(email, "example.com") || Contains(email, "smoke")
                       || Contains(email, "benchmark") || Contains(email, "sec-audit") || Contains(email, "test@");
      RowReading(row) == if synthetic then Absent
                         else if row.endpointReachable == Some(1) then Serving else NotServing
  {
    hide Contains, Lower;
    var email := Lower(row.email);
    assert TEST_EMAIL_MARKERS[0] == "dcp.local" && TEST_EMAIL_MARKERS[1] == "example.com";
    assert TEST_EMAIL_MARKERS[2] == "smoke" && TEST_EMAIL_MARKERS[3] == "benchmark";
    assert TEST_EMAIL_MARKERS[4] == "sec-audit" && TEST_EMAIL_MARKERS[5] == "test@";
  }

  /** The table's primary key. */
  ghost predicate UniqueIds(run: Run) {
    forall i, j :: 0 <= i < j < |run.rows| ==> run.rows[i].id != run.rows[j].id
  }

  ghost predicate HasRow(run: Run, id: ProviderId) {
    exists i :: 0 <= i < |run.rows| && run.rows[i].id == id
  }

  ghost function Reads(run: Run, id: ProviderId): Reading {
    if HasRow(run, id) then
      var i :| 0 <= i < |run.rows| && run.rows[i].id == id;
      RowReading(run.rows[i])
    else Absent
  }

  lemma ReadsRow(run: Run, i: nat)
    requires UniqueIds(run) && i < |run.rows|
    ensures Reads(run, run.rows[i].id) == RowReading(run.rows[i])
  {
  }

  // ---- One run ----

  function NoticeOf(down: bool, reading: Reading, id: ProviderId): seq<Notice> {
    match reading
    case Absent => []
    case NotServing => if down then [] else [Alert(id)]
    case Serving => if down then [Recovery(id)] else []
  }

  ghost function NoticesOf(state: set<ProviderId>, run: Run, n: nat): seq<Notice>
    requires n <= |run.rows|
  {
    if n == 0 then []
    else
      var row := run.rows[n - 1];
      NoticesOf(state, run, n - 1) + NoticeOf(row.id in state, RowReading(row), row.id)
  }

  /** What a run starts from. */
  function Loaded(file: set<ProviderId>, run: Run): set<ProviderId> {
    if run.readable then file else {}
  }

  /** The file after a run: rewritten only when the run posted something, and could save. */
  ghost predicate FileFollows(file: set<ProviderId>, run: Run, after: set<ProviderId>) {
    if NoticesOf(Loaded(file, run), run, |run.rows|) == [] || !run.saves then after == file
    else forall id {:trigger id in after} :: id in after <==> Reads(run, id) == NotServing
  }

  class Watch {
    /** The state file: the providers recorded as not serving. */
    var file: set<ProviderId>
    var sent: seq<Notice>

    constructor ()
      ensures file == {} && sent == []
    {
      file, sent := {}, [];
    }

    method RunOnce(run: Run) returns (raised: bool)
      requires UniqueIds(run)
      modifies this
      ensures sent == old(sent) + NoticesOf(Loaded(old(file), run), run, |run.rows|)
      ensures FileFollows(old(file), run, file)
      ensures raised <==> NoticesOf(Loaded(old(file), run), run, |run.rows|) != [] && !run.saves
    {
      var state := Loaded(file, run);
      var newState: set<ProviderId> := {};
      var changed := false;
      for i := 0 to |run.rows|
        invariant file == old(file)
        invariant sent == old(sent) + NoticesOf(state, run, i)
        invariant changed <==> NoticesOf(state, run, i) != []
        invariant forall id <- newState :: Reads(run, id) == NotServing
        invariant forall j :: 0 <= j < i && RowReading(run.rows[j]) == NotServing ==> run.rows[j].id in newState
        invariant !changed ==> newState <= state
      {
        var row := run.rows[i];
        ReadsRow(run, i);
        if !IsTestAccount(row.email) {
          var serving := row.endpointReachable == Some(1);
          if !serving {
            newState := newState + {row.id};
            if row.id !in state {
              sent := sent + [Alert(row.id)];
              changed := true;
            }
          } else if row.id in state {
            sent := sent + [Recovery(row.id)];
            changed := true;
          }
        }
      }
      // The file is also saved when it disagrees with the new state on the new state's own keys.
      if changed || newState != (set id | id in state && id in newState) {
        if !run.saves {
          return true;
        }
        file := newState;
      }
      raised := false;
      forall id
        ensures Reads(run, id) == NotServing ==> id in newState
      {
        if HasRow(run, id) {
          var j :| 0 <= j < |run.rows| && run.rows[j].id == id;
          ReadsRow(run, j);
        }
      }
    }
  }

  // ---- Sequences of runs ----

  /** Is `id` in the file before run `k`? */
  ghost predicate Down(runs: seq<Run>, k: nat, id: ProviderId)
    requires k <= |runs|
    decreases k, 0
  {
    k > 0 && if Rewritten(runs, k - 1) then Reads(runs[k - 1], id) == NotServing else Down(runs, k - 1, id)
  }

  /** Does run `k` find it there? */
  ghost predicate Found(runs: seq<Run>, k: nat, id: ProviderId)
    requires k < |runs|
    decreases k, 1
  {
    runs[k].readable && Down(runs, k, id)
  }

  /** Run `k` posts about some provider. */
  ghost predicate Changed(runs: seq<Run>, k: nat)
    requires k < |runs|
    decreases k, 2
  {
    exists id: ProviderId {:trigger Reads(runs[k], id)} :: NoticeOf(Found(runs, k, id), Reads(runs[k], id), id) != []
  }

  ghost predicate Rewritten(runs: seq<Run>, k: nat)
    requires k < |runs|
    decreases k, 3
  {
    Changed(runs, k) && runs[k].saves
  }

  ghost function Posts(runs: seq<Run>, k: nat, id: ProviderId): seq<Notice>
    requires k < |runs|
  {
    NoticeOf(Found(runs, k, id), Reads(runs[k], id), id)
  }

  ghost predicate LastRewrite(runs: seq<Run>, j: nat, k: nat)
    requires k <= |runs|
  {
    j < k && Rewritten(runs, j) && forall i :: j < i < k ==> !Rewritten(runs, i)
  }

  /** What the file remembers: the providers not serving at its last rewrite. */
  lemma {:induction false} DownIsLastRewrite(runs: seq<Run>, k: nat, id: ProviderId)
    requires k <= |runs|
    ensures Down(runs, k, id) <==>
      exists j: nat {:trigger LastRewrite(runs, j, k)} :: LastRewrite(runs, j, k) && Reads(runs[j], id) == NotServing
  {
    if k > 0 {
      DownIsLastRewrite(runs, k - 1, id);
      if Rewritten(runs, k - 1) {
        assert LastRewrite(runs, k - 1, k);
        assert forall j: nat :: LastRewrite(runs, j, k) ==> j == k - 1;
      } else if Down(runs, k, id) {
        var j: nat :| LastRewrite(runs, j, k - 1) && Reads(runs[j], id) == NotServing;
        assert LastRewrite(runs, j, k);
      } else {
        forall j: nat | LastRewrite(runs, j, k)
          ensures LastRewrite(runs, j, k - 1)
        {
        }
      }
    }
  }

  /** Every read and save of the file succeeds. */
  ghost predicate Reliable(runs: seq<Run>) {
    forall i :: 0 <= i < |runs| ==> runs[i].readable && runs[i].saves
  }

  /** Run `j` was the last to see `id`, saw it not serving, and no later run rewrote the file. */
  ghost predicate LastSeenDown(runs: seq<Run>, j: nat, k: nat, id: ProviderId)
    requires k <= |runs|
  {
    && j < k && Reads(runs[j], id) == NotServing
    && forall i :: j < i < k ==> Reads(runs[i], id) == Absent && !Rewritten(runs, i)
  }

  /** With a reliable file that is exactly: a provider out of sight is forgotten by the next rewrite. */
  lemma {:induction false} DownExactlyWhen(runs: seq<Run>, k: nat, id: ProviderId)
    requires k <= |runs| && Reliable(runs)
    ensures Down(runs, k, id) <==> exists j: nat {:trigger LastSeenDown(runs, j, k, id)} :: LastSeenDown(runs, j, k, id)
  {
    if k > 0 {
      DownExactlyWhen(runs, k - 1, id);
      var reading := Reads(runs[k - 1], id);
      assert Posts(runs, k - 1, id) != [] ==> Rewritten(runs, k - 1);
      if reading == NotServing {
        assert LastSeenDown(runs, k - 1, k, id);
        assert Rewritten(runs, k - 1) || Down(runs, k - 1, id);
      } else if Down(runs, k, id) {
        assert !Rewritten(runs, k - 1) && Down(runs, k - 1, id) && reading == Absent;
        var j: nat :| LastSeenDown(runs, j, k - 1, id);
        assert LastSeenDown(runs, j, k, id);
      } else {
        var dropped := reading != Absent || Rewritten(runs, k - 1) || !Down(runs, k - 1, id);
        assert dropped;
        forall j: nat | LastSeenDown(runs, j, k, id)
          ensures LastSeenDown(runs, j, k - 1, id) && reading == Absent && !Rewritten(runs, k - 1)
        {
        }
      }
    }
  }

  ghost predicate Silent(runs: seq<Run>, j: nat, k: nat, id: ProviderId)
    requires k <= |runs|
  {
    forall i :: j < i < k ==> Posts(runs, i, id) == []
  }

  /** No notice about `id` between the two whose run saved. */
  ghost predicate SavedSilent(runs: seq<Run>, j: nat, k: nat, id: ProviderId)
    requires k <= |runs|
  {
    forall i :: j < i < k && runs[i].saves ==> Posts(runs, i, id) == []
  }

  /** Whatever is in the file was alerted on by a run that saved, and no run since posted about it and saved. */
  lemma {:induction false} DownWasAlerted(runs: seq<Run>, k: nat, id: ProviderId) returns (j: nat)
    requires k <= |runs| && Down(runs, k, id)
    ensures j < k && Posts(runs, j, id) == [Alert(id)] && runs[j].saves && SavedSilent(runs, j, k, id)
  {
    if Down(runs, k - 1, id) && (runs[k - 1].saves ==> Posts(runs, k - 1, id) == []) {
      j := DownWasAlerted(runs, k - 1, id);
    } else {
      j := k - 1;
      if !Down(runs, k - 1, id) {
        assert Rewritten(runs, j);
      } else {
        assert NoticeOf(Found(runs, j, id), Reads(runs[j], id), id) != [];
        assert Changed(runs, j);
      }
    }
  }

  /** Every recovery is preceded by an alert, with no notice for that provider between whose run saved. */
  lemma RecoveryFollowsAlert(runs: seq<Run>, k: nat, id: ProviderId) returns (j: nat)
    requires k < |runs| && Recovery(id) in Posts(runs, k, id)
    ensures j < k && Posts(runs, j, id) == [Alert(id)] && runs[j].saves && SavedSilent(runs, j, k, id)
  {
    j := DownWasAlerted(runs, k, id);
  }

  ghost predicate AlwaysPresent(runs: seq<Run>, id: ProviderId) {
    forall i :: 0 <= i < |runs| ==> Reads(runs[i], id) != Absent
  }

  /** With a reliable file and a provider present in every run, notices mark exactly the edges of its readings. */
  lemma PresentProviderEdges(runs: seq<Run>, k: nat, id: ProviderId)
    requires k < |runs| && AlwaysPresent(runs, id) && Reliable(runs)
    ensures Posts(runs, k, id) == [Alert(id)]
        <==> Reads(runs[k], id) == NotServing && (k > 0 ==> Reads(runs[k - 1], id) == Serving)
    ensures Posts(runs, k, id) == [Recovery(id)]
        <==> k > 0 && Reads(runs[k], id) == Serving && Reads(runs[k - 1], id) == NotServing
    ensures Posts(runs, k, id) == [] || Posts(runs, k, id) == [Alert(id)] || Posts(runs, k, id) == [Recovery(id)]
  {
    DownExactlyWhen(runs, k, id);
    if k > 0 {
      assert LastSeenDown(runs, k - 1, k, id) <==> Reads(runs[k - 1], id) == NotServing;
      forall j: nat | LastSeenDown(runs, j, k, id)
        ensures j == k - 1
      {
        assert Reads(runs[k - 1], id) != Absent;
      }
    }
  }

  /** Two consecutive notices for it differ: alerts and recoveries alternate. */
  lemma NoticesAlternate(runs: seq<Run>, j: nat, k: nat, id: ProviderId)
    requires j < k < |runs| && AlwaysPresent(runs, id) && Reliable(runs)
    requires Posts(runs, j, id) != [] && Posts(runs, k, id) != [] && Silent(runs, j, k, id)
    ensures Posts(runs, j, id) == [Alert(id)] <==> Posts(runs, k, id) == [Recovery(id)]
  {
    SilentKeepsReading(runs, j, k - 1, id);
    PresentProviderEdges(runs, j, id);
    PresentProviderEdges(runs, k, id);
  }

  lemma {:induction false} SilentKeepsReading(runs: seq<Run>, j: nat, k: nat, id: ProviderId)
    requires j <= k < |runs| && AlwaysPresent(runs, id) && Reliable(runs) && Silent(runs, j, k + 1, id)
    ensures Reads(runs[k], id) == Reads(runs[j], id)
    decreases k
  {
    if j < k {
      SilentKeepsReading(runs, j, k - 1, id);
      PresentProviderEdges(runs, k, id);
    }
  }

  /** A run rewrote the file without `id`. */
  ghost predicate ForgottenAt(runs: seq<Run>, i: nat, id: ProviderId)
    requires i < |runs|
  {
    Rewritten(runs, i) && Reads(runs[i], id) != NotServing
  }

  /**
   * A provider still not serving is alerted on again, with no notice for it between, exactly if this run cannot
   * read the file, or the first alert did not get into it, or a run between rewrote it without the provider.
   */
  lemma {:induction false} RepeatedAlertIff(runs: seq<Run>, j: nat, k: nat, id: ProviderId)
    requires j < k < |runs| && Silent(runs, j, k, id)
    requires Posts(runs, j, id) == [Alert(id)] && Reads(runs[k], id) == NotServing
    ensures Posts(runs, k, id) == [Alert(id)] <==>
      || !runs[k].readable
      || (!runs[j].saves && !Down(runs, j, id))
      || exists i :: j < i < k && ForgottenAt(runs, i, id)
  {
    assert Changed(runs, j);
    assert Down(runs, j + 1, id) <==> runs[j].saves || Down(runs, j, id);
    if Down(runs, k, id) {
      forall i | j < i < k
        ensures !ForgottenAt(runs, i, id)
      {
        StillDown(runs, i + 1, k, id);
      }
      StillDown(runs, j + 1, k, id);
    } else if Down(runs, j + 1, id) {
      var i := Forgotten(runs, j + 1, k, id);
      assert ForgottenAt(runs, i, id);
    }
  }

  lemma {:induction false} StillDown(runs: seq<Run>, j: nat, k: nat, id: ProviderId)
    requires 0 < j <= k <= |runs| && Silent(runs, j - 1, k, id) && Down(runs, k, id)
    ensures Down(runs, j, id)
    decreases k
  {
    if j < k {
      assert Posts(runs, k - 1, id) == [];
      StillDown(runs, j, k - 1, id);
    }
  }

  lemma {:induction false} Forgotten(runs: seq<Run>, j: nat, k: nat, id: ProviderId) returns (i: nat)
    requires j <= k <= |runs| && Down(runs, j, id) && !Down(runs, k, id)
    ensures j <= i < k && Down(runs, i, id) && ForgottenAt(runs, i, id)
    decreases k
  {
    if Down(runs, k - 1, id) {
      i := k - 1;
    } else {
      i := Forgotten(runs, j, k - 1, id);
    }
  }

  /**
   * With a reliable file: exactly if a run between posted about somebody else while the provider was out of
   * sight.
   */
  lemma RepeatedAlertIffForgotten(runs: seq<Run>, j: nat, k: nat, id: ProviderId)
    requires j < k < |runs| && Silent(runs, j, k, id) && Reliable(runs)
    requires Posts(runs, j, id) == [Alert(id)] && Reads(runs[k], id) == NotServing
    ensures Posts(runs, k, id) == [Alert(id)] <==>
      exists i :: j < i < k && Changed(runs, i) && Reads(runs[i], id) == Absent
  {
    RepeatedAlertIff(runs, j, k, id);
    assert Changed(runs, j) && Down(runs, j + 1, id);
    if Posts(runs, k, id) == [Alert(id)] {
      var i := Forgotten(runs, j + 1, k, id);
      assert Posts(runs, i, id) == [];
    } else {
      forall i | j < i < k && Changed(runs, i) && Reads(runs[i], id) == Absent
        ensures ForgottenAt(runs, i, id)
      {
      }
    }
  }

  // ---- The program over sequences of runs ----

  /** What run `k` posts about the providers of its first `n` rows, in row order. */
  ghost function RowPosts(runs: seq<Run>, k: nat, n: nat): seq<Notice>
    requires k < |runs| && n <= |runs[k].rows|
  {
    if n == 0 then [] else RowPosts(runs, k, n - 1) + Posts(runs, k, runs[k].rows[n - 1].id)
  }

  ghost predicate FileIs(runs: seq<Run>, k: nat, file: set<ProviderId>)
    requires k <= |runs|
  {
    forall id {:trigger id in file} :: id in file <==> Down(runs, k, id)
  }

  lemma LoadedIsFound(runs: seq<Run>, k: nat, file: set<ProviderId>, id: ProviderId)
    requires k < |runs| && FileIs(runs, k, file)
    ensures id in Loaded(file, runs[k]) <==> Found(runs, k, id)
  {
    assert id in file <==> Down(runs, k, id);
  }

  lemma {:induction false} RowsPost(runs: seq<Run>, k: nat, before: set<ProviderId>, n: nat)
    requires k < |runs| && UniqueIds(runs[k]) && FileIs(runs, k, before) && n <= |runs[k].rows|
    ensures NoticesOf(Loaded(before, runs[k]), runs[k], n) == RowPosts(runs, k, n)
  {
    if n > 0 {
      RowsPost(runs, k, before, n - 1);
      ReadsRow(runs[k], n - 1);
      LoadedIsFound(runs, k, before, runs[k].rows[n - 1].id);
    }
  }

  lemma {:induction false} NoticesOfRows(state: set<ProviderId>, run: Run, n: nat, p: Notice)
    requires UniqueIds(run) && n <= |run.rows|
    ensures p in NoticesOf(state, run, n) <==>
      && p in NoticeOf(p.id in state, Reads(run, p.id), p.id)
      && exists i :: 0 <= i < n && run.rows[i].id == p.id
  {
    if n > 0 {
      NoticesOfRows(state, run, n - 1, p);
      ReadsRow(run, n - 1);
    }
  }

  /** A run posts something exactly if it changed something. */
  lemma PostsIfChanged(runs: seq<Run>, k: nat, file: set<ProviderId>)
    requires k < |runs| && UniqueIds(runs[k]) && FileIs(runs, k, file)
    ensures NoticesOf(Loaded(file, runs[k]), runs[k], |runs[k].rows|) != [] <==> Changed(runs, k)
  {
    var run, state := runs[k], Loaded(file, runs[k]);
    var posted := NoticesOf(state, run, |run.rows|);
    if Changed(runs, k) {
      var id: ProviderId :| NoticeOf(Found(runs, k, id), Reads(run, id), id) != [];
      var n := if Reads(run, id) == NotServing then Alert(id) else Recovery(id);
      LoadedIsFound(runs, k, file, id);
      NoticesOfRows(state, run, |run.rows|, n);
      assert n in posted;
    }
    if posted != [] {
      var n := posted[0];
      NoticesOfRows(state, run, |run.rows|, n);
      LoadedIsFound(runs, k, file, n.id);
      assert NoticeOf(Found(runs, k, n.id), Reads(run, n.id), n.id) != [];
    }
  }

  lemma RunFollows(runs: seq<Run>, k: nat, before: set<ProviderId>, after: set<ProviderId>)
    requires k < |runs| && UniqueIds(runs[k]) && FileIs(runs, k, before) && FileFollows(before, runs[k], after)
    ensures FileIs(runs, k + 1, after)
  {
    PostsIfChanged(runs, k, before);
    hide NoticesOf, Changed;
    forall id
      ensures id in after <==> Down(runs, k + 1, id)
    {
      assert id in before <==> Down(runs, k, id);
      assert Down(runs, k + 1, id)
        <==> if Rewritten(runs, k) then Reads(runs[k], id) == NotServing else Down(runs, k, id);
    }
  }

  lemma NothingDown(runs: seq<Run>)
    ensures FileIs(runs, 0, {})
  {
  }

  /** Runs `main` as cron does: the file and the posts, in row order, are those of the theorems above. */
  method Cron(runs: seq<Run>) returns (posted: seq<seq<Notice>>, file: set<ProviderId>)
    requires forall i :: 0 <= i < |runs| ==> UniqueIds(runs[i])
    ensures |posted| == |runs| && forall k :: 0 <= k < |runs| ==> posted[k] == RowPosts(runs, k, |runs[k].rows|)
    ensures FileIs(runs, |runs|, file)
  {
    hide FileIs, FileFollows, NoticesOf, RowPosts;
    var watch := new Watch();
    posted := [];
    NothingDown(runs);
    for k := 0 to |runs|
      invariant fresh(watch) && |posted| == k
      invariant FileIs(runs, k, watch.file)
      invariant forall i :: 0 <= i < k ==> posted[i] == RowPosts(runs, i, |runs[i].rows|)
    {
      var already := |watch.sent|;
      ghost var before := watch.file;
      var _ := watch.RunOnce(runs[k]);
      RowsPost(runs, k, before, |runs[k].rows|);
      RunFollows(runs, k, before, watch.file);
      posted := posted + [watch.sent[already..]];
      assert posted[k] == NoticesOf(Loaded(before, runs[k]), runs[k], |runs[k].rows|);
    }
    file := watch.file;
  }
}
