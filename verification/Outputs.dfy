/** Captured output: no two attempts of any run share a file, so pruning never removes a later attempt's output. */
module Outputs {
  import opened Models
  import opened Tables
  import opened Decimal
  import opened Transactions
  import opened JobCell
  import opened StoreSteps
  import opened Fleet
  import opened FleetInv
  import opened FleetDeeds
  import opened FleetKeeps
  import opened FleetRuns
  import opened Scenarios

  // ----- paths -----

  function OutputPath(root: string, j: nat, no: nat, stream: string): string {
    AttemptDir(root, j, no) + "/" + stream
  }

  /** A slash-free head is determined by the joined text. */
  lemma SlashSplit(x: string, y: string, x': string, y': string)
    requires '/' !in x && '/' !in x' && x + "/" + y == x' + "/" + y'
    ensures x == x' && y == y'
  {
    var a, b := x + "/" + y, x' + "/" + y';
    assert a[|x|] == '/' && b[|x'|] == '/';
    assert forall i :: 0 <= i < |x| ==> a[i] == x[i];
    assert forall i :: 0 <= i < |x'| ==> b[i] == x'[i];
    assert |x| == |x'|;
    assert x == a[..|x|] && x' == b[..|x'|];
    assert y == a[|x| + 1..] && y' == b[|x'| + 1..];
  }

  lemma Regroup(root: string, j: nat, n: nat, s: string)
    ensures OutputPath(root, j, n, s) == root + "/" + (Dec(j) + "/" + (Dec(n) + "/" + s))
  {
    hide Dec;
  }

  /** Job, attempt number and stream can be read off a path. */
  lemma PathsInjective(root: string, j: nat, n: nat, s: string, j': nat, n': nat, s': string)
    requires OutputPath(root, j, n, s) == OutputPath(root, j', n', s')
    ensures j == j' && n == n' && s == s'
  {
    var rest, rest' := Dec(n) + "/" + s, Dec(n') + "/" + s';
    var tail, tail' := Dec(j) + "/" + rest, Dec(j') + "/" + rest';
    Regroup(root, j, n, s);
    Regroup(root, j', n', s');
    hide OutputPath;
    assert tail == (root + "/" + tail)[|root| + 1..] && tail' == (root + "/" + tail')[|root| + 1..];
    SlashSplit(Dec(j), rest, Dec(j'), rest');
    SlashSplit(Dec(n), s, Dec(n'), s');
    DecInjective(j, j');
    DecInjective(n, n');
  }

  // ----- the paths on record -----

  ghost predicate PathsOf(root: string, j: nat, rows: seq<Attempt>) {
    forall k :: 0 <= k < |rows| ==>
      && rows[k].stdoutPath == OutputPath(root, j, k + 1, "stdout")
      && rows[k].stderrPath == OutputPath(root, j, k + 1, "stderr")
  }

  ghost predicate PathsOk(s: Sys) {
    forall j <- s.db.jobs :: PathsOf(s.root, j, Rows(s, j))
  }

  lemma ActKeepsPaths(root: string, j: nat, c: Cell, a: Act)
    requires PathsOf(root, j, c.attempts)
    requires a.Claim? ==> PathsOf(root, j, c.attempts + [a.row])
    ensures PathsOf(root, j, Effect(c, a).attempts)
  {
    hide OutputPath;
  }

  lemma NewAttemptPaths(root: string, j: nat, rows: seq<Attempt>, id: nat, wid: string, pid: Pid, now: Time)
    requires PathsOf(root, j, rows)
    ensures PathsOf(root, j, rows + [NewAttempt(id, j, |rows| + 1, wid, pid, now, root)])
  {
    var dir := AttemptDir(root, j, |rows| + 1);
    assert dir + "/stdout" == dir + "/" + "stdout" && dir + "/stderr" == dir + "/" + "stderr";
  }

  lemma PathsStep(s: Sys, st: Step)
    requires Inv(s) && PathsOk(s) && Enabled(s, st)
    ensures PathsOk(Next(s, st)) && Next(s, st).root == s.root
  {
    hide Inv, AttemptsOf, LogOf, Next, Enabled, PathsOf;
    var t := Next(s, st);
    SameRoot(s, st);
    forall j <- t.db.jobs
      ensures PathsOf(t.root, j, Rows(t, j))
    {
      JobPaths(s, st, j);
    }
  }

  lemma SameRoot(s: Sys, st: Step)
    requires Enabled(s, st)
    ensures Next(s, st).root == s.root
  {
    hide AttemptsOf, ClaimNext, RecordOf, Reap, PruneDelete, AddJob, RetryJob, CancelJob, UpdateHeartbeat, ListsStale;
  }

  lemma JobPaths(s: Sys, st: Step, j: nat)
    requires Inv(s) && PathsOk(s) && Enabled(s, st) && j in Next(s, st).db.jobs
    ensures PathsOf(s.root, j, Rows(Next(s, st), j))
  {
    hide Inv, AttemptsOf, LogOf, Effect, CanAct, NewAttempt, PathsOf, FreshCell, Next, Enabled;
    if j in s.db.jobs {
      JobStep(s, st, j);
      FateSource(s, st, j);
      var f := FateOf(s, st, j);
      if f.Acts? {
        if f.act.Claim? {
          ClaimedRowIs(s, st, j);
          NewAttemptPaths(s.root, j, Rows(s, j), s.db.nextAttempt, s.procs[st.pid].workerId, st.pid, st.now);
        }
        ActKeepsPaths(s.root, j, CellOf(s.db, j), f.act);
      }
    } else {
      NewJobStep(s, st, j);
      assert FreshCell(st.sub, st.now).attempts == [] by { NoAttemptsYet(st.sub, st.now); }
      assert PathsOf(s.root, j, []) by { NoPathsYet(s.root, j); }
    }
  }

  lemma ClaimedRowIs(s: Sys, st: Step, j: nat)
    requires Enabled(s, st) && st.ClaimJob? && FateOf(s, st, j).Acts?
    ensures st.pid in s.procs && FateOf(s, st, j).act ==
      Claim(NewAttempt(s.db.nextAttempt, j, |Rows(s, j)| + 1, s.procs[st.pid].workerId, st.pid, st.now, s.root))
  {
    hide AttemptsOf, Grant, Pick, NewAttempt, MaxAttemptNo;
  }

  lemma NoAttemptsYet(sub: Submission, now: Time)
    ensures FreshCell(sub, now).attempts == []
  {
  }

  lemma NoPathsYet(root: string, j: nat)
    ensures PathsOf(root, j, [])
  {
  }

  lemma {:induction false} PathsOverRun(s: Sys, steps: seq<Step>)
    requires Inv(s) && PathsOk(s) && Legal(s, steps)
    ensures PathsOk(After(s, steps)) && After(s, steps).root == s.root
  {
    hide Inv, Next, Enabled, PathsOk;
    if steps != [] {
      PathsOverRun(s, Front(steps));
      RunInv(s, Front(steps));
      PathsStep(After(s, Front(steps)), Last(steps));
    }
  }

  lemma ReachablePaths(s: Sys)
    requires Reachable(s)
    ensures PathsOk(s)
  {
    hide Inv, Legal, After, PathsOf;
    var root: string, clock: Time, steps: seq<Step> :|
      Legal(Init(root, clock), steps) && After(Init(root, clock), steps) == s;
    InitInv(root, clock);
    assert PathsOk(Init(root, clock));
    PathsOverRun(Init(root, clock), steps);
  }

  // ----- the record of all claims only grows -----

  ghost predicate Extends(s: Sys, t: Sys) {
    s.db.nextAttempt <= t.db.nextAttempt && forall a <- s.epochs :: a in t.epochs && t.epochs[a] == s.epochs[a]
  }

  lemma EpochsStep(s: Sys, st: Step)
    requires Inv(s) && Enabled(s, st)
    ensures Extends(s, Next(s, st))
  {
    hide DbInv, ProcsOk, NumbersUnique, HoldingsOk, RowsOnRecord, RecordsRetained, AttemptsOf, LogOf;
    hide RecordOf, Reap, PruneDelete, AddJob, RetryJob, CancelJob, UpdateHeartbeat, Pick, ListsStale, Performs;
    StepDeed(s, st);
    StepCounters(s, st);
    assert EpochsOk(s);
    assert s.db.nextAttempt !in s.epochs;
  }

  lemma {:induction false} EpochsOverRun(s: Sys, steps: seq<Step>)
    requires Inv(s) && Legal(s, steps)
    ensures Extends(s, After(s, steps))
  {
    hide Inv, Next, Enabled;
    if steps != [] {
      EpochsOverRun(s, Front(steps));
      RunInv(s, Front(steps));
      EpochsStep(After(s, Front(steps)), Last(steps));
    }
  }

  // ----- theorems -----

  /** A retained attempt's files are named after its job and number. */
  lemma RowPaths(s: Sys, j: nat, k: nat)
    requires Reachable(s) && j in s.db.jobs && k < |Rows(s, j)|
    ensures Rows(s, j)[k].stdoutPath == OutputPath(s.root, j, k + 1, "stdout")
    ensures Rows(s, j)[k].stderrPath == OutputPath(s.root, j, k + 1, "stderr")
    ensures Rows(s, j)[k].id in s.epochs && s.epochs[Rows(s, j)[k].id].job == j
      && s.epochs[Rows(s, j)[k].id].no == k + 1
  {
    ReachablePaths(s);
    ReachableInv(s);
    hide Reachable, DbInv, ProcsOk, NumbersUnique, HoldingsOk, RecordsRetained, AttemptsOf, OutputPath;
    assert PathsOf(s.root, j, Rows(s, j));
    assert RowsOnRecord(s);
  }

  /** In every reachable state an attempt's files stand under the output root in the directory of its job, and there in
      the directory of its number. */
  lemma OutputLayout(s: Sys, j: nat, k: nat)
    requires Reachable(s) && j in s.db.jobs && k < |Rows(s, j)|
    ensures Rows(s, j)[k].stdoutPath == s.root + "/" + Dec(j) + "/" + Dec(k + 1) + "/stdout"
    ensures Rows(s, j)[k].stderrPath == s.root + "/" + Dec(j) + "/" + Dec(k + 1) + "/stderr"
  {
    hide Reachable, AttemptsOf, Dec;
    RowPaths(s, j, k);
    var dir := AttemptDir(s.root, j, k + 1);
    assert dir + "/" + "stdout" == dir + "/stdout" && dir + "/" + "stderr" == dir + "/stderr";
  }

  /** No two attempts ever made in a run, pruned or not, have an output file in common. */
  lemma OutputsAreNeverShared(s: Sys, a: nat, b: nat, x: string, y: string)
    requires Reachable(s) && a in s.epochs && b in s.epochs
    requires OutputPath(s.root, s.epochs[a].job, s.epochs[a].no, x)
      == OutputPath(s.root, s.epochs[b].job, s.epochs[b].no, y)
    ensures a == b && x == y
  {
    PathsInjective(s.root, s.epochs[a].job, s.epochs[a].no, x, s.epochs[b].job, s.epochs[b].no, y);
    ReachableInv(s);
    hide Reachable, DbInv, ProcsOk, EpochsOk, HoldingsOk, OutputPath;
  }

  // ----- what a prune unlinks -----

  /** `SELECT id FROM jobs WHERE state IN (...) AND finished_at < ? ORDER BY id`. */
  function MatchedIds(db: Db, states: set<JobState>, cutoff: Time, bound: nat): (ids: seq<nat>)
    ensures forall j: nat :: j in ids <==>
      && j < bound && j in db.jobs && db.jobs[j].state in states
      && db.jobs[j].finishedAt.Some? && db.jobs[j].finishedAt.value < cutoff
    ensures forall i :: 0 <= i < |ids| ==> ids[i] < bound && ids[i] in db.jobs
    ensures forall i, k :: 0 <= i < k < |ids| ==> ids[i] < ids[k]
  {
    if bound == 0 then []
    else
      var below := MatchedIds(db, states, cutoff, bound - 1);
      if Prunable(db, bound - 1, states, cutoff) then below + [bound - 1] else below
  }

  function IdsOf(db: Db, states: set<JobState>, cutoff: Time): seq<nat> {
    MatchedIds(db, states, cutoff, db.nextJob)
  }

  /** A matched job with the output paths that were listed for it. */
  datatype Match = Match(job: nat, paths: seq<(string, string)>)

  function PathsIn(rows: seq<Attempt>): seq<(string, string)> {
    seq(|rows|, k requires 0 <= k < |rows| => (rows[k].stdoutPath, rows[k].stderrPath))
  }

  /** The scan of a prune. The ids come from one SELECT, on the first view, and the attempts of each matched job
      from a SELECT of their own, on the view that follows. */
  method PruneMatches(views: seq<Db>, states: set<JobState>, cutoff: Time) returns (out: seq<Match>)
    requires views != [] && |views| == |IdsOf(views[0], states, cutoff)| + 1
    ensures out == MatchesOf(views, IdsOf(views[0], states, cutoff))
  {
    var ids := IdsOf(views[0], states, cutoff);
    out := [];
    for i := 0 to |ids|
      invariant |out| == i
      invariant forall m :: 0 <= m < i ==> out[m] == Match(ids[m], PathsIn(AttemptsOf(views[m + 1].attempts, ids[m])))
    {
      var rows, paths := AttemptsOf(views[i + 1].attempts, ids[i]), [];
      for k := 0 to |rows|
        invariant paths == PathsIn(rows)[..k]
      {
        paths := paths + [(rows[k].stdoutPath, rows[k].stderrPath)];
      }
      out := out + [Match(ids[i], paths)];
    }
  }

  function MatchesOf(views: seq<Db>, ids: seq<nat>): seq<Match>
    requires |views| == |ids| + 1
  {
    seq(|ids|, i requires 0 <= i < |ids| => Match(ids[i], PathsIn(AttemptsOf(views[i + 1].attempts, ids[i]))))
  }

  /** The files that the prune removes, before it deletes any row. */
  ghost predicate Unlinks(matches: seq<Match>, path: string) {
    exists i, k :: 0 <= i < |matches| && 0 <= k < |matches[i].paths|
                && (path == matches[i].paths[k].0 || path == matches[i].paths[k].1)
  }

  /** The reads of a scan see the states of one run: the ids `world[0]`, the attempts of `ids[i]` `world[i + 1]`;
      whatever else happens between two reads is in `gaps`. */
  ghost predicate Scans(world: seq<Sys>, gaps: seq<seq<Step>>, ids: seq<nat>) {
    && |world| == |ids| + 1 && |gaps| == |ids|
    && (forall i :: 0 <= i < |world| ==> Reachable(world[i]))
    && (forall i :: 0 <= i < |gaps| ==> Legal(world[i], gaps[i]) && After(world[i], gaps[i]) == world[i + 1])
  }

  function ViewsOf(world: seq<Sys>): seq<Db> {
    seq(|world|, i requires 0 <= i < |world| => world[i].db)
  }

  /** The run from any read to the state after the scan. */
  lemma {:induction false} FromRead(world: seq<Sys>, gaps: seq<seq<Step>>, ids: seq<nat>, rest: seq<Step>, i: nat)
    returns (steps: seq<Step>)
    requires Scans(world, gaps, ids) && i < |world| && Legal(Last(world), rest)
    ensures Legal(world[i], steps) && After(world[i], steps) == After(Last(world), rest)
    decreases |world| - i
  {
    hide Legal, After, Reachable;
    if i == |world| - 1 {
      steps := rest;
    } else {
      var later := FromRead(world, gaps, ids, rest, i + 1);
      JoinRun(world[i], gaps[i], later);
      steps := gaps[i] + later;
    }
  }

  /** Read in `w`, the listed paths of job `j` include a file of an attempt that is retained later exactly if the
      attempt is one of that job and was claimed before the read. */
  lemma ListedExactly(w: Sys, steps: seq<Step>, i: nat, j: nat, k: nat, stream: string)
    requires Reachable(w) && Legal(w, steps) && i < w.db.nextJob && (stream == "stdout" || stream == "stderr")
    requires j in After(w, steps).db.jobs && k < |Rows(After(w, steps), j)|
    ensures var row, path := Rows(After(w, steps), j)[k], OutputPath(w.root, j, k + 1, stream);
      (exists m :: 0 <= m < |Rows(w, i)| && (path == Rows(w, i)[m].stdoutPath || path == Rows(w, i)[m].stderrPath))
      <==> i == j && row.id < w.db.nextAttempt
  {
    hide Reachable, Legal, After, Inv, AttemptsOf, OutputPath;
    var t := After(w, steps);
    var row, path := Rows(t, j)[k], OutputPath(w.root, j, k + 1, stream);
    ReachableOn(w, steps);
    ReachableInv(w);
    EpochsOverRun(w, steps);
    PathsOverRunRoot(w, steps);
    RowPaths(t, j, k);
    if m :| 0 <= m < |Rows(w, i)| && (path == Rows(w, i)[m].stdoutPath || path == Rows(w, i)[m].stderrPath) {
      if i !in w.db.jobs {
        NoRowsLeft(w, i);
        assert false;
      }
      RowPaths(w, i, m);
      var y := if path == Rows(w, i)[m].stdoutPath then "stdout" else "stderr";
      OutputsAreNeverShared(t, row.id, Rows(w, i)[m].id, stream, y);
      OldIds(w, Rows(w, i)[m].id);
    }
    if i == j && row.id < w.db.nextAttempt {
      if j !in w.db.jobs {
        GoneForGood(w, steps, j);
        assert false;
      }
      OldIds(t, row.id);
      OnRecord(w, row.id);
      RowPaths(w, j, k);
    }
  }

  lemma OnRecord(s: Sys, a: nat)
    requires Reachable(s) && 0 < a < s.db.nextAttempt
    ensures a in s.epochs
    ensures s.epochs[a].job in s.db.jobs ==> 0 < s.epochs[a].no <= |Rows(s, s.epochs[a].job)|
  {
    ReachableInv(s);
    hide Reachable, DbInv, ProcsOk, NumbersUnique, HoldingsOk, RowsOnRecord, AttemptsOf;
  }

  /** What a prune removes, exactly. Whatever happens between its reads and after them: an attempt that is retained
      in the end loses its output if and only if its job matched in the first read and the attempt was claimed before
      that job's attempts were read. */
  lemma PruneUnlinksExactly(world: seq<Sys>, gaps: seq<seq<Step>>, rest: seq<Step>, states: set<JobState>, cutoff: Time,
                            j: nat, k: nat, stream: string)
    requires world != [] && Scans(world, gaps, IdsOf(world[0].db, states, cutoff)) && Legal(Last(world), rest)
    requires j in After(Last(world), rest).db.jobs && k < |Rows(After(Last(world), rest), j)|
    requires stream == "stdout" || stream == "stderr"
    ensures var ids := IdsOf(world[0].db, states, cutoff);
      Unlinks(MatchesOf(ViewsOf(world), ids), OutputPath(world[0].root, j, k + 1, stream)) <==>
      exists i :: 0 <= i < |ids| && ids[i] == j && Rows(After(Last(world), rest), j)[k].id < world[i + 1].db.nextAttempt
  {
    hide Reachable, Legal, After, AttemptsOf, OutputPath, MatchedIds;
    var ids := IdsOf(world[0].db, states, cutoff);
    var path := OutputPath(world[0].root, j, k + 1, stream);
    var row := Rows(After(Last(world), rest), j)[k];
    forall i | 0 <= i < |ids|
      ensures ListedIn(Rows(world[i + 1], ids[i]), path) <==> ids[i] == j && row.id < world[i + 1].db.nextAttempt
    {
      ListedByRead(world, gaps, ids, rest, i, j, k, stream);
    }
    UnlinksIsListed(world, ids, path);
  }

  ghost predicate ListedIn(rows: seq<Attempt>, path: string) {
    exists m :: 0 <= m < |rows| && (path == rows[m].stdoutPath || path == rows[m].stderrPath)
  }

  lemma UnlinksIsListed(world: seq<Sys>, ids: seq<nat>, path: string)
    requires |world| == |ids| + 1
    ensures Unlinks(MatchesOf(ViewsOf(world), ids), path) <==>
      exists i :: 0 <= i < |ids| && ListedIn(Rows(world[i + 1], ids[i]), path)
  {
    hide AttemptsOf;
    var matches := MatchesOf(ViewsOf(world), ids);
    forall i | 0 <= i < |ids|
      ensures matches[i].paths == PathsIn(Rows(world[i + 1], ids[i]))
    {
    }
    if i :| 0 <= i < |ids| && ListedIn(Rows(world[i + 1], ids[i]), path) {
      var rows := Rows(world[i + 1], ids[i]);
      var m :| 0 <= m < |rows| && (path == rows[m].stdoutPath || path == rows[m].stderrPath);
      assert matches[i].paths[m] == (rows[m].stdoutPath, rows[m].stderrPath);
    }
    if i, m :| 0 <= i < |matches| && 0 <= m < |matches[i].paths|
               && (path == matches[i].paths[m].0 || path == matches[i].paths[m].1) {
      var rows := Rows(world[i + 1], ids[i]);
      assert matches[i].paths[m] == (rows[m].stdoutPath, rows[m].stderrPath);
      assert ListedIn(rows, path);
    }
  }

  lemma ListedByRead(world: seq<Sys>, gaps: seq<seq<Step>>, ids: seq<nat>, rest: seq<Step>, i: nat, j: nat, k: nat,
                     stream: string)
    requires Scans(world, gaps, ids) && i < |ids| && Legal(Last(world), rest)
    requires ids[i] in world[0].db.jobs && (stream == "stdout" || stream == "stderr")
    requires j in After(Last(world), rest).db.jobs && k < |Rows(After(Last(world), rest), j)|
    ensures ListedIn(Rows(world[i + 1], ids[i]), OutputPath(world[0].root, j, k + 1, stream)) <==>
      ids[i] == j && Rows(After(Last(world), rest), j)[k].id < world[i + 1].db.nextAttempt
  {
    hide Reachable, Legal, After, AttemptsOf, OutputPath;
    SameWorld(world, gaps, ids, i + 1, ids[i]);
    var steps := FromRead(world, gaps, ids, rest, i + 1);
    ListedExactly(world[i + 1], steps, ids[i], j, k, stream);
  }

  /** Along the reads the output root stays the same and no number is handed out twice. */
  lemma {:induction false} SameWorld(world: seq<Sys>, gaps: seq<seq<Step>>, ids: seq<nat>, i: nat, j: nat)
    requires Scans(world, gaps, ids) && i < |world| && j in world[0].db.jobs
    ensures world[i].root == world[0].root && j < world[i].db.nextJob
  {
    hide Reachable, Legal, After;
    if i == 0 {
      JobNumber(world[0], j);
    } else {
      SameWorld(world, gaps, ids, i - 1, j);
      assert After(world[i - 1], gaps[i - 1]) == world[i - 1 + 1];
      PathsOverRunRoot(world[i - 1], gaps[i - 1]);
      NumbersGrow(world[i - 1], gaps[i - 1]);
    }
  }

  lemma {:induction false} NumbersGrow(s: Sys, steps: seq<Step>)
    requires Reachable(s) && Legal(s, steps)
    ensures s.db.nextJob <= After(s, steps).db.nextJob
  {
    hide Reachable, Inv, Next, Enabled;
    if steps != [] {
      NumbersGrow(s, Front(steps));
      ReachableOn(s, Front(steps));
      ReachableInv(After(s, Front(steps)));
      NextJobGrows(After(s, Front(steps)), Last(steps));
    }
  }

  lemma NextJobGrows(s: Sys, st: Step)
    requires Inv(s) && Enabled(s, st)
    ensures s.db.nextJob <= Next(s, st).db.nextJob
  {
    hide Inv, DbInv, Next, Enabled, Tidy, CanAct, Effect, AttemptsOf, LogOf;
    StepDeed(s, st);
  }

  /** So a prune never removes output of an attempt that was claimed after its job's attempts were read, in
      particular not of one that was claimed after the whole scan. */
  lemma PruneSparesLaterOutput(world: seq<Sys>, gaps: seq<seq<Step>>, rest: seq<Step>, states: set<JobState>,
                               cutoff: Time, j: nat, k: nat, stream: string)
    requires world != [] && Scans(world, gaps, IdsOf(world[0].db, states, cutoff)) && Legal(Last(world), rest)
    requires j in After(Last(world), rest).db.jobs && k < |Rows(After(Last(world), rest), j)|
    requires stream == "stdout" || stream == "stderr"
    requires var ids := IdsOf(world[0].db, states, cutoff);
      forall i :: 0 <= i < |ids| && ids[i] == j ==>
        Rows(After(Last(world), rest), j)[k].id >= world[i + 1].db.nextAttempt
    ensures !Unlinks(MatchesOf(ViewsOf(world), IdsOf(world[0].db, states, cutoff)),
                     OutputPath(world[0].root, j, k + 1, stream))
  {
    hide Reachable, Legal, After, AttemptsOf, OutputPath, MatchedIds, Unlinks, MatchesOf, ViewsOf;
    PruneUnlinksExactly(world, gaps, rest, states, cutoff, j, k, stream);
  }

  /** A job that is retried and claimed between the two reads: the prune unlinks the output of a running attempt. */
  lemma PruneCanUnlinkRunning(sub: Submission)
    requires sub.spec.maxRetries == 0
    ensures exists s: Sys, steps, cutoff: Time ::
      (SteadilyReachable(s) && Legal(s, steps) && SteadyRun(s, steps) && IdsOf(s.db, {Dead}, cutoff) == [1]
       && RunningUnlinked(s, After(s, steps), cutoff))
  {
    hide Legal, After, SteadyRun, SteadilyReachable, Reachable, AttemptsOf, RunningUnlinked;
    var first := DiesOfOne(sub);
    var s := After(Init("out", 0), first);
    var steps := RetryAndClaim(s, sub.spec);
    var t := After(s, steps);
    ReachableOn(s, steps);
    NewestRuns(t, 1);
    OnlyOne(s.db, {Dead}, s.clock + 1);
    RunningIsUnlinked(s, t, s.clock + 1);
  }

  /** Scanned in `s`, with the attempts of job 1 read in `t`, job 1 runs in `t` and its newest output is removed. */
  ghost predicate RunningUnlinked(s: Sys, t: Sys, cutoff: Time) {
    && IdsOf(s.db, {Dead}, cutoff) == [1]
    && 1 in t.db.jobs && t.db.jobs[1].state.Running? && Rows(t, 1) != [] && Last(Rows(t, 1)).state.AttRunning?
    && Unlinks(MatchesOf([s.db, t.db], [1]), Last(Rows(t, 1)).stdoutPath)
  }

  lemma OnlyOne(db: Db, states: set<JobState>, cutoff: Time)
    requires db.nextJob == 2 && db.jobs.Keys == {1} && Prunable(db, 1, states, cutoff)
    ensures IdsOf(db, states, cutoff) == [1]
  {
    assert MatchedIds(db, states, cutoff, 1) == [];
  }

  lemma RunningIsUnlinked(s: Sys, t: Sys, cutoff: Time)
    requires IdsOf(s.db, {Dead}, cutoff) == [1]
    requires 1 in t.db.jobs && t.db.jobs[1].state.Running? && Rows(t, 1) != [] && Last(Rows(t, 1)).state.AttRunning?
    ensures RunningUnlinked(s, t, cutoff)
  {
    hide AttemptsOf;
    var matches, rows := MatchesOf([s.db, t.db], [1]), Rows(t, 1);
    assert matches[0].paths[|rows| - 1] == (Last(rows).stdoutPath, Last(rows).stderrPath);
  }

  lemma OldIds(s: Sys, a: nat)
    requires Reachable(s) && a in s.epochs
    ensures 0 < a < s.db.nextAttempt
  {
    ReachableInv(s);
    hide Reachable, DbInv, ProcsOk, NumbersUnique, HoldingsOk, RowsOnRecord, RecordsRetained;
    assert EpochsOk(s);
  }

  lemma PathsOverRunRoot(s: Sys, steps: seq<Step>)
    requires Reachable(s) && Legal(s, steps)
    ensures After(s, steps).root == s.root
  {
    hide Reachable, Legal, After, Inv, PathsOk;
    ReachablePaths(s);
    ReachableInv(s);
    PathsOverRun(s, steps);
  }
}
