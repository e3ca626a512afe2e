/** Pieces of concrete runs around a single job: a submission, a worker that takes the job, fails or dies, and the
    reaper that comes after it. Results that say a condition is needed, or a bound is reached, put them together. */
module Scenarios {
  import opened Models
  import opened Tables
  import opened Transactions
  import opened StoreSteps
  import opened Fleet
  import opened FleetRuns

  /** The operators retry nothing and cancel nothing. */
  predicate Unattended(steps: seq<Step>) {
    forall st <- steps :: !st.RetryOne? && !st.CancelOne?
  }

  lemma EmptyRun(s: Sys)
    ensures Legal(s, []) && SteadyRun(s, []) && After(s, []) == s
  {
  }

  lemma ExtendRun(s: Sys, steps: seq<Step>, st: Step)
    requires Legal(s, steps) && Enabled(After(s, steps), st)
    ensures Legal(s, steps + [st]) && After(s, steps + [st]) == Next(After(s, steps), st)
    ensures SteadyRun(s, steps) && Steady(After(s, steps), st) ==> SteadyRun(s, steps + [st])
  {
    hide Next, Enabled, Steady;
    assert Front(steps + [st]) == steps && Last(steps + [st]) == st;
  }

  lemma StartReachable(s: Sys, steps: seq<Step>)
    requires s == Init(s.root, s.clock) && Legal(s, steps)
    ensures Reachable(After(s, steps))
    ensures SteadyRun(s, steps) ==> SteadilyReachable(After(s, steps))
  {
  }

  lemma FirstJob(sub: Submission)
    ensures var db := AddJob(EMPTY, sub, 0).0;
      db.jobs.Keys == {1} && db.nextJob == 2 && db.jobs[1] == NewRow(sub, 0)
  {
  }

  /** The only job is number 1; it is queued in the lane and due. */
  predicate OneWaits(s: Sys, lane: string) {
    && s.db.jobs.Keys == {1} && s.db.nextJob == 2
    && s.db.jobs[1].state.Queued? && s.db.jobs[1].nextRunAt <= s.clock && s.db.jobs[1].spec.queue == lane
  }

  /** A new worker that has finished its reap pass without a suspect. */
  function Arrived(s: Sys, pid: Pid, wid: string): Sys {
    s.(procs := s.procs[pid := Proc(|s.births|, wid, s.clock, s.db.nextAttempt, Sweeping(s.clock, s.clock - 30, []))],
       births := s.births + [s.clock])
  }

  lemma NewWorkerArrives(s: Sys, pid: Pid, wid: string, lane: string) returns (steps: seq<Step>)
    requires OneWaits(s, lane) && pid !in s.procs
    ensures Legal(s, steps) && SteadyRun(s, steps) && Unattended(steps) && After(s, steps) == Arrived(s, pid, wid)
  {
    hide Legal, After, SteadyRun;
    var a, b, c := Spawn(pid, wid), StartPass(pid, s.clock, 30), ScanStale(pid, []);
    EmptyRun(s);
    ExtendRun(s, [], a);
    ExtendRun(s, [] + [a], b);
    ExtendRun(s, [] + [a] + [b], c);
    steps := [] + [a] + [b] + [c];
  }

  /** A new worker that starts while the only job waits ends up executing it; nobody else moves. */
  lemma NewWorkerTakesIt(s: Sys, pid: Pid, wid: string, lane: string) returns (steps: seq<Step>)
    requires OneWaits(s, lane) && pid !in s.procs
    ensures Legal(s, steps) && SteadyRun(s, steps) && Unattended(steps)
    ensures var t := After(s, steps);
      && t.procs.Keys == s.procs.Keys + {pid} && Executes(t, pid, 1)
      && (forall q <- s.procs :: t.procs[q] == s.procs[q])
      && t.procs[pid].workerId == wid && t.procs[pid].floor == t.clock == s.clock && t.db.nextJob == 2
      && t.db.jobs == map[1 := ClaimedRow(s.db.jobs[1], wid, pid, s.clock)]
      && OneMore(Rows(s, 1), Rows(t, 1))
  {
    hide Legal, After, SteadyRun, AttemptsOf, MaxAttemptNo, Grant;
    var d := ClaimJob(pid, s.clock, lane, None);
    var there := NewWorkerArrives(s, pid, wid, lane);
    ExtendRun(s, there, d);
    steps := there + [d];
    assert Due(s.db, 1, lane, s.clock);
    assert Pick(s.db, lane, s.clock, 2) == Some(1);
    GrantRow(s.db, wid, pid, s.clock, s.root);
  }

  /** One attempt was added. */
  predicate OneMore(was: seq<Attempt>, now: seq<Attempt>) {
    now != [] && Front(now) == was
  }

  lemma GrantRow(db: Db, wid: string, pid: Pid, now: Time, root: string)
    requires 1 in db.jobs
    ensures var next := Grant(db, 1, wid, pid, now, root);
      && next.jobs == db.jobs[1 := ClaimedRow(db.jobs[1], wid, pid, now)] && next.nextJob == db.nextJob
      && OneMore(AttemptsOf(db.attempts, 1), AttemptsOf(next.attempts, 1))
  {
    hide AttemptsOf, MaxAttemptNo, AttemptDir;
    var no := MaxAttemptNo(AttemptsOf(db.attempts, 1)) + 1;
    AttemptsOfAppend(db.attempts, NewAttempt(db.nextAttempt, 1, no, wid, pid, now, root), 1);
  }

  /** Job 1 is the only one and nobody is alive. */
  predicate Deserted(s: Sys, spec: Spec) {
    s.procs == map[] && s.db.jobs.Keys == {1} && s.db.nextJob == 2 && s.db.jobs[1].spec == spec
  }

  /** Job 1 is the only one and process 7, alone, has just claimed it. */
  predicate JustClaimed(s: Sys, row: Job) {
    && s.procs.Keys == {7} && Executes(s, 7, 1) && s.procs[7].workerId == "a" && s.procs[7].floor == s.clock
    && s.db.jobs == map[1 := ClaimedRow(row, "a", 7, s.clock)] && s.db.nextJob == 2
  }

  /** Once the job is due, a new worker claims it. */
  lemma WaitAndClaim(s: Sys, spec: Spec) returns (steps: seq<Step>)
    requires Deserted(s, spec) && s.db.jobs[1].state.Queued?
    ensures Legal(s, steps) && SteadyRun(s, steps) && Unattended(steps) && JustClaimed(After(s, steps), s.db.jobs[1])
    ensures OneMore(Rows(s, 1), Rows(After(s, steps), 1))
    ensures After(s, steps).clock == Max(s.clock, s.db.jobs[1].nextRunAt)
  {
    hide Legal, After, SteadyRun;
    var wait := Tick(Max(s.clock, s.db.jobs[1].nextRunAt));
    EmptyRun(s);
    ExtendRun(s, [], wait);
    var rest := NewWorkerTakesIt(Next(s, wait), 7, "a", spec.queue);
    JoinRun(s, [] + [wait], rest);
    steps := [] + [wait] + rest;
  }

  /** The worker records an exit code of 1 and leaves. */
  lemma FailAndLeave(s: Sys, row: Job) returns (steps: seq<Step>)
    requires JustClaimed(s, row)
    ensures Legal(s, steps) && SteadyRun(s, steps) && Unattended(steps)
    ensures var t := After(s, steps);
      && t.procs == map[] && t.db.nextJob == 2 && t.clock == s.clock
      && t.db.jobs == map[1 := FailedRow(ClaimedRow(row, "a", 7, s.clock), Some(1), "exit 1", s.clock)]
  {
    hide Legal, After, SteadyRun, CloseWhere, ClaimedRow, FailedRow;
    var a, b := RecordResult(7, Exit(1, "exit 1"), s.clock), Die(7);
    EmptyRun(s);
    ClaimedOwned(row, s.clock);
    ExtendRun(s, [], a);
    ExtendRun(s, [] + [a], b);
    steps := [] + [a] + [b];
  }

  lemma ClaimedOwned(row: Job, now: Time)
    ensures var c := ClaimedRow(row, "a", 7, now);
      c.state.Running? && c.lockedBy == Some("a") && c.lockedPid == Some(7) && c.heartbeatAt == Some(now)
  {
  }

  /** A reaper that starts one second after the worker died, up to the confirmed death. */
  function Reaping(s: Sys, now: Time, phase: Phase): Sys {
    s.(procs := map[8 := Proc(|s.births|, "r", now, s.db.nextAttempt, phase)],
       clock := now, births := s.births + [now])
  }

  lemma DieAndMark(s: Sys, row: Job) returns (steps: seq<Step>)
    requires JustClaimed(s, row)
    ensures Legal(s, steps) && SteadyRun(s, steps) && Unattended(steps)
    ensures After(s, steps) == Reaping(s, s.clock + 1, Marked(s.clock + 1, s.clock + 1))
  {
    hide Legal, After, SteadyRun, ClaimedRow, ListsStale;
    var now := s.clock + 1;
    var a, b, c, d := Die(7), Tick(now), Spawn(8, "r"), StartPass(8, now, 0);
    EmptyRun(s);
    ExtendRun(s, [], a);
    ExtendRun(s, [] + [a], b);
    ExtendRun(s, [] + [a] + [b], c);
    ExtendRun(s, [] + [a] + [b] + [c], d);
    steps := [] + [a] + [b] + [c] + [d];
  }

  lemma DieAndConfirm(s: Sys, row: Job) returns (steps: seq<Step>)
    requires JustClaimed(s, row)
    ensures Legal(s, steps) && SteadyRun(s, steps) && Unattended(steps)
    ensures After(s, steps) ==
      Reaping(s, s.clock + 1, Confirmed(s.clock + 1, s.clock + 1, Suspect(1, 7), [], |s.births| + 1))
  {
    hide Legal, After, SteadyRun, ClaimedRow;
    ClaimedOwned(row, s.clock);
    var first := DieAndMark(s, row);
    var a, b := ScanStale(8, [Suspect(1, 7)]), ProbeOwner(8, true);
    ExtendRun(s, first, a);
    ExtendRun(s, first + [a], b);
    steps := first + [a] + [b];
    assert [Suspect(1, 7)][1..] == [];
  }

  /** The worker dies, and a reaper finds the stale row, confirms the death, reaps and leaves. */
  lemma CrashAndReap(s: Sys, row: Job) returns (steps: seq<Step>)
    requires JustClaimed(s, row)
    ensures Legal(s, steps) && SteadyRun(s, steps) && Unattended(steps)
    ensures var t := After(s, steps);
      && t.procs == map[] && t.db.nextJob == 2
      && t.db.jobs == map[1 := ReapedRow(ClaimedRow(row, "a", 7, s.clock), s.clock + 1)]
  {
    hide Legal, After, SteadyRun, CloseWhere, ClaimedRow, ReapedRow;
    ClaimedOwned(row, s.clock);
    var first := DieAndConfirm(s, row);
    var a, b := ReapStale(8), Die(8);
    ExtendRun(s, first, a);
    ExtendRun(s, first + [a], b);
    steps := first + [a] + [b];
  }

  /** A settled job is retried, and a new worker claims it. */
  lemma RetryAndClaim(s: Sys, spec: Spec) returns (steps: seq<Step>)
    requires Deserted(s, spec) && (s.db.jobs[1].state.Dead? || s.db.jobs[1].state.Canceled?)
    ensures Legal(s, steps) && SteadyRun(s, steps) && JustClaimed(After(s, steps), RetriedRow(s.db.jobs[1], s.clock))
    ensures OneMore(Rows(s, 1), Rows(After(s, steps), 1))
  {
    hide Legal, After, SteadyRun, AttemptsOf;
    var retry := RetryOne(1, false, s.clock);
    EmptyRun(s);
    ExtendRun(s, [], retry);
    var rest := WaitAndClaim(Next(s, retry), spec);
    JoinRun(s, [] + [retry], rest);
    steps := [] + [retry] + rest;
  }

  /** Every submission can be claimed: by process 7, as the first thing that ever happens. */
  lemma SubmitFirst(sub: Submission)
    ensures Legal(Init("out", 0), [Submit(sub, 0)]) && SteadyRun(Init("out", 0), [Submit(sub, 0)])
    ensures var s := After(Init("out", 0), [Submit(sub, 0)]);
      Reachable(s) && SteadilyReachable(s) && Deserted(s, sub.spec) && s.db.jobs[1] == NewRow(sub, 0)
  {
    hide Legal, After, SteadyRun, AddEvent, Reachable, SteadilyReachable;
    var s0, add := Init("out", 0), Submit(sub, 0);
    EmptyRun(s0);
    ExtendRun(s0, [], add);
    assert [] + [add] == [add];
    FirstJob(sub);
    StartReachable(s0, [add]);
  }

  lemma SubmitAndClaim(sub: Submission) returns (steps: seq<Step>)
    ensures Legal(Init("out", 0), steps) && SteadyRun(Init("out", 0), steps) && Unattended(steps)
    ensures JustClaimed(After(Init("out", 0), steps), NewRow(sub, 0))
    ensures Reachable(After(Init("out", 0), steps)) && SteadilyReachable(After(Init("out", 0), steps))
  {
    hide Legal, After, SteadyRun, SteadilyReachable, Reachable;
    var s0 := Init("out", 0);
    SubmitFirst(sub);
    var rest := WaitAndClaim(After(s0, [Submit(sub, 0)]), sub.spec);
    JoinRun(s0, [Submit(sub, 0)], rest);
    steps := [Submit(sub, 0)] + rest;
    StartReachable(s0, steps);
  }

  /** A job that died of exit code 1. */
  lemma DiesOfOne(sub: Submission) returns (steps: seq<Step>)
    requires sub.spec.maxRetries == 0
    ensures Legal(Init("out", 0), steps) && SteadyRun(Init("out", 0), steps)
    ensures Reachable(After(Init("out", 0), steps)) && SteadilyReachable(After(Init("out", 0), steps))
    ensures var s := After(Init("out", 0), steps);
      && Deserted(s, sub.spec) && s.db.jobs[1].state.Dead? && s.db.jobs[1].lastExitCode == Some(1)
      && s.db.jobs[1].finishedAt == Some(s.clock)
  {
    hide Legal, After, SteadyRun, SteadilyReachable, Reachable;
    var s0 := Init("out", 0);
    var first := SubmitAndClaim(sub);
    var second := FailAndLeave(After(s0, first), NewRow(sub, 0));
    JoinRun(s0, first, second);
    steps := first + second;
    StartReachable(s0, steps);
  }

  /** All jobs are canceled, since second 0, and the newest one is number `n`. */
  ghost predicate AllCanceled(s: Sys, n: nat) {
    && s.clock == 0 && s.db.nextJob == n + 1 && (forall j :: j in s.db.jobs <==> 1 <= j <= n)
    && forall j <- s.db.jobs :: s.db.jobs[j].state.Canceled? && s.db.jobs[j].finishedAt == Some(0)
  }

  /** One more job is submitted and canceled. */
  lemma CancelOneMore(s: Sys, n: nat, sub: Submission) returns (steps: seq<Step>)
    requires AllCanceled(s, n)
    ensures Legal(s, steps) && SteadyRun(s, steps) && AllCanceled(After(s, steps), n + 1)
  {
    hide Legal, After, SteadyRun, AddEvent, AddJob, CancelJob;
    var add, cancel := Submit(sub, 0), CancelOne(n + 1, false, 0);
    EmptyRun(s);
    ExtendRun(s, [], add);
    NextJobAdded(s.db, sub);
    ExtendRun(s, [] + [add], cancel);
    CancelQueued(Next(s, add).db, n + 1);
    steps := [] + [add] + [cancel];
  }

  /** Two canceled jobs, submitted one after the other. */
  lemma TwoCanceled(sub: Submission) returns (steps: seq<Step>)
    ensures Legal(Init("out", 0), steps) && SteadyRun(Init("out", 0), steps)
    ensures Reachable(After(Init("out", 0), steps)) && SteadilyReachable(After(Init("out", 0), steps))
    ensures var s := After(Init("out", 0), steps);
      && s.clock == 0 && s.db.jobs.Keys == {1, 2}
      && s.db.jobs[1].state.Canceled? && s.db.jobs[1].finishedAt == Some(0)
      && s.db.jobs[2].state.Canceled? && s.db.jobs[2].finishedAt == Some(0)
  {
    hide Legal, After, SteadyRun, SteadilyReachable, Reachable;
    var s0 := Init("out", 0);
    var first := CancelOneMore(s0, 0, sub);
    var second := CancelOneMore(After(s0, first), 1, sub);
    JoinRun(s0, first, second);
    steps := first + second;
    StartReachable(s0, steps);
    assert forall j :: j in After(s0, steps).db.jobs.Keys <==> j in {1, 2};
  }

  lemma CancelQueued(db: Db, j: nat)
    requires j in db.jobs && db.jobs[j].state.Queued?
    ensures var next := CancelJob(db, j, false, 0).0;
      next.jobs == db.jobs[j := CanceledRow(db.jobs[j], 0)] && next.nextJob == db.nextJob
  {
  }

  lemma NextJobAdded(db: Db, sub: Submission)
    requires forall j <- db.jobs :: !Active(db.jobs[j])
    ensures var next := AddJob(db, sub, 0).0;
      next.jobs == db.jobs[db.nextJob := NewRow(sub, 0)] && next.nextJob == db.nextJob + 1
  {
  }
}
