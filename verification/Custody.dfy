/** Who owns a job, over every run: the ownership invariant, records without ABA, reaping that spares the living,
    and ownership that once lost is lost for good. */
module Custody {
  import opened Models
  import opened Tables
  import opened Transactions
  import opened JobCell
  import opened StoreSteps
  import opened Fleet
  import opened FleetInv
  import opened FleetDeeds
  import opened FleetKeeps
  import opened FleetRuns
  import opened Clocks
  import opened Scenarios

  // ----- the ownership invariant -----

  /** In every reachable state a job runs iff all four lock fields are set, iff one of its attempts runs; that
      attempt is the newest and carries the same worker and pid. Attempts are numbered 1..n and no job is `failed`. */
  lemma OwnershipOverRuns(s: Sys, j: nat)
    requires Reachable(s) && j in s.db.jobs
    ensures s.db.jobs[j].state.Running? <==> Locked(s.db.jobs[j])
    ensures !s.db.jobs[j].state.Running? <==> LockFree(s.db.jobs[j])
    ensures s.db.jobs[j].state.Running? <==> exists k :: 0 <= k < |Rows(s, j)| && Rows(s, j)[k].state.AttRunning?
    ensures forall k :: 0 <= k < |Rows(s, j)| && Rows(s, j)[k].state.AttRunning? ==>
      && k == |Rows(s, j)| - 1
      && s.db.jobs[j].lockedBy == Some(Rows(s, j)[k].workerId)
      && s.db.jobs[j].lockedPid == Some(Rows(s, j)[k].pid)
    ensures forall k :: 0 <= k < |Rows(s, j)| ==> Rows(s, j)[k].no == k + 1
    ensures !s.db.jobs[j].state.Failed?
  {
    ReachableCell(s, j);
    hide Reachable, Accounting, Pacing, Provenance, Sourced, OneStory, AttemptsOf, LogOf;
    assert Ownership(CellOf(s.db, j));
    if s.db.jobs[j].state.Running? {
      assert Rows(s, j)[|Rows(s, j)| - 1].state.AttRunning?;
    }
  }

  /** From `s` to `t`, the newest attempt of the job that process `pid` is busy with was closed at `now`; it is
      the attempt that incarnation claimed, and no other attempt of any job changed. */
  ghost predicate ClosedOwn(s: Sys, t: Sys, pid: Pid, now: Time)
    requires pid in s.procs && s.procs[pid].phase.Busy?
  {
    var p := s.procs[pid];
    var j, att, was, rows := p.phase.job, p.phase.attempt, Rows(s, p.phase.job), Rows(t, p.phase.job);
    && j in s.db.jobs && j in t.db.jobs
    && att in s.epochs && s.epochs[att] == Epoch(p.inc, j, |was|)
    && was != [] && |rows| == |was| && Front(rows) == Front(was)
    && Last(was).id == att && Last(was).state.AttRunning?
    && Last(rows).id == att && !Last(rows).state.AttRunning? && Last(rows).finishedAt == Some(now)
    && forall i <- s.db.jobs :: i != j ==> i in t.db.jobs && Rows(t, i) == Rows(s, i)
  }

  /** A record passes its guard exactly when it closes the very attempt its process claimed, also when an earlier
      process had the same worker id and pid; otherwise it writes nothing. */
  lemma RecordClosesOwnAttempt(s: Sys, pid: Pid, report: Report, now: Time)
    requires Reachable(s) && Enabled(s, RecordResult(pid, report, now))
    ensures var p, t := s.procs[pid], Next(s, RecordResult(pid, report, now));
      if Owns(s.db, p.phase.job, p.workerId, pid) then ClosedOwn(s, t, pid, now) else t.db == s.db
  {
    hide Reachable, Inv, Touched, AttemptsOf, LogOf, RecordOf, DbInv, CanAct, Ownership, Tidy;
    ReachableInv(s);
    var p, st := s.procs[pid], RecordResult(pid, report, now);
    RecordDeed(s, pid, report, now);
    if Owns(s.db, p.phase.job, p.workerId, pid) {
      OwnsNewest(s, pid);
      InvDb(s);
      OwnEpoch(s, pid);
      RecordRows(s.db, Next(s, st).db, p.phase.job, DeedOf(s, st).act);
    }
  }

  lemma OwnEpoch(s: Sys, pid: Pid)
    requires Inv(s) && pid in s.procs && s.procs[pid].phase.Busy?
    requires Runs(s, s.procs[pid].phase.job) && Last(Rows(s, s.procs[pid].phase.job)).id == s.procs[pid].phase.attempt
    ensures var p := s.procs[pid];
      p.phase.attempt in s.epochs && s.epochs[p.phase.attempt] == Epoch(p.inc, p.phase.job, |Rows(s, p.phase.job)|)
  {
    hide DbInv, ProcsOk, NumbersUnique, AttemptsOf, RecordsRetained, MadeBy, HeldOk;
    var j := s.procs[pid].phase.job;
    assert BusyOk(s, pid);
    assert Rows(s, j)[|Rows(s, j)| - 1].id in s.epochs;
  }

  lemma RecordRows(db: Db, next: Db, j: nat, a: Act)
    requires DbInv(db) && Touched(db, next, j, a) && (a.Succeed? || a.Fail?) && AttemptsOf(db.attempts, j) != []
    ensures var was, rows := AttemptsOf(db.attempts, j), AttemptsOf(next.attempts, j);
      && j in next.jobs && Last(was).state.AttRunning?
      && rows != [] && |rows| == |was| && Front(rows) == Front(was)
      && Last(rows).id == Last(was).id && !Last(rows).state.AttRunning? && Last(rows).finishedAt == Some(a.at)
    ensures forall i <- db.jobs :: i != j ==>
      i in next.jobs && AttemptsOf(next.attempts, i) == AttemptsOf(db.attempts, i)
  {
    hide AttemptsOf, LogOf, Tidy, CellInv;
    OwnershipOf(db, j);
    assert CellOf(next, j) == Effect(CellOf(db, j), a);
    assert Last(AttemptsOf(db.attempts, j)).state.AttRunning?;
    forall i <- db.jobs | i != j
      ensures i in next.jobs && AttemptsOf(next.attempts, i) == AttemptsOf(db.attempts, i)
    {
      assert i in next.jobs.Keys && CellOf(next, i) == CellOf(db, i);
    }
  }

  // ----- reaping -----

  /** A reap that commits hits an epoch whose process was already dead when the probe confirmed its pid: the
      claimant was born before that probe, has the probed pid, and is none of the live processes. */
  lemma ReapSparesTheLiving(s: Sys, pid: Pid)
    requires SteadilyReachable(s) && Enabled(s, ReapStale(pid)) && DeedOf(s, ReapStale(pid)).On?
    ensures var ph := s.procs[pid].phase; var j := ph.suspect.job;
      && Runs(s, j)
      && Last(Rows(s, j)).pid == ph.suspect.pid
      && Last(Rows(s, j)).id in s.epochs
      && s.epochs[Last(Rows(s, j)).id].inc < ph.bornBefore
      && forall q <- s.procs :: s.procs[q].inc != s.epochs[Last(Rows(s, j)).id].inc
  {
    SteadilyReachableInv(s);
    hide Reachable, SteadilyReachable;
    ReapSparesTheLivingInv(s, pid);
  }

  lemma ReapSparesTheLivingInv(s: Sys, pid: Pid)
    requires Inv(s) && SteadyInv(s) && Enabled(s, ReapStale(pid)) && DeedOf(s, ReapStale(pid)).On?
    ensures var ph := s.procs[pid].phase; var j := ph.suspect.job;
      && Runs(s, j)
      && Last(Rows(s, j)).pid == ph.suspect.pid
      && Last(Rows(s, j)).id in s.epochs
      && s.epochs[Last(Rows(s, j)).id].inc < ph.bornBefore
      && forall q <- s.procs :: s.procs[q].inc != s.epochs[Last(Rows(s, j)).id].inc
  {
    hide DbInv, NumbersUnique, AttemptsOf, RecordsRetained, Ownership, TimedOk, StampsOk;
    TimedAt(s, s.procs[pid].phase.suspect.job);
    var ph := s.procs[pid].phase;
    var j := ph.suspect.job;
    RunningRow(s, j);
    assert PassOk(s, ph);
    var c := s.epochs[Last(Rows(s, j)).id].inc;
    assert StartsOk(s) && s.births[c] <= s.db.jobs[j].startedAt.value;
    forall q <- s.procs
      ensures s.procs[q].inc != c
    {
      assert MadeBy(s, q);
      var k := |Rows(s, j)| - 1;
      assert Rows(s, j)[k].id in s.epochs;
    }
  }

  /** The lock of a running row, with its newest attempt. */
  lemma RunningRow(s: Sys, j: nat)
    requires Inv(s) && j in s.db.jobs && s.db.jobs[j].state.Running?
    ensures Runs(s, j) && Last(Rows(s, j)).id in s.epochs && Claimant(s, j) == s.epochs[Last(Rows(s, j)).id].inc
    ensures Claimant(s, j) < |s.births|
    ensures s.db.jobs[j].lockedPid == Some(Last(Rows(s, j)).pid)
    ensures s.db.jobs[j].startedAt.Some? && s.db.jobs[j].heartbeatAt.Some?
  {
    OwnershipOf(s.db, j);
    hide DbInv, ProcsOk, NumbersUnique, HoldingsOk, AttemptsOf, RecordsRetained;
    assert Rows(s, j)[|Rows(s, j)| - 1].id in s.epochs;
  }

  // ----- no two live executors -----

  /** The operator asks for the job to be taken away from its worker. */
  predicate Displaces(st: Step, j: nat) {
    (st.RetryOne? && st.job == j && st.force) || (st.CancelOne? && st.job == j && st.allowRunning)
  }

  /** The operator asks for it while a live worker is executing the job. */
  ghost predicate Displaced(s: Sys, st: Step, j: nat) {
    Displaces(st, j) && exists pid <- s.procs :: Executes(s, pid, j)
  }

  /** Everyone who executes the job owns it. */
  ghost predicate Entitled(s: Sys, j: nat) {
    forall pid <- s.procs :: Executes(s, pid, j) ==> Owns(s.db, j, s.procs[pid].workerId, pid)
  }

  lemma EntitledKept(s: Sys, st: Step, j: nat)
    requires Inv(s) && SteadyInv(s) && Entitled(s, j) && Enabled(s, st) && !Displaced(s, st, j)
    ensures Entitled(Next(s, st), j)
  {
    hide Inv, SteadyInv, AttemptsOf, LogOf, Follows, Displaced;
    var t := Next(s, st);
    forall pid <- t.procs | Executes(t, pid, j)
      ensures Owns(t.db, j, t.procs[pid].workerId, pid)
    {
      ExecutorKept(s, st, j, pid);
    }
  }

  lemma ExecutorKept(s: Sys, st: Step, j: nat, pid: Pid)
    requires Inv(s) && SteadyInv(s) && Entitled(s, j) && Enabled(s, st)
    requires !Displaced(s, st, j) && Executes(Next(s, st), pid, j)
    ensures Owns(Next(s, st).db, j, Next(s, st).procs[pid].workerId, pid)
  {
    hide Inv, SteadyInv, AttemptsOf, LogOf, RecordOf, Reap, Pick, PruneDelete, AddJob, RetryJob, CancelJob;
    hide UpdateHeartbeat, Grant;
    hide ListsStale, CellInv;
    var t := Next(s, st);
    if Executes(s, pid, j) {
      assert Owns(s.db, j, s.procs[pid].workerId, pid);
      OwnedStep(s, st, j, pid);
    } else {
      assert st.ClaimJob? && st.pid == pid && DeedOf(s, st).On?;
      ClaimDeed(s, pid, st.now, st.lane, st.slots);
    }
  }

  /** Displacing a job under a live worker leaves that worker executing what it does not own. */
  lemma DisplacedLoses(s: Sys, st: Step, j: nat)
    requires Entitled(s, j) && Enabled(s, st) && Displaced(s, st, j)
    ensures !Entitled(Next(s, st), j)
  {
    hide CloseWhere;
    var pid :| pid in s.procs && Executes(s, pid, j);
    assert Owns(s.db, j, s.procs[pid].workerId, pid);
    assert Executes(Next(s, st), pid, j) && !Next(s, st).db.jobs[j].state.Running?;
  }

  /** The exact condition under a steady clock, step by step: whoever executes the job keeps owning it unless an
      operator takes the job away, by a forced retry or a cancel of a running job, while a live worker executes it. */
  lemma EntitledExactly(s: Sys, st: Step, j: nat)
    requires SteadilyReachable(s) && Entitled(s, j) && Enabled(s, st)
    ensures Entitled(Next(s, st), j) <==> !Displaced(s, st, j)
  {
    hide Reachable, SteadilyReachable, Inv, SteadyInv, Next, Enabled, Displaced, Entitled;
    SteadilyReachableInv(s);
    if Displaced(s, st, j) {
      DisplacedLoses(s, st, j);
    } else {
      EntitledKept(s, st, j);
    }
  }

  /** While its owner stays busy, only a displacement can take a job away. */
  lemma OwnedStep(s: Sys, st: Step, j: nat, pid: Pid)
    requires Inv(s) && SteadyInv(s) && Enabled(s, st) && !Displaces(st, j)
    requires Executes(s, pid, j) && Owns(s.db, j, s.procs[pid].workerId, pid) && Executes(Next(s, st), pid, j)
    ensures Owns(Next(s, st).db, j, s.procs[pid].workerId, pid)
  {
    hide Inv, SteadyInv, AttemptsOf, LogOf, RecordOf, Reap, Pick, PruneDelete, AddJob, RetryJob, CancelJob;
    hide UpdateHeartbeat, Grant;
    hide ListsStale, CellInv, DbInv;
    JobStep(s, st, j);
    OwnsNewest(s, pid);
    var f := FateOf(s, st, j);
    if f.Acts? {
      assert DeedOf(s, st) == On(j, f.act);
      match f.act
      case Crash(_, _, _) => ReapSparesTheLivingInv(s, st.pid);
      case _ =>
    }
  }

  /** No step of the run takes the job away from a live worker. */
  ghost predicate Undisplaced(s: Sys, steps: seq<Step>, j: nat)
    requires Legal(s, steps)
  {
    steps == [] || (Undisplaced(s, Front(steps), j) && !Displaced(After(s, Front(steps)), Last(steps), j))
  }

  ghost predicate AlwaysEntitled(s: Sys, steps: seq<Step>, j: nat)
    requires Legal(s, steps)
  {
    Entitled(After(s, steps), j) && (steps == [] || AlwaysEntitled(s, Front(steps), j))
  }

  /** The exact condition over whole runs under a steady clock: in every state of the run everyone who executes the
      job owns it, if and only if no step took the job away from a live worker. */
  lemma {:induction false} EntitledOverRun(root: string, clock: Time, steps: seq<Step>, j: nat)
    requires Legal(Init(root, clock), steps) && SteadyRun(Init(root, clock), steps)
    ensures AlwaysEntitled(Init(root, clock), steps, j) <==> Undisplaced(Init(root, clock), steps, j)
  {
    hide Inv, Next, Enabled, Steady, Displaced, Entitled;
    var s := Init(root, clock);
    if steps == [] {
      NobodyEntitled(root, clock, j);
    } else {
      EntitledOverRun(root, clock, Front(steps), j);
      StartReachable(s, Front(steps));
      if AlwaysEntitled(s, Front(steps), j) {
        EntitledExactly(After(s, Front(steps)), Last(steps), j);
      }
    }
  }

  lemma NobodyEntitled(root: string, clock: Time, j: nat)
    ensures Entitled(Init(root, clock), j)
  {
  }

  /** In every run under a steady clock that never takes a job away from a live worker, no two live workers ever
      execute that job at once. Forced retries and cancels that hit a job nobody executes are harmless. */
  lemma OneLiveExecutor(root: string, clock: Time, steps: seq<Step>, j: nat, p: Pid, q: Pid)
    requires Legal(Init(root, clock), steps) && SteadyRun(Init(root, clock), steps)
    requires Undisplaced(Init(root, clock), steps, j)
    requires Executes(After(Init(root, clock), steps), p, j) && Executes(After(Init(root, clock), steps), q, j)
    ensures p == q
  {
    hide Legal, After, SteadyRun, Undisplaced;
    EntitledOverRun(root, clock, steps, j);
    assert Entitled(After(Init(root, clock), steps), j);
  }

  // ----- taking a running job away can lead to two executors -----

  predicate Unforced(steps: seq<Step>) {
    forall st <- steps :: st.RetryOne? ==> !st.force
  }

  /** From a state in which 7 still executes job 1 but the job waits again, 8 takes it too. */
  lemma SecondTakesIt(s: Sys, lane: string) returns (steps: seq<Step>)
    requires OneWaits(s, lane) && s.procs.Keys == {7} && Executes(s, 7, 1)
    ensures Legal(s, steps) && SteadyRun(s, steps) && Unattended(steps)
    ensures Executes(After(s, steps), 7, 1) && Executes(After(s, steps), 8, 1)
  {
    hide Legal, After, SteadyRun;
    steps := NewWorkerTakesIt(s, 8, "b", lane);
  }

  /** A forced retry can put a job into the hands of two live workers at once, for every submission. */
  lemma ForcedRetryCanDouble(sub: Submission)
    ensures exists steps ::
      (Legal(Init("out", 0), steps) && SteadyRun(Init("out", 0), steps)
       && Executes(After(Init("out", 0), steps), 7, 1) && Executes(After(Init("out", 0), steps), 8, 1))
  {
    hide Legal, After, SteadyRun, Reachable, CloseWhere;
    var s0 := Init("out", 0);
    var first := SubmitAndClaim(sub);
    var s1 := After(s0, first);
    var force := RetryOne(1, true, s1.clock);
    ExtendRun(s0, first, force);
    var second := SecondTakesIt(Next(s1, force), sub.spec.queue);
    JoinRun(s0, first + [force], second);
  }

  /** So can a cancel of a running job that is followed by a plain retry. */
  lemma CancelAndRetryCanDouble(sub: Submission)
    ensures exists steps ::
      (Legal(Init("out", 0), steps) && SteadyRun(Init("out", 0), steps) && Unforced(steps)
       && Executes(After(Init("out", 0), steps), 7, 1) && Executes(After(Init("out", 0), steps), 8, 1))
  {
    hide Legal, After, SteadyRun, Reachable, CloseWhere;
    var s0 := Init("out", 0);
    var first := SubmitAndClaim(sub);
    var s1 := After(s0, first);
    var cancel, retry := CancelOne(1, true, s1.clock), RetryOne(1, false, s1.clock);
    ExtendRun(s0, first, cancel);
    ExtendRun(s0, first + [cancel], retry);
    var second := SecondTakesIt(Next(Next(s1, cancel), retry), sub.spec.queue);
    JoinRun(s0, first + [cancel] + [retry], second);
  }

  /** The steady clock is needed too. Process 7 dies with the job, and a reaper confirms the death of its pid. An
      operator retries the abandoned job, the clock is set back, and a new process 7 claims the job. Its heartbeat is
      older than the reaper's cutoff and its pid is the confirmed one, so the reap robs a live worker, although
      no step took the job away from one. */
  lemma ClockSetBackRobs(sub: Submission)
    ensures exists steps ::
      (Legal(Init("out", 0), steps) && Undisplaced(Init("out", 0), steps, 1)
       && Executes(After(Init("out", 0), steps), 7, 1) && !Entitled(After(Init("out", 0), steps), 1))
  {
    hide Legal, After, SteadyRun, Undisplaced, Reachable, CloseWhere, Entitled;
    var s0 := Init("out", 0);
    var first := SubmitAndClaim(sub);
    var s1 := After(s0, first);
    var second := DieAndConfirm(s1, NewRow(sub, 0));
    JoinRun(s0, first, second);
    UnattendedKeeps(s0, first + second, 1);
    var s2 := After(s1, second);
    var third := RobbedByReaper(s2, s1.clock, sub.spec.queue);
    JoinRun(s0, first + second, third);
    JoinUndisplaced(s0, first + second, third, 1);
  }

  /** The continuation from the confirmed death on, with the clock set back to `c`. */
  lemma RobbedByReaper(s: Sys, c: Time, lane: string) returns (steps: seq<Step>)
    requires s.db.jobs.Keys == {1} && s.db.nextJob == 2 && s.db.jobs[1].state.Running?
      && s.db.jobs[1].spec.queue == lane
    requires s.procs.Keys == {8} && s.procs[8].phase.Confirmed?
    requires s.procs[8].phase.suspect == Suspect(1, 7) && s.procs[8].phase.cutoff > c
    ensures Legal(s, steps) && Undisplaced(s, steps, 1)
    ensures Executes(After(s, steps), 7, 1) && !Entitled(After(s, steps), 1)
  {
    hide Legal, After, SteadyRun, Undisplaced;
    var back := RetriedIntoThePast(s, c, lane);
    var mid, reap := After(s, back), ReapStale(8);
    var claim := NewWorkerTakesIt(mid, 7, "b", lane);
    UnattendedKeeps(mid, claim, 1);
    JoinRun(s, back, claim);
    JoinUndisplaced(s, back, claim, 1);
    ReapRobs(After(mid, claim));
    ExtendRun(s, back + claim, reap);
    ExtendUndisplaced(s, back + claim, reap, 1);
    steps := back + claim + [reap];
  }

  /** The abandoned job is retried, and the clock is set back to that time. */
  lemma RetriedIntoThePast(s: Sys, c: Time, lane: string) returns (steps: seq<Step>)
    requires s.db.jobs.Keys == {1} && s.db.nextJob == 2 && s.db.jobs[1].state.Running?
      && s.db.jobs[1].spec.queue == lane
    requires forall pid <- s.procs :: !s.procs[pid].phase.Busy?
    ensures Legal(s, steps) && Undisplaced(s, steps, 1)
    ensures OneWaits(After(s, steps), lane) && After(s, steps).procs == s.procs && After(s, steps).clock == c
  {
    hide Legal, After, SteadyRun, CloseWhere, Undisplaced;
    var force, back := RetryOne(1, true, c), Tick(c);
    EmptyRun(s);
    ExtendRun(s, [], force);
    ExtendRun(s, [] + [force], back);
    assert Undisplaced(s, [], 1) by { NothingDisplaced(s, 1); }
    ExtendUndisplaced(s, [], force, 1);
    ExtendUndisplaced(s, [] + [force], back, 1);
    steps := [] + [force] + [back];
  }

  /** The reap of a confirmed pid hits whoever has that pid now and a heartbeat from before the cutoff. */
  lemma ReapRobs(s: Sys)
    requires 8 in s.procs && s.procs[8].phase.Confirmed? && s.procs[8].phase.suspect == Suspect(1, 7)
    requires Executes(s, 7, 1) && Reapable(s.db, 1, 7, s.procs[8].phase.cutoff)
    ensures Enabled(s, ReapStale(8)) && !Displaced(s, ReapStale(8), 1)
    ensures Executes(Next(s, ReapStale(8)), 7, 1) && !Entitled(Next(s, ReapStale(8)), 1)
  {
    hide CloseWhere;
    var t := Next(s, ReapStale(8));
    assert t.db.jobs[1] == ReapedRow(s.db.jobs[1], s.procs[8].phase.now);
    assert Executes(t, 7, 1) && !Owns(t.db, 1, t.procs[7].workerId, 7);
  }

  lemma NothingDisplaced(s: Sys, j: nat)
    ensures Undisplaced(s, [], j)
  {
  }

  lemma ExtendUndisplaced(s: Sys, steps: seq<Step>, st: Step, j: nat)
    requires Legal(s, steps) && Enabled(After(s, steps), st)
    requires Undisplaced(s, steps, j) && !Displaced(After(s, steps), st, j)
    ensures Legal(s, steps + [st]) && Undisplaced(s, steps + [st], j)
  {
    hide Next, Enabled, Displaced;
    assert Front(steps + [st]) == steps && Last(steps + [st]) == st;
  }

  lemma {:induction false} JoinUndisplaced(s: Sys, first: seq<Step>, second: seq<Step>, j: nat)
    requires Legal(s, first) && Legal(After(s, first), second)
    requires Undisplaced(s, first, j) && Undisplaced(After(s, first), second, j)
    ensures Legal(s, first + second) && Undisplaced(s, first + second, j)
  {
    hide Next, Enabled, Displaced;
    JoinRun(s, first, second);
    if second == [] {
      assert first + second == first;
    } else {
      JoinUndisplaced(s, first, Front(second), j);
      JoinRun(s, first, Front(second));
      assert Front(first + second) == first + Front(second);
    }
  }

  /** What operators do not ask for displaces nobody. */
  lemma {:induction false} UnattendedKeeps(s: Sys, steps: seq<Step>, j: nat)
    requires Legal(s, steps) && Unattended(steps)
    ensures Undisplaced(s, steps, j)
  {
    hide Next, Enabled;
    if steps != [] {
      assert forall st <- Front(steps) :: st in steps;
      UnattendedKeeps(s, Front(steps), j);
      assert Last(steps) in steps;
    }
  }

  // ----- lost ownership -----

  /** The process is busy with this attempt and its row is no longer its own. */
  predicate Lost(s: Sys, pid: Pid, inc: nat, att: nat) {
    && pid in s.procs && s.procs[pid].inc == inc && s.procs[pid].phase.Busy? && s.procs[pid].phase.attempt == att
    && !Owns(s.db, s.procs[pid].phase.job, s.procs[pid].workerId, pid)
  }

  predicate StillBusy(s: Sys, pid: Pid, inc: nat, att: nat) {
    pid in s.procs && s.procs[pid].inc == inc && s.procs[pid].phase.Busy? && s.procs[pid].phase.attempt == att
  }

  /** The attempt was handed out to an incarnation of the past or present, and its row, if retained, is closed. */
  ghost predicate Closed(s: Sys, inc: nat, att: nat) {
    && att < s.db.nextAttempt && inc < |s.births|
    && forall j <- s.db.jobs :: ClosedIn(Rows(s, j), att)
  }

  ghost predicate ClosedIn(rows: seq<Attempt>, att: nat) {
    forall k :: 0 <= k < |rows| && rows[k].id == att ==> !rows[k].state.AttRunning?
  }

  /** Whoever is still busy with the attempt has lost its row, which is closed. */
  ghost predicate Gone(s: Sys, pid: Pid, inc: nat, att: nat) {
    Closed(s, inc, att) && (StillBusy(s, pid, inc, att) ==> Lost(s, pid, inc, att))
  }

  /** A process that lost its row has a closed attempt. */
  lemma LostIsClosed(s: Sys, pid: Pid, inc: nat, att: nat)
    requires Inv(s) && Lost(s, pid, inc, att)
    ensures Closed(s, inc, att)
  {
    InvProcs(s);
    hide DbInv, ProcsOk, NumbersUnique, AttemptsOf, RecordsRetained, HeldOk;
    assert BusyOk(s, pid) && MadeBy(s, pid) && RowsOnRecord(s);
    forall j <- s.db.jobs
      ensures ClosedIn(Rows(s, j), att)
    {
      forall k | 0 <= k < |Rows(s, j)| && Rows(s, j)[k].id == att
        ensures !Rows(s, j)[k].state.AttRunning?
      {
        RunningIsOwned(s, j, k);
        assert Rows(s, j)[k].pid == pid && Rows(s, j)[k].workerId == s.procs[pid].workerId;
      }
    }
  }

  /** A running attempt is its job's newest and names the owner. */
  lemma RunningIsOwned(s: Sys, j: nat, k: nat)
    requires Inv(s) && j in s.db.jobs && k < |Rows(s, j)|
    ensures Rows(s, j)[k].state.AttRunning? ==> Owns(s.db, j, Rows(s, j)[k].workerId, Rows(s, j)[k].pid)
  {
    hide Inv, DbInv, AttemptsOf;
    InvDb(s);
    OwnershipOf(s.db, j);
  }

  /** Nobody becomes busy with an attempt that was handed out before. */
  lemma BusyBefore(s: Sys, st: Step, pid: Pid, inc: nat, att: nat)
    requires Enabled(s, st) && att < s.db.nextAttempt && inc < |s.births| && StillBusy(Next(s, st), pid, inc, att)
    ensures StillBusy(s, pid, inc, att)
  {
    hide AttemptsOf, RecordOf, Reap, Pick, PruneDelete, AddJob, RetryJob, CancelJob, UpdateHeartbeat, Grant, ListsStale;
  }

  lemma ActKeepsClosed(c: Cell, a: Act, att: nat)
    requires ClosedIn(c.attempts, att) && (a.Claim? ==> a.row.id != att)
    ensures ClosedIn(Effect(c, a).attempts, att)
  {
  }

  /** A closed attempt is not reopened. */
  lemma ClosedStep(s: Sys, st: Step, inc: nat, att: nat)
    requires Inv(s) && Enabled(s, st) && Closed(s, inc, att)
    ensures Closed(Next(s, st), inc, att)
  {
    hide Inv, DbInv, AttemptsOf, LogOf, RecordOf, Reap, Pick, PruneDelete, AddJob, RetryJob, CancelJob;
    hide UpdateHeartbeat, Grant;
    hide ListsStale, Effect, CanAct, FreshCell, ClosedIn, Tidy;
    var t := Next(s, st);
    StepDeed(s, st);
    StepCounters(s, st);
    forall j <- t.db.jobs
      ensures ClosedIn(Rows(t, j), att)
    {
      JobClosed(s, st, inc, att, j);
    }
  }

  lemma JobClosed(s: Sys, st: Step, inc: nat, att: nat, j: nat)
    requires Inv(s) && Enabled(s, st) && Closed(s, inc, att) && j in Next(s, st).db.jobs
    ensures ClosedIn(Rows(Next(s, st), j), att)
  {
    hide Inv, DbInv, AttemptsOf, LogOf, RecordOf, Reap, Pick, PruneDelete, AddJob, RetryJob, CancelJob;
    hide UpdateHeartbeat, Grant;
    hide ListsStale, Effect, CanAct, Tidy;
    if j in s.db.jobs {
      JobStep(s, st, j);
      assert ClosedIn(CellOf(s.db, j).attempts, att);
      if FateOf(s, st, j).Acts? {
        ActKeepsClosed(CellOf(s.db, j), FateOf(s, st, j).act, att);
      }
    } else {
      NewJobStep(s, st, j);
      assert CellOf(Next(s, st).db, j).attempts == [];
    }
  }

  lemma LostStep(s: Sys, st: Step, pid: Pid, inc: nat, att: nat)
    requires Inv(s) && Enabled(s, st) && Lost(s, pid, inc, att) && StillBusy(Next(s, st), pid, inc, att)
    ensures Lost(Next(s, st), pid, inc, att)
  {
    hide Inv, DbInv, AttemptsOf, LogOf, CellInv, Next, Enabled, FateOf, Effect, CanAct;
    var t, j := Next(s, st), s.procs[pid].phase.job;
    InvProcs(s);
    SameWork(s, st, pid);
    if j in s.db.jobs {
      JobStep(s, st, j);
      FateSource(s, st, j);
      if FateOf(s, st, j).Acts? {
        NotOwnedAct(CellOf(s.db, j), FateOf(s, st, j).act, s.procs[pid].workerId, pid);
      }
    } else if j in t.db.jobs {
      NewJobStep(s, st, j);
    }
  }

  predicate OwnedBy(job: Job, wid: string, pid: Pid) {
    job.state.Running? && job.lockedBy == Some(wid) && job.lockedPid == Some(pid)
  }

  /** Only its own claim makes a process the owner. */
  lemma NotOwnedAct(c: Cell, a: Act, wid: string, pid: Pid)
    requires CanAct(c, a) && !OwnedBy(c.job, wid, pid) && (a.Claim? ==> a.row.pid != pid)
    ensures !OwnedBy(Effect(c, a).job, wid, pid)
  {
  }

  /** A process that stays busy with its attempt keeps its name and its job, and claims nothing meanwhile. */
  lemma SameWork(s: Sys, st: Step, pid: Pid)
    requires ProcsOk(s) && Enabled(s, st) && pid in s.procs && s.procs[pid].phase.Busy?
    requires StillBusy(Next(s, st), pid, s.procs[pid].inc, s.procs[pid].phase.attempt)
    ensures Next(s, st).procs[pid].workerId == s.procs[pid].workerId
    ensures Next(s, st).procs[pid].phase.job == s.procs[pid].phase.job
    ensures !(st.ClaimJob? && st.pid == pid)
  {
    hide AttemptsOf, RecordOf, Reap, Pick, PruneDelete, AddJob, RetryJob, CancelJob, UpdateHeartbeat, ClaimNext;
    hide ListsStale;
  }

  lemma InvProcs(s: Sys)
    requires Inv(s)
    ensures ProcsOk(s)
  {
    hide ProcsOk, DbInv;
  }

  lemma LossStep(s: Sys, st: Step, pid: Pid, inc: nat, att: nat)
    requires Inv(s) && Enabled(s, st) && Gone(s, pid, inc, att)
    ensures Gone(Next(s, st), pid, inc, att)
  {
    hide Inv, Enabled, Next, StillBusy, Lost;
    ClosedStep(s, st, inc, att);
    if StillBusy(Next(s, st), pid, inc, att) {
      BusyBefore(s, st, pid, inc, att);
      LostStep(s, st, pid, inc, att);
    }
  }

  /** Once a busy process does not own its row, no continuation whatever gives that attempt back: the attempt is
      closed and stays closed as long as its row is retained, and as long as the process is busy with it, what it
      records or beats leaves the database untouched. */
  lemma LossIsFinal(s: Sys, steps: seq<Step>, pid: Pid, inc: nat, att: nat)
    requires Reachable(s) && Legal(s, steps) && Lost(s, pid, inc, att)
    ensures LostAndClosed(After(s, steps), pid, inc, att)
  {
    hide Reachable, Inv, StillBusy, Lost, Legal, After;
    LossOverRun(s, steps, pid, inc, att);
    if StillBusy(After(s, steps), pid, inc, att) {
      LostWritesNothing(After(s, steps), pid, inc, att);
    }
  }

  /** The attempt is closed, and whoever is still busy with it does not own its row and cannot write. */
  ghost predicate LostAndClosed(t: Sys, pid: Pid, inc: nat, att: nat) {
    && (forall j <- t.db.jobs :: ClosedIn(Rows(t, j), att))
    && (StillBusy(t, pid, inc, att) ==>
          && Lost(t, pid, inc, att)
          && (forall report, now :: Enabled(t, RecordResult(pid, report, now)) ==>
                Next(t, RecordResult(pid, report, now)).db == t.db)
          && (forall now :: Enabled(t, SendBeat(pid, now)) ==> Next(t, SendBeat(pid, now)).db == t.db))
  }

  /** Once a heartbeat update has matched zero rows, which it does exactly if the process does not own its row, the
      beat has written nothing and no continuation whatever gives the attempt back. */
  lemma LostForGood(s: Sys, pid: Pid, now: Time, steps: seq<Step>)
    requires Reachable(s) && Enabled(s, SendBeat(pid, now)) && Legal(Next(s, SendBeat(pid, now)), steps)
    ensures var p, t := s.procs[pid], Next(s, SendBeat(pid, now));
      && (UpdateHeartbeat(s.db, p.phase.job, p.workerId, pid, now).1 == 0 <==> t.procs[pid].phase.lost)
      && (t.procs[pid].phase.lost <==> !Owns(s.db, p.phase.job, p.workerId, pid))
      && (t.procs[pid].phase.lost ==> t.db == s.db && LostAndClosed(After(t, steps), pid, p.inc, p.phase.attempt))
  {
    hide Reachable, Legal, After, LostAndClosed, Lost;
    var p, t := s.procs[pid], Next(s, SendBeat(pid, now));
    ZeroMatchesProvesLoss(s, pid, now);
    if t.procs[pid].phase.lost {
      EmptyRun(s);
      ExtendRun(s, [], SendBeat(pid, now));
      ReachableOn(s, [] + [SendBeat(pid, now)]);
      LossIsFinal(t, steps, pid, p.inc, p.phase.attempt);
    }
  }

  lemma {:induction false} LossOverRun(s: Sys, steps: seq<Step>, pid: Pid, inc: nat, att: nat)
    requires Reachable(s) && Legal(s, steps) && Lost(s, pid, inc, att)
    ensures Gone(After(s, steps), pid, inc, att)
  {
    hide Inv, Reachable, Next, Enabled, Gone;
    if steps == [] {
      ReachableInv(s);
      LostIsClosed(s, pid, inc, att);
      assert Gone(s, pid, inc, att) by { LostIsGone(s, pid, inc, att); }
    } else {
      LossOverRun(s, Front(steps), pid, inc, att);
      ReachableOn(s, Front(steps));
      ReachableInv(After(s, Front(steps)));
      LossStep(After(s, Front(steps)), Last(steps), pid, inc, att);
    }
  }

  lemma LostIsGone(s: Sys, pid: Pid, inc: nat, att: nat)
    requires Closed(s, inc, att) && Lost(s, pid, inc, att)
    ensures Gone(s, pid, inc, att)
  {
  }

  lemma LostWritesNothing(s: Sys, pid: Pid, inc: nat, att: nat)
    requires Lost(s, pid, inc, att)
    ensures forall report, now :: Enabled(s, RecordResult(pid, report, now)) ==>
      Next(s, RecordResult(pid, report, now)).db == s.db
    ensures forall now :: Enabled(s, SendBeat(pid, now)) ==> Next(s, SendBeat(pid, now)).db == s.db
  {
    forall report, now | Enabled(s, RecordResult(pid, report, now))
      ensures Next(s, RecordResult(pid, report, now)).db == s.db
    {
      NotRecorded(s.db, s.procs[pid], pid, report, now);
    }
  }

  /** A heartbeat that matches no row proves the loss that `LossIsFinal` makes permanent. */
  lemma ZeroMatchesProvesLoss(s: Sys, pid: Pid, now: Time)
    requires Enabled(s, SendBeat(pid, now))
    ensures var p, t := s.procs[pid], Next(s, SendBeat(pid, now));
      && (t.procs[pid].phase.lost <==> !Owns(s.db, p.phase.job, p.workerId, pid))
      && (t.procs[pid].phase.lost ==> Lost(t, pid, p.inc, p.phase.attempt) && t.db == s.db)
  {
  }
}
