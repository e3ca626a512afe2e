/** What a clock that is never set back adds to the invariant of the fleet: births, passes, starts, stamps, and the
    total time that delays take. */
module Clocks {
  import opened Models
  import opened Tables
  import opened Transactions
  import opened Ledger
  import opened JobCell
  import opened StoreSteps
  import opened Fleet
  import opened FleetInv
  import opened FleetDeeds
  import opened FleetKeeps
  import opened FleetRuns

  // ----- processes -----

  /** Incarnations were born before their newest clock reading, and nobody read a future time. */
  ghost predicate BirthsOk(s: Sys) {
    && (forall i :: 0 <= i < |s.births| ==> s.births[i] <= s.clock)
    && (forall pid <- s.procs :: s.procs[pid].inc < |s.births| ==>
          s.births[s.procs[pid].inc] <= s.procs[pid].floor <= s.clock)
  }

  /** A reap pass works with one old clock reading. After a confirmation, whoever has the suspect's pid
      was born later than the probe, so later than that reading. */
  ghost predicate PassOk(s: Sys, ph: Phase) {
    match ph
    case Marked(now, cutoff) => cutoff <= now <= s.clock
    case Sweeping(now, cutoff, _) => cutoff <= now <= s.clock
    case Confirmed(now, cutoff, suspect, _, bornBefore) =>
      && cutoff <= now <= s.clock
      && bornBefore <= |s.births|
      && (forall i :: bornBefore <= i < |s.births| ==> s.births[i] >= now)
      && (suspect.pid in s.procs ==> s.procs[suspect.pid].inc >= bornBefore)
    case _ => true
  }

  ghost predicate PassesOk(s: Sys) {
    forall pid <- s.procs :: PassOk(s, s.procs[pid].phase)
  }

  // ----- rows -----

  /** A row's claim is not older than its claimant. */
  ghost predicate StartsOk(s: Sys) {
    forall j <- s.db.jobs :: Runs(s, j) && Claimant(s, j) < |s.births| && s.db.jobs[j].startedAt.Some? ==>
      s.births[Claimant(s, j)] <= s.db.jobs[j].startedAt.value
  }

  /** No trail entry is stamped later than the clock. */
  ghost predicate StampsOk(s: Sys) {
    forall j <- s.db.jobs :: StampedBy(CellOf(s.db, j).log, s.clock)
  }

  ghost predicate StampedBy(log: seq<Entry>, clock: Time) {
    forall i :: 0 <= i < |log| ==> log[i].at <= clock
  }

  /** The current round has waited out its delays in total. */
  predicate Totals(job: Job, t: Tally) {
    && (job.state.Queued? && t.misses > 0 ==>
          t.firstClaim.Some? && job.nextRunAt >= t.firstClaim.value + TotalBackoff(t.misses))
    && (job.state.Running? ==>
          && job.startedAt.Some? && t.firstClaim.Some?
          && job.startedAt.value >= t.firstClaim.value + TotalBackoff(t.misses))
    && (job.state.Dead? ==>
          && job.finishedAt.Some? && t.firstClaim.Some? && t.misses > 0
          && job.finishedAt.value >= t.firstClaim.value + TotalBackoff(t.misses - 1))
  }

  /** A running row has no beat from before its start, and the delays add up. */
  ghost predicate Timed(c: Cell) {
    && (c.job.state.Running? ==>
          c.job.startedAt.Some? && c.job.heartbeatAt.Some? && c.job.startedAt.value <= c.job.heartbeatAt.value)
    && Totals(c.job, Round(c.log))
  }

  ghost predicate TimedOk(s: Sys) {
    forall j <- s.db.jobs :: Timed(CellOf(s.db, j))
  }

  ghost predicate SteadyInv(s: Sys) {
    BirthsOk(s) && PassesOk(s) && StartsOk(s) && StampsOk(s) && TimedOk(s)
  }

  // ----- acts at their times -----

  /** Beats and records come no earlier than the start, and a crash is noticed after the last beat. */
  predicate Timely(c: Cell, a: Act) {
    match a
    case Beat(at) => c.job.startedAt.Some? && c.job.startedAt.value <= at
    case Succeed(_, at) => c.job.startedAt.Some? && c.job.startedAt.value <= at
    case Fail(_, _, _, _, _, at) => c.job.startedAt.Some? && c.job.startedAt.value <= at
    case Crash(_, _, at) => c.job.heartbeatAt.Some? && c.job.heartbeatAt.value < at
    case _ => true
  }

  lemma KeepsTotals(c: Cell, a: Act, t: Tally)
    requires Ownership(c) && CanAct(c, a) && Timely(c, a) && !a.Beat? && Counts(c.job, t) && Delays(c.job, t)
    requires Totals(c.job, t)
    requires c.job.state.Running? && c.job.startedAt.Some? && c.job.heartbeatAt.Some? ==>
      c.job.startedAt.value <= c.job.heartbeatAt.value
    ensures Totals(RowAfter(c.job, a), Count(t, Written(c, a)))
  {
    hide Pow2, Fresh, LockFree;
    assert TotalBackoff(0) == 0;
    assert TotalBackoff(t.misses + 1) == TotalBackoff(t.misses) + BackoffSeconds(t.misses + 1);
  }

  lemma KeepsTimed(c: Cell, a: Act)
    requires Ownership(c) && Accounting(c) && Pacing(c) && Timed(c) && CanAct(c, a) && Timely(c, a)
    ensures Timed(Effect(c, a))
  {
    if !a.Beat? {
      KeepsTotals(c, a, Round(c.log));
      AppendedLetters(c.log, Written(c, a), DeadLetters(c, a));
    }
    hide Totals, Round, RoundsWithin, Spaced, Delays, Counts;
  }

  lemma FreshTimed(sub: Submission, now: Time)
    ensures Timed(FreshCell(sub, now))
  {
    var c := FreshCell(sub, now);
    assert c.log == [] + [c.log[0]];
    AppendedOne([], c.log[0]);
  }

  lemma ActStamps(c: Cell, a: Act, clock: Time)
    requires CanAct(c, a) && ActAt(a) <= clock && StampedBy(c.log, clock)
    ensures StampedBy(Effect(c, a).log, clock)
  {
  }

  /** Under a steady clock every act comes at its time, and none is stamped in the future. */
  lemma TimelyDeed(s: Sys, st: Step, j: nat)
    requires Inv(s) && BirthsOk(s) && PassesOk(s) && Enabled(s, st) && Steady(s, st)
    requires j in s.db.jobs && FateOf(s, st, j).Acts?
    ensures Timely(CellOf(s.db, j), FateOf(s, st, j).act) && ActAt(FateOf(s, st, j).act) <= s.clock
  {
    hide Inv, DbInv, Next, AttemptsOf, LogOf, ListsStale, Pick, Grant, BirthsOk, AddJob;
    FateSource(s, st, j);
    match st
    case RecordResult(pid, _, _) => OwnsNewest(s, pid);
    case SendBeat(pid, _) => OwnsNewest(s, pid);
    case ReapStale(pid) => assert PassOk(s, s.procs[pid].phase);
    case _ =>
  }

  // ----- every step -----

  lemma StepBirths(s: Sys, st: Step)
    requires ProcsOk(s) && BirthsOk(s) && Enabled(s, st) && Steady(s, st)
    ensures BirthsOk(Next(s, st))
  {
    hide ClaimNext, RecordOf, UpdateHeartbeat, AddJob, RetryJob, CancelJob, PruneDelete, Reap, ListsStale, AttemptsOf;
  }

  lemma StepPass(s: Sys, st: Step, pid: Pid)
    requires ProcsOk(s) && BirthsOk(s) && PassesOk(s) && Enabled(s, st) && Steady(s, st) && pid in Next(s, st).procs
    ensures PassOk(Next(s, st), Next(s, st).procs[pid].phase)
  {
    hide ClaimNext, RecordOf, UpdateHeartbeat, AddJob, RetryJob, CancelJob, PruneDelete, Reap, ListsStale, AttemptsOf;
    if st.StartPass? || st.ScanStale? || st.ProbeOwner? || st.ReapStale? {
      assert PassOk(s, s.procs[st.pid].phase);
      if pid != st.pid {
        assert PassOk(s, s.procs[pid].phase);
      }
    } else {
      hide Steady;
      OtherPass(s, st, pid);
    }
  }

  /** A step that is not part of a pass leaves the passes as they are; a birth comes after every reading. */
  lemma OtherPass(s: Sys, st: Step, pid: Pid)
    requires ProcsOk(s) && BirthsOk(s) && PassesOk(s) && Enabled(s, st) && Steady(s, st) && pid in Next(s, st).procs
    requires !st.StartPass? && !st.ScanStale? && !st.ProbeOwner? && !st.ReapStale?
    ensures PassOk(Next(s, st), Next(s, st).procs[pid].phase)
  {
    hide ClaimNext, RecordOf, UpdateHeartbeat, AddJob, RetryJob, CancelJob, PruneDelete, Reap, ListsStale, AttemptsOf;
    assert pid in s.procs ==> PassOk(s, s.procs[pid].phase);
  }

  lemma StepPasses(s: Sys, st: Step)
    requires ProcsOk(s) && BirthsOk(s) && PassesOk(s) && Enabled(s, st) && Steady(s, st)
    ensures PassesOk(Next(s, st))
  {
    hide Next, Enabled, PassOk, Steady;
    forall pid <- Next(s, st).procs
      ensures PassOk(Next(s, st), Next(s, st).procs[pid].phase)
    {
      StepPass(s, st, pid);
    }
  }

  lemma QuietStarts(s: Sys, t: Sys)
    requires EpochsOk(s) && StartsOk(s) && Quiet(s, t)
    ensures StartsOk(t)
  {
    hide AttemptsOf, EpochsOk, Quiet, Runs, Claimant;
    forall j <- t.db.jobs | Runs(t, j) && Claimant(t, j) < |t.births| && t.db.jobs[j].startedAt.Some?
      ensures t.births[Claimant(t, j)] <= t.db.jobs[j].startedAt.value
    {
      QuietStart(s, t, j);
    }
  }

  lemma QuietStart(s: Sys, t: Sys, j: nat)
    requires EpochsOk(s) && StartsOk(s) && Quiet(s, t) && j in t.db.jobs
    requires Runs(t, j) && Claimant(t, j) < |t.births| && t.db.jobs[j].startedAt.Some?
    ensures t.births[Claimant(t, j)] <= t.db.jobs[j].startedAt.value
  {
    hide AttemptsOf, Calm, RecordsRetained;
    QuietClaimants(s, t, j);
    assert Rows(s, j)[|Rows(s, j)| - 1].id in s.epochs;
  }

  lemma ClaimStarts(s: Sys, t: Sys, pid: Pid, j: nat, now: Time)
    requires ProcsOk(s) && BirthsOk(s) && EpochsOk(s) && StartsOk(s) && Claims(s, t, pid, j, now)
    requires s.procs[pid].floor <= now
    ensures StartsOk(t)
  {
    hide AttemptsOf, RecordsRetained, RowsOnRecord;
    assert Claimant(t, j) == s.procs[pid].inc;
    forall i <- t.db.jobs | i != j && Runs(t, i) && Claimant(t, i) < |t.births| && t.db.jobs[i].startedAt.Some?
      ensures t.births[Claimant(t, i)] <= t.db.jobs[i].startedAt.value
    {
      ClaimOtherRuns(s, t, pid, j, now, i);
    }
  }

  lemma StepStarts(s: Sys, st: Step)
    requires Inv(s) && BirthsOk(s) && StartsOk(s) && Enabled(s, st) && Steady(s, st)
    ensures StartsOk(Next(s, st))
  {
    hide DbInv, ProcsOk, EpochsOk, NumbersUnique, HoldingsOk, BirthsOk, StartsOk, Next, Enabled, DeedOf, Quiet, Claims;
    var d := DeedOf(s, st);
    if d.On? && d.act.Claim? {
      StepDeed(s, st);
      StepCounters(s, st);
      ClaimClaims(s, st.pid, st.now, st.lane, st.slots);
      ClaimStarts(s, Next(s, st), st.pid, d.job, st.now);
    } else {
      StepQuiet(s, st);
      QuietStarts(s, Next(s, st));
    }
  }

  /** One job's slice after a steady step. */
  ghost predicate InTime(t: Sys, j: nat) {
    j in t.db.jobs && StampedBy(CellOf(t.db, j).log, t.clock) && Timed(CellOf(t.db, j))
  }

  lemma JobInTime(s: Sys, st: Step, j: nat)
    requires Inv(s) && SteadyInv(s) && Enabled(s, st) && Steady(s, st) && j in Next(s, st).db.jobs
    ensures InTime(Next(s, st), j)
  {
    hide Inv, DbInv, BirthsOk, PassesOk, StartsOk, Next, Enabled, Steady, AttemptsOf, LogOf, Timed, Timely;
    hide CanAct, Effect, FreshCell, ActAt, StampedBy;
    ClockGoesOn(s, st);
    if j in s.db.jobs {
      JobStep(s, st, j);
      LaterStamps(CellOf(s.db, j).log, s.clock, Next(s, st).clock);
      if FateOf(s, st, j).Acts? {
        var a := FateOf(s, st, j).act;
        TimelyDeed(s, st, j);
        InvDb(s);
        PartsOf(s.db, j);
        KeepsTimed(CellOf(s.db, j), a);
        ActStamps(CellOf(s.db, j), a, s.clock);
        LaterStamps(CellOf(Next(s, st).db, j).log, s.clock, Next(s, st).clock);
      }
    } else {
      NewJobStep(s, st, j);
      FreshTimed(st.sub, st.now);
      SubmitStamped(s, st);
    }
  }

  lemma ClockGoesOn(s: Sys, st: Step)
    requires Enabled(s, st) && Steady(s, st)
    ensures s.clock <= Next(s, st).clock
  {
    hide ClaimNext, RecordOf, UpdateHeartbeat, AddJob, RetryJob, CancelJob, PruneDelete, Reap, ListsStale, AttemptsOf;
  }

  lemma LaterStamps(log: seq<Entry>, clock: Time, later: Time)
    requires StampedBy(log, clock) && clock <= later
    ensures StampedBy(log, later)
  {
  }

  lemma SubmitStamped(s: Sys, st: Step)
    requires Enabled(s, st) && Steady(s, st) && st.Submit?
    ensures StampedBy(FreshCell(st.sub, st.now).log, Next(s, st).clock)
  {
    hide AddJob;
  }

  lemma PartsOf(db: Db, j: nat)
    requires DbInv(db) && j in db.jobs
    ensures Ownership(CellOf(db, j)) && Accounting(CellOf(db, j)) && Pacing(CellOf(db, j))
  {
    hide Ownership, Accounting, Pacing, Provenance, Sourced, OneStory, AllTold, AttemptsOf, LogOf;
    assert CellInv(CellOf(db, j));
  }

  lemma SteadyKept(s: Sys, st: Step)
    requires Inv(s) && SteadyInv(s) && Enabled(s, st) && Steady(s, st)
    ensures SteadyInv(Next(s, st))
  {
    hide DbInv, ProcsOk, EpochsOk, NumbersUnique, HoldingsOk, BirthsOk, PassesOk, StartsOk, Next, Enabled, Steady;
    hide StampedBy, Timed, AttemptsOf, LogOf;
    StepBirths(s, st);
    StepPasses(s, st);
    StepStarts(s, st);
    forall j <- Next(s, st).db.jobs
      ensures InTime(Next(s, st), j)
    {
      JobInTime(s, st, j);
    }
  }

  lemma TimedAt(s: Sys, j: nat)
    requires SteadyInv(s) && j in s.db.jobs
    ensures Timed(CellOf(s.db, j))
  {
    hide Timed, BirthsOk, PassesOk, StartsOk, StampsOk, AttemptsOf, LogOf;
  }

  lemma InitSteady(root: string, clock: Time)
    ensures SteadyInv(Init(root, clock))
  {
  }

  /** The second invariant holds after every run under a steady clock. */
  lemma {:induction false} SteadyRunInv(s: Sys, steps: seq<Step>)
    requires Inv(s) && SteadyInv(s) && Legal(s, steps) && SteadyRun(s, steps)
    ensures SteadyInv(After(s, steps))
  {
    hide Inv, SteadyInv, Next, Enabled, Steady;
    if steps != [] {
      SteadyRunInv(s, Front(steps));
      RunInv(s, Front(steps));
      SteadyKept(After(s, Front(steps)), Last(steps));
    }
  }

  lemma SteadilyReachableInv(s: Sys)
    requires SteadilyReachable(s)
    ensures Reachable(s) && Inv(s) && SteadyInv(s)
  {
    hide Inv, SteadyInv, Legal, After, SteadyRun;
    var root: string, clock: Time, steps: seq<Step> :|
      Legal(Init(root, clock), steps) && SteadyRun(Init(root, clock), steps) && After(Init(root, clock), steps) == s;
    InitInv(root, clock);
    InitSteady(root, clock);
    RunInv(Init(root, clock), steps);
    SteadyRunInv(Init(root, clock), steps);
  }

  lemma SteadilyReachableOn(s: Sys, steps: seq<Step>)
    requires SteadilyReachable(s) && Legal(s, steps) && SteadyRun(s, steps)
    ensures SteadilyReachable(After(s, steps))
  {
    hide Legal, After, SteadyRun;
    var root: string, clock: Time, first: seq<Step> :|
      Legal(Init(root, clock), first) && SteadyRun(Init(root, clock), first) && After(Init(root, clock), first) == s;
    JoinRun(Init(root, clock), first, steps);
  }
}
