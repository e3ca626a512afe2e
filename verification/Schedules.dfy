/** The start time that was asked for: from a submission on, until the job is retried. */
module Schedules {
  import opened Models
  import opened Tables
  import opened Transactions
  import opened JobCell
  import opened StoreSteps
  import opened Fleet
  import opened FleetInv
  import opened FleetDeeds
  import opened FleetRuns
  import opened Clocks
  import opened Scenarios
  import opened Lanes
  import opened Answers

  /** An operator has the job retried, and the retry is accepted. */
  predicate Readmits(s: Sys, st: Step, j: nat) {
    && st.RetryOne? && st.job == j && j in s.db.jobs
    && if st.force then s.db.jobs[j].state == Running else s.db.jobs[j].state == Dead || s.db.jobs[j].state == Canceled
  }

  ghost predicate NotReadmitted(s: Sys, steps: seq<Step>, j: nat)
    requires Legal(s, steps)
  {
    steps == [] || (NotReadmitted(s, Front(steps), j) && !Readmits(After(s, Front(steps)), Last(steps), j))
  }

  /** The start time of a submission: the one asked for, or at once. */
  function StartOf(sub: Submission, now: Time): Time {
    match sub.nextRunAt
    case Some(at) => at
    case None => now
  }

  /** The step claims the job. */
  ghost predicate ClaimsIt(s: Sys, st: Step, j: nat) {
    Enabled(s, st) && st.ClaimJob? && FateOf(s, st, j).Acts? && FateOf(s, st, j).act.Claim?
  }

  lemma ClaimedWasDue(s: Sys, st: Step, j: nat)
    requires Inv(s) && ClaimsIt(s, st, j) && j in s.db.jobs
    ensures s.db.jobs[j].state.Queued? && s.db.jobs[j].nextRunAt <= st.now
  {
    hide Inv, DbInv, Next, AttemptsOf, LogOf;
    JobStep(s, st, j);
    FateSource(s, st, j);
  }

  /** Only an accepted retry is a retry act. */
  lemma RetryIsReadmission(s: Sys, st: Step, j: nat)
    requires Inv(s) && Enabled(s, st) && j in s.db.jobs && FateOf(s, st, j).Acts? && FateOf(s, st, j).act.Retry?
    ensures Readmits(s, st, j)
  {
    hide Inv, DbInv, Next, AttemptsOf, LogOf;
    JobStep(s, st, j);
    FateSource(s, st, j);
  }

  // ----- the first claim, under any clock -----

  /** As long as the job has no attempt it waits for the time it was submitted with, unless it was canceled. */
  ghost predicate Waits(s: Sys, j: nat, from: Time) {
    && j < s.db.nextJob
    && (j in s.db.jobs && Rows(s, j) == [] && s.db.jobs[j].state.Queued? ==> s.db.jobs[j].nextRunAt == from)
  }

  lemma ActWaits(c: Cell, a: Act, from: Time)
    requires Ownership(c) && CanAct(c, a) && !a.Retry?
    requires c.attempts == [] && c.job.state.Queued? ==> c.job.nextRunAt == from
    ensures var d := Effect(c, a); d.attempts == [] && d.job.state.Queued? ==> d.job.nextRunAt == from
  {
  }

  lemma WaitsStep(s: Sys, st: Step, j: nat, from: Time)
    requires Inv(s) && Enabled(s, st) && Waits(s, j, from) && !Readmits(s, st, j)
    ensures Waits(Next(s, st), j, from)
  {
    hide Inv, DbInv, AttemptsOf, LogOf, Effect, CanAct, Ownership, Tidy, Next, Enabled, FateOf, Readmits;
    StepDeed(s, st);
    if j in s.db.jobs {
      JobStep(s, st, j);
      if FateOf(s, st, j).Acts? {
        InvDb(s);
        OwnershipOf(s.db, j);
        if FateOf(s, st, j).act.Retry? {
          RetryIsReadmission(s, st, j);
        }
        ActWaits(CellOf(s.db, j), FateOf(s, st, j).act, from);
      }
    } else {
      GoneStep(s, st, j);
    }
  }

  lemma {:induction false} WaitsOverRun(s: Sys, steps: seq<Step>, j: nat, from: Time)
    requires Reachable(s) && Legal(s, steps) && Waits(s, j, from) && NotReadmitted(s, steps, j)
    ensures Waits(After(s, steps), j, from)
  {
    hide Reachable, Inv, Next, Enabled, Waits, Readmits;
    if steps != [] {
      WaitsOverRun(s, Front(steps), j, from);
      ReachableOn(s, Front(steps));
      ReachableInv(After(s, Front(steps)));
      WaitsStep(After(s, Front(steps)), Last(steps), j, from);
    }
  }

  /** What a submission starts: a job without attempts that is queued for the time asked for. */
  lemma Submitted(s: Sys, sub: Submission, now: Time)
    requires Reachable(s) && AddJob(s.db, sub, now).1.Inserted?
    ensures var j, t := AddJob(s.db, sub, now).1.id, Next(s, Submit(sub, now));
      && Reachable(t) && j in t.db.jobs && j < t.db.nextJob && Rows(t, j) == []
      && t.db.jobs[j].state.Queued? && t.db.jobs[j].nextRunAt == StartOf(sub, now)
  {
    hide Reachable, Inv, AddJob, CellInv, AttemptsOf, LogOf;
    var st := Submit(sub, now);
    ReachableInv(s);
    InvDb(s);
    AddAnswers(s.db, sub, now);
    EmptyRun(s);
    ExtendRun(s, [], st);
    ReachableOn(s, [] + [st]);
    FreshNumber(s.db);
    NewJobStep(s, st, s.db.nextJob);
    FreshIsQueued(sub, now);
    JobNumber(Next(s, st), s.db.nextJob);
  }

  lemma FreshNumber(db: Db)
    requires DbInv(db)
    ensures db.nextJob !in db.jobs
  {
    hide CellInv, TidyAttempts, TidyEvents;
    assert Tidy(db);
  }

  /** Whatever the clocks show: until a retry of the job is accepted, its first claim reads no time before the start
      that was asked for. */
  lemma FirstClaimKeepsSchedule(s: Sys, sub: Submission, now: Time, steps: seq<Step>, st: Step)
    requires Reachable(s) && AddJob(s.db, sub, now).1.Inserted?
    requires Legal(Next(s, Submit(sub, now)), steps)
    requires NotReadmitted(Next(s, Submit(sub, now)), steps, AddJob(s.db, sub, now).1.id)
    requires ClaimsIt(After(Next(s, Submit(sub, now)), steps), st, AddJob(s.db, sub, now).1.id)
    ensures var t, j := After(Next(s, Submit(sub, now)), steps), AddJob(s.db, sub, now).1.id;
      Rows(t, j) == [] ==> st.now >= StartOf(sub, now)
  {
    hide Reachable, Inv, Legal, After, Next, AddJob, NotReadmitted, AttemptsOf, LogOf;
    var u, j := Next(s, Submit(sub, now)), AddJob(s.db, sub, now).1.id;
    Submitted(s, sub, now);
    WaitsOverRun(u, steps, j, StartOf(sub, now));
    ReachableOn(u, steps);
    ReachableInv(After(u, steps));
    if j in After(u, steps).db.jobs {
      ClaimedWasDue(After(u, steps), st, j);
    } else {
      ClaimedExists(After(u, steps), st, j);
    }
  }

  lemma ClaimedExists(s: Sys, st: Step, j: nat)
    requires Inv(s) && ClaimsIt(s, st, j)
    ensures j in s.db.jobs
  {
    hide Inv, DbInv, Next, AttemptsOf, LogOf, CanAct, Effect, Tidy;
    StepDeed(s, st);
  }

  // ----- every claim, under a steady clock -----

  /** The job cannot start, and did not start, before `from`. */
  ghost predicate StartsFrom(s: Sys, j: nat, from: Time) {
    j < s.db.nextJob && (j in s.db.jobs ==>
      && (s.db.jobs[j].state.Queued? ==> s.db.jobs[j].nextRunAt >= from)
      && (s.db.jobs[j].state.Running? ==> s.db.jobs[j].startedAt.Some? && s.db.jobs[j].startedAt.value >= from))
  }

  lemma StartsFromStep(s: Sys, st: Step, j: nat, from: Time)
    requires Inv(s) && SteadyInv(s) && Enabled(s, st) && Steady(s, st) && StartsFrom(s, j, from) && !Readmits(s, st, j)
    ensures StartsFrom(Next(s, st), j, from)
  {
    hide Inv, SteadyInv, Steady, DbInv, AttemptsOf, LogOf, Effect, CanAct, Ownership, Tidy, Next, Enabled, FateOf;
    hide Readmits, Timely;
    StepDeed(s, st);
    if j in s.db.jobs {
      JobStep(s, st, j);
      if FateOf(s, st, j).Acts? {
        InvDb(s);
        OwnershipOf(s.db, j);
        if FateOf(s, st, j).act.Retry? {
          RetryIsReadmission(s, st, j);
        }
        TimelyAt(s, st, j);
        ActNotBefore(CellOf(s.db, j), FateOf(s, st, j).act, from);
      }
    } else {
      GoneStep(s, st, j);
    }
  }

  lemma {:induction false} StartsFromOverRun(s: Sys, steps: seq<Step>, j: nat, from: Time)
    requires SteadilyReachable(s) && Legal(s, steps) && SteadyRun(s, steps)
    requires StartsFrom(s, j, from) && NotReadmitted(s, steps, j)
    ensures StartsFrom(After(s, steps), j, from)
  {
    hide SteadilyReachable, Reachable, Inv, SteadyInv, Next, Enabled, Steady, StartsFrom, Readmits;
    if steps != [] {
      StartsFromOverRun(s, Front(steps), j, from);
      SteadilyReachableOn(s, Front(steps));
      SteadilyReachableInv(After(s, Front(steps)));
      StartsFromStep(After(s, Front(steps)), Last(steps), j, from);
    }
  }

  /** Under a steady clock every claim of the job, the first one and those after a failure or a crash, reads no time
      before the start that was asked for, until a retry of the job is accepted. */
  lemma ClaimsKeepSchedule(s: Sys, sub: Submission, now: Time, steps: seq<Step>, st: Step)
    requires SteadilyReachable(s) && Steady(s, Submit(sub, now)) && AddJob(s.db, sub, now).1.Inserted?
    requires Legal(Next(s, Submit(sub, now)), steps) && SteadyRun(Next(s, Submit(sub, now)), steps)
    requires NotReadmitted(Next(s, Submit(sub, now)), steps, AddJob(s.db, sub, now).1.id)
    requires ClaimsIt(After(Next(s, Submit(sub, now)), steps), st, AddJob(s.db, sub, now).1.id)
    ensures st.now >= StartOf(sub, now)
  {
    hide SteadilyReachable, Reachable, Inv, SteadyInv, Legal, After, SteadyRun, Steady, Next, AddJob, NotReadmitted;
    hide AttemptsOf, LogOf;
    var u, j, add := Next(s, Submit(sub, now)), AddJob(s.db, sub, now).1.id, Submit(sub, now);
    SteadilyReachableInv(s);
    Submitted(s, sub, now);
    EmptyRun(s);
    ExtendRun(s, [], add);
    SteadilyReachableOn(s, [] + [add]);
    StartsFromOverRun(u, steps, j, StartOf(sub, now));
    SteadilyReachableOn(u, steps);
    SteadilyReachableInv(After(u, steps));
    ClaimedExists(After(u, steps), st, j);
    ClaimedWasDue(After(u, steps), st, j);
  }

  // ----- why later claims need a steady clock -----

  /** A worker that has just claimed the job records a failure after the clock was set back to 0. */
  lemma FailsInThePast(s: Sys, row: Job) returns (steps: seq<Step>)
    requires JustClaimed(s, row)
    ensures Legal(s, steps) && forall st <- steps :: !st.RetryOne?
    ensures var t := After(s, steps);
      && t.procs == map[] && t.clock == 0 && t.db.nextJob == 2
      && t.db.jobs == map[1 := FailedRow(ClaimedRow(row, "a", 7, s.clock), Some(1), "exit 1", 0)]
  {
    hide Legal, After, SteadyRun, CloseWhere, ClaimedRow, FailedRow;
    var a, b, c := Tick(0), RecordResult(7, Exit(1, "exit 1"), 0), Die(7);
    EmptyRun(s);
    ClaimedOwned(row, s.clock);
    ExtendRun(s, [], a);
    ExtendRun(s, [] + [a], b);
    ExtendRun(s, [] + [a] + [b], c);
    steps := [] + [a] + [b] + [c];
  }

  lemma {:induction false} NoRetryNoReadmission(s: Sys, steps: seq<Step>, j: nat)
    requires Legal(s, steps) && forall st <- steps :: !st.RetryOne?
    ensures NotReadmitted(s, steps, j)
  {
    hide Next, Enabled;
    if steps != [] {
      assert forall st <- Front(steps) :: st in steps;
      NoRetryNoReadmission(s, Front(steps), j);
      assert Last(steps) in steps;
    }
  }

  /** A job submitted for second 100 is claimed then; the clock is set back and the worker records a failure, so the
      second attempt is due at second 2: it starts long before the time asked for, although nobody retried the job. */
  lemma ClockSetBackStartsEarly(sub: Submission)
    requires sub.nextRunAt == Some(100) && sub.spec.maxRetries > 0
    ensures exists steps ::
      (Legal(Init("out", 0), steps) && NotReadmitted(Init("out", 0), steps, 1)
       && 1 in After(Init("out", 0), steps).db.jobs && After(Init("out", 0), steps).db.jobs[1].state == Running
       && After(Init("out", 0), steps).db.jobs[1].startedAt == Some(2))
  {
    hide Legal, After, SteadyRun, NotReadmitted, Reachable, SteadilyReachable, AttemptsOf;
    var s0 := Init("out", 0);
    var first := SubmitAndClaim(sub);
    var s1 := After(s0, first);
    var second := FailsInThePast(s1, NewRow(sub, 0));
    var s2 := After(s1, second);
    assert BackoffSeconds(1) == 2 by { BackoffClosedForm(1); PowersOfTwo(); }
    var third := WaitAndClaim(s2, sub.spec);
    JoinRun(s0, first, second);
    JoinRun(s0, first + second, third);
    JoinNotReadmitted(s0, first, second, third);
    assert After(s2, third).clock == 2;
  }

  lemma JoinNotReadmitted(s: Sys, first: seq<Step>, second: seq<Step>, third: seq<Step>)
    requires Legal(s, first) && Unattended(first)
    requires Legal(s, first + second + third) && Unattended(third) && forall st <- second :: !st.RetryOne?
    ensures NotReadmitted(s, first + second + third, 1)
  {
    hide Legal, After, NotReadmitted;
    NoRetryNoReadmission(s, first + second + third, 1);
  }
}
