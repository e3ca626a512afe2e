/** Retry and crash budgets, and the delays between attempts, over every run. */
module Budgets {
  import opened Models
  import opened Tables
  import opened Transactions
  import opened Ledger
  import opened JobCell
  import opened StoreSteps
  import opened Fleet
  import opened FleetInv
  import opened FleetDeeds
  import opened FleetRuns
  import opened Clocks

  // ----- event sourcing -----

  /** Replaying the retained trail of any job is legal and reproduces its row and all its attempts. */
  lemma EventSourcing(s: Sys, j: nat)
    requires Reachable(s) && j in s.db.jobs
    ensures var r := Replay(LogOf(s.db.events, j)); r.Live? && Shows(r.p, CellOf(s.db, j))
  {
    hide Reachable, Ownership, Accounting, Pacing, Provenance, OneStory, Replay, AttemptsOf, LogOf, Shows;
    ReachableCell(s, j);
  }

  // ----- budgets -----

  /** The row's counters count the non-successes and the crashes of the current round; both budgets hold while
      the job is active; and no round of the whole trail has more claims than the two budgets allow. */
  lemma BudgetsOverRuns(s: Sys, j: nat)
    requires Reachable(s) && j in s.db.jobs
    ensures var job, t := s.db.jobs[j], Round(LogOf(s.db.events, j));
      && job.attempts == t.misses && job.crashes == t.crashes <= job.attempts
      && (Active(job) ==> job.attempts - job.crashes <= job.spec.maxRetries)
      && (Active(job) && Bounded(job.spec) ==> job.crashes <= job.spec.maxCrashes.value)
    ensures Bounded(s.db.jobs[j].spec) ==> RoundsWithin(LogOf(s.db.events, j), MostClaims(s.db.jobs[j].spec))
  {
    hide Reachable, Ownership, Pacing, Provenance, Sourced, OneStory, AttemptsOf, LogOf, Round, RoundsWithin;
    ReachableCell(s, j);
  }

  /** Claims the job can still have: all of its budgets, and the failure budget alone. */
  function Remaining(job: Job): int {
    if !Bounded(job.spec) then 0
    else if job.state.Queued? then MostClaims(job.spec) - job.attempts
    else if job.state.Running? then MostClaims(job.spec) - job.attempts - 1
    else 0
  }

  function Unspent(job: Job): int {
    if job.state.Queued? then job.spec.maxRetries + 1 - (job.attempts - job.crashes)
    else if job.state.Running? then job.spec.maxRetries - (job.attempts - job.crashes)
    else 0
  }

  function RemainingOf(s: Sys, j: nat): int {
    if j in s.db.jobs then Remaining(s.db.jobs[j]) else 0
  }

  function UnspentOf(s: Sys, j: nat): int {
    if j in s.db.jobs then Unspent(s.db.jobs[j]) else 0
  }

  ghost predicate ClaimsJob(s: Sys, st: Step, j: nat) {
    Enabled(s, st) && DeedOf(s, st).On? && DeedOf(s, st).job == j && DeedOf(s, st).act.Claim?
  }

  ghost predicate ReapsJob(s: Sys, st: Step, j: nat) {
    Enabled(s, st) && DeedOf(s, st).On? && DeedOf(s, st).job == j && DeedOf(s, st).act.Crash?
  }

  /** How often a run claims job `j`, and how often it reaps it. */
  ghost function ClaimsOf(s: Sys, steps: seq<Step>, j: nat): nat
    requires Legal(s, steps)
  {
    if steps == [] then 0
    else ClaimsOf(s, Front(steps), j) + (if ClaimsJob(After(s, Front(steps)), Last(steps), j) then 1 else 0)
  }

  ghost function ReapsOf(s: Sys, steps: seq<Step>, j: nat): nat
    requires Legal(s, steps)
  {
    if steps == [] then 0
    else ReapsOf(s, Front(steps), j) + (if ReapsJob(After(s, Front(steps)), Last(steps), j) then 1 else 0)
  }

  lemma ActPays(c: Cell, a: Act)
    requires Ownership(c) && Accounting(c) && CanAct(c, a) && !a.Retry?
    ensures Remaining(RowAfter(c.job, a)) + (if a.Claim? then 1 else 0) <= Remaining(c.job)
      || (!Bounded(c.job.spec) && Remaining(RowAfter(c.job, a)) == Remaining(c.job) == 0)
    ensures Unspent(RowAfter(c.job, a)) + (if a.Claim? then 1 else 0) <= Unspent(c.job) + (if a.Crash? then 1 else 0)
    ensures Remaining(RowAfter(c.job, a)) >= 0 && Unspent(RowAfter(c.job, a)) >= 0
    ensures RowAfter(c.job, a).spec == c.job.spec
  {
    KeepsAccounting(c, a);
    hide Round, RoundsWithin;
  }

  lemma StepPays(s: Sys, st: Step, j: nat)
    requires Inv(s) && Enabled(s, st) && j < s.db.nextJob && !(st.RetryOne? && st.job == j)
    ensures var t := Next(s, st);
      && (j in t.db.jobs ==> j in s.db.jobs && t.db.jobs[j].spec == s.db.jobs[j].spec)
      && (j in s.db.jobs && Bounded(s.db.jobs[j].spec) ==>
            RemainingOf(t, j) + (if ClaimsJob(s, st, j) then 1 else 0) <= RemainingOf(s, j))
      && (UnspentOf(t, j) + (if ClaimsJob(s, st, j) then 1 else 0)
            <= UnspentOf(s, j) + (if ReapsJob(s, st, j) then 1 else 0))
      && (j !in s.db.jobs ==> !ClaimsJob(s, st, j))
      && s.db.nextJob <= t.db.nextJob
  {
    hide Inv, DbInv, AttemptsOf, LogOf, Accounting, Ownership, Remaining, Unspent, Effect, CanAct, Next, Enabled, Tidy;
    StepDeed(s, st);
    if j in s.db.jobs {
      JobStep(s, st, j);
      FateSource(s, st, j);
      CellParts(s, j);
      if FateOf(s, st, j).Acts? {
        ActPays(CellOf(s.db, j), FateOf(s, st, j).act);
        assert Next(s, st).db.jobs[j] == Effect(CellOf(s.db, j), FateOf(s, st, j).act).job;
        EffectRow(CellOf(s.db, j), FateOf(s, st, j).act);
      }
      NonNegative(CellOf(s.db, j));
    } else if j in Next(s, st).db.jobs {
      NewJobStep(s, st, j);
    }
  }

  lemma EffectRow(c: Cell, a: Act)
    ensures Effect(c, a).job == RowAfter(c.job, a)
  {
  }

  lemma NonNegative(c: Cell)
    requires Accounting(c)
    ensures Remaining(c.job) >= 0 && Unspent(c.job) >= 0
  {
    hide Round, RoundsWithin;
  }

  lemma CellParts(s: Sys, j: nat)
    requires Inv(s) && j in s.db.jobs
    ensures Ownership(CellOf(s.db, j)) && Accounting(CellOf(s.db, j))
  {
    hide Inv, Ownership, Accounting, Pacing, Provenance, Sourced, OneStory, AttemptsOf, LogOf;
    InvDb(s);
    assert CellInv(CellOf(s.db, j));
  }

  /** Without a manual retry, a job with a bounded crash budget is claimed at most as often as its budgets have
      left; with or without such a bound, every claim beyond the failure budget is paid for by a reap. */
  lemma {:induction false} ClaimsArePaid(s: Sys, steps: seq<Step>, j: nat)
    requires Reachable(s) && Legal(s, steps) && j < s.db.nextJob
    requires forall i :: 0 <= i < |steps| ==> !(steps[i].RetryOne? && steps[i].job == j)
    ensures j in s.db.jobs && Bounded(s.db.jobs[j].spec) ==>
      ClaimsOf(s, steps, j) + RemainingOf(After(s, steps), j) <= RemainingOf(s, j)
    ensures ClaimsOf(s, steps, j) + UnspentOf(After(s, steps), j) <= UnspentOf(s, j) + ReapsOf(s, steps, j)
    ensures j in After(s, steps).db.jobs ==>
      j in s.db.jobs && After(s, steps).db.jobs[j].spec == s.db.jobs[j].spec
    ensures j < After(s, steps).db.nextJob
  {
    hide Reachable, Inv, Next, Enabled, ClaimsJob, ReapsJob, RemainingOf, UnspentOf;
    if steps != [] {
      var mid := After(s, Front(steps));
      ClaimsArePaid(s, Front(steps), j);
      ReachableOn(s, Front(steps));
      ReachableInv(mid);
      StepPays(mid, Last(steps), j);
      PaidStep(s, mid, After(s, steps), j);
    }
  }

  /** Once a job is gone it has nothing left to claim. */
  lemma PaidStep(s: Sys, mid: Sys, t: Sys, j: nat)
    ensures j !in mid.db.jobs ==> RemainingOf(mid, j) == 0
    ensures j !in t.db.jobs ==> RemainingOf(t, j) == 0
  {
  }

  /** The claims left to all jobs below `n`, and the claims a run makes on them. */
  function RemainingBelow(s: Sys, n: nat): int {
    if n == 0 then 0 else RemainingBelow(s, n - 1) + RemainingOf(s, n - 1)
  }

  ghost function ClaimsBelow(s: Sys, steps: seq<Step>, n: nat): nat
    requires Legal(s, steps)
  {
    if n == 0 then 0 else ClaimsBelow(s, steps, n - 1) + ClaimsOf(s, steps, n - 1)
  }

  /** A run without retries claims the jobs it starts with at most as often as their budgets have left in total,
      when all crash budgets are bounded. */
  lemma {:induction false} ClaimsRunOut(s: Sys, steps: seq<Step>, n: nat)
    requires Reachable(s) && Legal(s, steps) && n <= s.db.nextJob
    requires forall i :: 0 <= i < |steps| ==> !steps[i].RetryOne?
    requires forall j <- s.db.jobs :: Bounded(s.db.jobs[j].spec)
    ensures ClaimsBelow(s, steps, n) <= RemainingBelow(s, n)
  {
    hide Reachable, After, Legal;
    if n > 0 {
      ClaimsRunOut(s, steps, n - 1);
      ClaimsArePaid(s, steps, n - 1);
      RemainingIsNatural(s, steps, n - 1);
      if n - 1 !in s.db.jobs {
        NoClaimsOnNothing(s, steps, n - 1);
      }
    }
  }

  // ----- all claims of a run -----

  ghost predicate Claiming(s: Sys, st: Step) {
    Enabled(s, st) && DeedOf(s, st).On? && DeedOf(s, st).act.Claim?
  }

  /** How many claims a run makes, on whatever jobs. */
  ghost function ClaimsIn(s: Sys, steps: seq<Step>): nat
    requires Legal(s, steps)
  {
    if steps == [] then 0
    else ClaimsIn(s, Front(steps)) + (if Claiming(After(s, Front(steps)), Last(steps)) then 1 else 0)
  }

  /** A step adds one to the sum over all jobs if and only if it claims one of them. */
  lemma {:induction false} SumGrows(s: Sys, steps: seq<Step>, n: nat)
    requires Legal(s, steps) && steps != []
    ensures var mid := After(s, Front(steps)); var st := Last(steps);
      ClaimsBelow(s, steps, n) ==
      ClaimsBelow(s, Front(steps), n) + (if Claiming(mid, st) && DeedOf(mid, st).job < n then 1 else 0)
  {
    hide Next, Enabled, DeedOf, After;
    if n > 0 {
      SumGrows(s, steps, n - 1);
    }
  }

  lemma {:induction false} NothingClaimed(s: Sys, n: nat)
    ensures ClaimsBelow(s, [], n) == 0
  {
    if n > 0 {
      NothingClaimed(s, n - 1);
    }
  }

  /** Without a submission, the claims of a run are the claims on the jobs it starts with. */
  lemma {:induction false} ClaimsAddUp(s: Sys, steps: seq<Step>)
    requires Reachable(s) && Legal(s, steps) && forall i :: 0 <= i < |steps| ==> !steps[i].Submit?
    ensures ClaimsIn(s, steps) == ClaimsBelow(s, steps, s.db.nextJob) && After(s, steps).db.nextJob == s.db.nextJob
  {
    hide Reachable, Inv, Next, Enabled, Claiming, ClaimsBelow;
    if steps == [] {
      NothingClaimed(s, s.db.nextJob);
    } else {
      var mid := After(s, Front(steps));
      ClaimsAddUp(s, Front(steps));
      ReachableOn(s, Front(steps));
      ReachableInv(mid);
      ClaimsKnownJob(mid, Last(steps));
      SumGrows(s, steps, s.db.nextJob);
    }
  }

  lemma ClaimsKnownJob(s: Sys, st: Step)
    requires Inv(s) && Enabled(s, st) && !st.Submit?
    ensures Claiming(s, st) ==> DeedOf(s, st).job < s.db.nextJob
    ensures Next(s, st).db.nextJob == s.db.nextJob
  {
    hide Inv, CellInv, AttemptsOf, LogOf, Pick, TidyAttempts, TidyEvents, CanAct, Effect;
    hide RecordOf, Reap, PruneDelete, AddJob, RetryJob, CancelJob, UpdateHeartbeat, Grant, ListsStale;
    StepDeed(s, st);
    InvDb(s);
  }

  /** Every run without submissions and retries makes finitely many claims, when all crash budgets are bounded: no
      more than the budgets have left at its start. */
  lemma RunClaimsAreBounded(s: Sys, steps: seq<Step>)
    requires Reachable(s) && Legal(s, steps)
    requires forall i :: 0 <= i < |steps| ==> !steps[i].Submit? && !steps[i].RetryOne?
    requires forall j <- s.db.jobs :: Bounded(s.db.jobs[j].spec)
    ensures ClaimsIn(s, steps) <= RemainingBelow(s, s.db.nextJob)
  {
    hide Reachable, Legal, After, ClaimsIn, ClaimsBelow, RemainingBelow;
    ClaimsAddUp(s, steps);
    ClaimsRunOut(s, steps, s.db.nextJob);
  }

  lemma RemainingIsNatural(s: Sys, steps: seq<Step>, j: nat)
    requires Reachable(s) && Legal(s, steps)
    ensures RemainingOf(After(s, steps), j) >= 0
  {
    hide Reachable, Inv, Legal, After, Remaining, AttemptsOf, LogOf;
    var t := After(s, steps);
    ReachableOn(s, steps);
    if j in t.db.jobs {
      ReachableInv(t);
      CellParts(t, j);
      NonNegative(CellOf(t.db, j));
    }
  }

  /** A number that belongs to no job, now or by a later submission, is never claimed. */
  lemma {:induction false} NoClaimsOnNothing(s: Sys, steps: seq<Step>, j: nat)
    requires Reachable(s) && Legal(s, steps) && j < s.db.nextJob && j !in s.db.jobs
    ensures ClaimsOf(s, steps, j) == 0 && j !in After(s, steps).db.jobs && j < After(s, steps).db.nextJob
  {
    hide Reachable, Inv, Next, Enabled;
    if steps != [] {
      var mid := After(s, Front(steps));
      NoClaimsOnNothing(s, Front(steps), j);
      ReachableOn(s, Front(steps));
      ReachableInv(mid);
      NothingStays(mid, Last(steps), j);
    }
  }

  lemma NothingStays(s: Sys, st: Step, j: nat)
    requires Inv(s) && Enabled(s, st) && j < s.db.nextJob && j !in s.db.jobs
    ensures !ClaimsJob(s, st, j) && j !in Next(s, st).db.jobs && j < Next(s, st).db.nextJob
  {
    hide Inv, DbInv, AttemptsOf, LogOf, Pick, Tidy, CanAct, Effect;
    hide RecordOf, Reap, PruneDelete, AddJob, RetryJob, CancelJob, UpdateHeartbeat, Grant, ListsStale;
    StepDeed(s, st);
    assert j in Next(s, st).db.jobs <==> j in Next(s, st).db.jobs.Keys;
  }

  // ----- delays -----

  /** Every claim in a job's trail that follows k non-successes of its round comes at least min(60, 2^k) seconds
      after the newest of them. */
  lemma DelaysAreWaitedOut(s: Sys, j: nat, i: nat)
    requires Reachable(s) && j in s.db.jobs && i < |LogOf(s.db.events, j)| && LogOf(s.db.events, j)[i].kind.Claimed?
    ensures var log := LogOf(s.db.events, j); var t := Round(log[..i]);
      t.lastMiss.Some? ==> log[i].at - t.lastMiss.value >= Min(60, Pow2(t.misses))
  {
    ReachableCell(s, j);
    hide Reachable, Ownership, Accounting, Provenance, Sourced, OneStory, AttemptsOf, LogOf, Round, Delays;
    assert Spaced(CellOf(s.db, j).log);
    assert WaitedOut(Round(LogOf(s.db.events, j)[..i]), LogOf(s.db.events, j)[i].at);
  }

  /** Under a steady clock, a job that died of R + 1 failures and no crash spent at least the closed-form sum between
      its round's first claim and its death. */
  lemma DeathTakesItsTime(s: Sys, j: nat)
    requires SteadilyReachable(s) && j in s.db.jobs && s.db.jobs[j].state.Dead? && s.db.jobs[j].crashes == 0
    ensures var job, t := s.db.jobs[j], Round(LogOf(s.db.events, j)); var r := job.spec.maxRetries;
      && job.attempts == r + 1
      && t.firstClaim.Some? && job.finishedAt.Some?
      && job.finishedAt.value - t.firstClaim.value >= if r <= 5 then Pow2(r + 1) - 2 else 62 + 60 * (r - 5)
  {
    hide Reachable, SteadilyReachable, Inv, SteadyInv, Ownership, Provenance, Sourced, OneStory, AllTold;
    hide AttemptsOf, LogOf, Round, RoundsWithin, Spaced;
    SteadilyReachableInv(s);
    ReachableCell(s, j);
    TimedAt(s, j);
    var r := s.db.jobs[j].spec.maxRetries;
    if r == 0 {
      assert Pow2(1) == 2;
    } else {
      BackoffClosedForm(r);
    }
  }
}
