/** The claim bound is reached: for all budgets, a run of workers that crash and fail in turn uses up every claim; and
    without a bound on crashes there is no bound on claims. */
module Tightness {
  import opened Models
  import opened Tables
  import opened Transactions
  import opened Ledger
  import opened JobCell
  import opened Fleet
  import opened FleetRuns
  import opened Scenarios
  import opened Budgets

  /** One more claim that crashes while crashes are free, and fails afterwards. */
  lemma SpendOne(s: Sys, spec: Spec) returns (steps: seq<Step>)
    requires Reachable(s) && Deserted(s, spec) && s.db.jobs[1].state.Queued?
    ensures Legal(s, steps) && SteadyRun(s, steps) && Unattended(steps)
    ensures var t, job := After(s, steps), s.db.jobs[1];
      && Deserted(t, spec)
      && t.db.jobs[1].attempts == job.attempts + 1
      && if !Bounded(spec) || job.crashes < spec.maxCrashes.value then t.db.jobs[1].state.Queued?
         else t.db.jobs[1].crashes == job.crashes
              && t.db.jobs[1].state == if job.attempts - job.crashes < spec.maxRetries then Queued else Dead
  {
    hide Legal, After, SteadyRun, SteadilyReachable, Reachable;
    var row := s.db.jobs[1];
    var first := WaitAndClaim(s, spec);
    var mid := After(s, first);
    var second;
    if !Bounded(spec) || row.crashes < spec.maxCrashes.value {
      second := CrashAndReap(mid, row);
    } else {
      second := FailAndLeave(mid, row);
    }
    JoinRun(s, first, second);
    steps := first + second;
  }

  /** From any queued row with nobody alive, the rest of both budgets can be used up in full. */
  lemma SpendAll(s: Sys, spec: Spec) returns (steps: seq<Step>)
    requires Reachable(s) && Deserted(s, spec) && s.db.jobs[1].state.Queued? && Bounded(spec)
    ensures Legal(s, steps) && SteadyRun(s, steps) && Unattended(steps)
    ensures var t := After(s, steps);
      1 in t.db.jobs && t.db.jobs[1].state.Dead? && t.db.jobs[1].attempts == MostClaims(spec)
    decreases MostClaims(spec) - s.db.jobs[1].attempts
  {
    hide Legal, After, SteadyRun, SteadilyReachable, Reachable, Round, RoundsWithin, LogOf;
    BudgetsOverRuns(s, 1);
    steps := SpendOne(s, spec);
    var t := After(s, steps);
    ReachableOn(s, steps);
    BudgetsOverRuns(t, 1);
    if t.db.jobs[1].state.Queued? {
      var rest := SpendAll(t, spec);
      JoinRun(s, steps, rest);
      steps := steps + rest;
    }
  }

  /** The claim bound is tight: every submission with a bounded crash budget has a run of worker processes, without
      a retry, that claims the job exactly `maxRetries + maxCrashes + 1` times. */
  lemma BudgetIsTight(sub: Submission)
    requires Bounded(sub.spec)
    ensures exists steps ::
      (Legal(Init("out", 0), steps) && SteadyRun(Init("out", 0), steps) && Unattended(steps)
       && Round(LogOf(After(Init("out", 0), steps).db.events, 1)).claims == MostClaims(sub.spec))
  {
    hide Legal, After, SteadyRun, SteadilyReachable, Reachable, Round, LogOf;
    var s0, add := Init("out", 0), Submit(sub, 0);
    SubmitFirst(sub);
    var s1 := After(s0, [add]);
    var rest := SpendAll(s1, sub.spec);
    JoinRun(s0, [add], rest);
    ReachableOn(s1, rest);
    ClaimsAreAttempts(After(s1, rest), 1);
  }

  /** With an unbounded crash budget a job can be claimed and reaped any number of times. */
  lemma {:induction false} SpendMany(s: Sys, spec: Spec, n: nat) returns (steps: seq<Step>)
    requires Reachable(s) && Deserted(s, spec) && s.db.jobs[1].state.Queued? && !Bounded(spec)
    ensures Legal(s, steps) && SteadyRun(s, steps) && Unattended(steps)
    ensures var t := After(s, steps);
      Deserted(t, spec) && t.db.jobs[1].state.Queued? && t.db.jobs[1].attempts == s.db.jobs[1].attempts + n
    decreases n
  {
    hide Legal, After, SteadyRun, SteadilyReachable, Reachable;
    if n == 0 {
      EmptyRun(s);
      steps := [];
    } else {
      var first := SpendOne(s, spec);
      ReachableOn(s, first);
      var rest := SpendMany(After(s, first), spec, n - 1);
      JoinRun(s, first, rest);
      steps := first + rest;
    }
  }

  /** So no bound on claims exists without a bound on crashes: for every n some run, without a retry, claims the
      job exactly n times. */
  lemma UnboundedCrashesNeverRunOut(sub: Submission, n: nat)
    requires !Bounded(sub.spec)
    ensures exists steps ::
      (Legal(Init("out", 0), steps) && SteadyRun(Init("out", 0), steps) && Unattended(steps)
       && Round(LogOf(After(Init("out", 0), steps).db.events, 1)).claims == n)
  {
    hide Legal, After, SteadyRun, SteadilyReachable, Reachable, Round, LogOf;
    var s0, add := Init("out", 0), Submit(sub, 0);
    SubmitFirst(sub);
    var s1 := After(s0, [add]);
    var rest := SpendMany(s1, sub.spec, n);
    JoinRun(s0, [add], rest);
    ReachableOn(s1, rest);
    ClaimsAreAttempts(After(s1, rest), 1);
  }

  lemma ClaimsAreAttempts(s: Sys, j: nat)
    requires Reachable(s) && j in s.db.jobs && (s.db.jobs[j].state.Dead? || s.db.jobs[j].state.Queued?)
    ensures Round(LogOf(s.db.events, j)).claims == s.db.jobs[j].attempts
  {
    hide Reachable, Ownership, Pacing, Provenance, Sourced, OneStory, AllTold, AttemptsOf, LogOf, Round, RoundsWithin;
    ReachableCell(s, j);
  }
}
