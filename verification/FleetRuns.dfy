/** Runs of the fleet: reachable states, and what one step can do to one job. */
module FleetRuns {
  import opened Models
  import opened Tables
  import opened Transactions
  import opened JobCell
  import opened StoreSteps
  import opened Fleet
  import opened FleetInv
  import opened FleetDeeds
  import opened FleetKeeps

  /** Some run of the fleet, from an empty database, ends in `s`. */
  ghost predicate Reachable(s: Sys) {
    exists root: string, clock: Time, steps: seq<Step> ::
      Legal(Init(root, clock), steps) && After(Init(root, clock), steps) == s
  }

  /** Some run under a steady clock does. */
  ghost predicate SteadilyReachable(s: Sys) {
    exists root: string, clock: Time, steps: seq<Step> ::
      Legal(Init(root, clock), steps) && SteadyRun(Init(root, clock), steps) && After(Init(root, clock), steps) == s
  }

  lemma ReachableInv(s: Sys)
    requires Reachable(s)
    ensures Inv(s)
  {
    hide Inv, Legal, After;
    var root: string, clock: Time, steps: seq<Step> :|
      Legal(Init(root, clock), steps) && After(Init(root, clock), steps) == s;
    InitInv(root, clock);
    RunInv(Init(root, clock), steps);
  }

  lemma ReachableCell(s: Sys, j: nat)
    requires Reachable(s) && j in s.db.jobs
    ensures CellInv(CellOf(s.db, j))
  {
    hide CellInv, Reachable;
    ReachableInv(s);
    InvDb(s);
  }

  // ----- splitting runs -----

  /** A run can be cut after any number of steps. */
  lemma {:induction false} CutRun(s: Sys, steps: seq<Step>, n: nat)
    requires Legal(s, steps) && n <= |steps|
    ensures Legal(s, steps[..n])
  {
    hide Next, Enabled;
    if n < |steps| {
      assert Front(steps)[..n] == steps[..n];
      CutRun(s, Front(steps), n);
    } else {
      assert steps[..n] == steps;
    }
  }

  /** Two runs can be put end to end, and every continuation of a run is a run. */
  lemma {:induction false} JoinRun(s: Sys, first: seq<Step>, second: seq<Step>)
    requires Legal(s, first) && Legal(After(s, first), second)
    ensures Legal(s, first + second) && After(s, first + second) == After(After(s, first), second)
    ensures SteadyRun(s, first) && SteadyRun(After(s, first), second) ==> SteadyRun(s, first + second)
  {
    hide Next, Enabled, Steady;
    if second == [] {
      assert first + second == first;
    } else {
      JoinRun(s, first, Front(second));
      assert Front(first + second) == first + Front(second);
    }
  }

  lemma ReachableOn(s: Sys, steps: seq<Step>)
    requires Reachable(s) && Legal(s, steps)
    ensures Reachable(After(s, steps))
  {
    hide Legal, After;
    var root: string, clock: Time, first: seq<Step> :|
      Legal(Init(root, clock), first) && After(Init(root, clock), first) == s;
    JoinRun(Init(root, clock), first, steps);
  }

  // ----- one step, one job -----

  /** A live process works on the job, whether or not it still owns it. */
  predicate Executes(s: Sys, pid: Pid, j: nat) {
    pid in s.procs && s.procs[pid].phase.Busy? && s.procs[pid].phase.job == j
  }

  /** What a step does to one retained job. */
  datatype Fate = Stays | Acts(act: Act) | Leaves

  ghost function FateOf(s: Sys, st: Step, j: nat): Fate
    requires Enabled(s, st)
  {
    match DeedOf(s, st)
    case On(i, a) => if i == j then Acts(a) else Stays
    case Drop => if j in Next(s, st).db.jobs then Stays else Leaves
    case _ => Stays
  }

  /** The job is left alone, or undergoes one act it admits, or is pruned with all its rows once it has settled. */
  ghost predicate Follows(s: Sys, st: Step, j: nat)
    requires Enabled(s, st) && j in s.db.jobs
  {
    var t := Next(s, st);
    match FateOf(s, st, j)
    case Stays => j in t.db.jobs && CellOf(t.db, j) == CellOf(s.db, j)
    case Acts(a) =>
      j in t.db.jobs && CanAct(CellOf(s.db, j), a) && CellOf(t.db, j) == Effect(CellOf(s.db, j), a)
    case Leaves => j !in t.db.jobs && st.Prune? && Terminal(s.db.jobs[j].state)
  }

  lemma PrunedIsSettled(s: Sys, st: Step, j: nat)
    requires Inv(s) && Enabled(s, st) && st.Prune? && j in s.db.jobs && j !in Next(s, st).db.jobs
    ensures Terminal(s.db.jobs[j].state)
  {
    hide Inv, DbInv, Terminal, Kept, PruneDelete;
    InvDb(s);
    PruneKeeps(s.db, st.ids, st.states, st.cutoff);
    assert s.db.jobs[j].state in st.states;
  }

  lemma JobStep(s: Sys, st: Step, j: nat)
    requires Inv(s) && Enabled(s, st) && j in s.db.jobs
    ensures Follows(s, st, j)
  {
    hide Inv, DbInv, Tidy, Effect, CanAct, AttemptsOf, LogOf, Next, Enabled;
    StepDeed(s, st);
    if DeedOf(s, st).Drop? && j !in Next(s, st).db.jobs {
      PrunedIsSettled(s, st, j);
    }
  }

  /** Which steps lead to which acts. */
  ghost predicate ComesFrom(s: Sys, st: Step, a: Act) {
    match a
    case Claim(row) => st.ClaimJob? && row.startedAt == st.now && row.pid == st.pid && row.id == s.db.nextAttempt
    case Beat(at) => st.SendBeat? && st.now == at
    case Succeed(_, _) => st.RecordResult?
    case Fail(_, _, _, _, _, _) => st.RecordResult?
    case Crash(_, _, _) => st.ReapStale?
    case Retry(force, at) => st.RetryOne? && st.force == force && st.now == at
    case Cancel(at) => st.CancelOne? && st.now == at
  }

  lemma FateSource(s: Sys, st: Step, j: nat)
    requires Enabled(s, st)
    ensures FateOf(s, st, j).Acts? ==> ComesFrom(s, st, FateOf(s, st, j).act)
    ensures FateOf(s, st, j).Acts? && FateOf(s, st, j).act.Retry? ==> st.job == j
    ensures FateOf(s, st, j).Acts? && FateOf(s, st, j).act.Cancel? ==> st.job == j
  {
    hide Next, AttemptsOf, Pick, Grant, ListsStale, AddJob, MaxAttemptNo, AttemptDir;
  }

  /** A job that appears in a step was submitted by that step. */
  lemma NewJobStep(s: Sys, st: Step, j: nat)
    requires Inv(s) && Enabled(s, st) && j !in s.db.jobs && j in Next(s, st).db.jobs
    ensures st.Submit? && j == s.db.nextJob && CellOf(Next(s, st).db, j) == FreshCell(st.sub, st.now)
  {
    hide Inv, DbInv, Tidy, Effect, CanAct, AttemptsOf, LogOf;
    StepDeed(s, st);
    assert j in Next(s, st).db.jobs.Keys;
  }

  // ----- rows and numbers over runs -----

  lemma NoRowsLeft(s: Sys, j: nat)
    requires Inv(s) && j !in s.db.jobs
    ensures Rows(s, j) == []
  {
    hide Inv, CellInv, TidyEvents;
    InvDb(s);
    assert TidyAttempts(s.db.attempts, s.db.nextAttempt, s.db.jobs.Keys);
    NoRowsOf(s.db, j, s.db.attempts, []);
  }

  lemma NewestRuns(s: Sys, j: nat)
    requires Reachable(s) && j in s.db.jobs && s.db.jobs[j].state.Running?
    ensures Rows(s, j) != [] && Last(Rows(s, j)).state.AttRunning?
  {
    ReachableCell(s, j);
    hide Reachable, Accounting, Pacing, Provenance, Sourced, OneStory, AllTold, AttemptsOf, LogOf;
  }

  /** A number handed out before belongs to nobody once its job is gone. */
  lemma GoneStep(s: Sys, st: Step, j: nat)
    requires Inv(s) && Enabled(s, st) && j < s.db.nextJob && j !in s.db.jobs
    ensures j < Next(s, st).db.nextJob && j !in Next(s, st).db.jobs
  {
    hide Inv, DbInv, AttemptsOf, LogOf, Tidy, CanAct, Effect, Next, Enabled;
    StepDeed(s, st);
    if j in Next(s, st).db.jobs {
      NewJobStep(s, st, j);
    }
  }

  lemma {:induction false} GoneForGood(s: Sys, steps: seq<Step>, j: nat)
    requires Reachable(s) && Legal(s, steps) && j < s.db.nextJob && j !in s.db.jobs
    ensures j < After(s, steps).db.nextJob && j !in After(s, steps).db.jobs
  {
    hide Reachable, Inv, Next, Enabled;
    if steps != [] {
      GoneForGood(s, Front(steps), j);
      ReachableOn(s, Front(steps));
      ReachableInv(After(s, Front(steps)));
      GoneStep(After(s, Front(steps)), Last(steps), j);
    }
  }

  lemma JobNumber(s: Sys, j: nat)
    requires Reachable(s) && j in s.db.jobs
    ensures 0 < j < s.db.nextJob
  {
    hide Reachable, Inv, CellInv, TidyAttempts, TidyEvents;
    ReachableInv(s);
    InvDb(s);
  }
}
