/** Settled jobs over every run: success is final, and waiting, read by read, gives a verdict that stays true. */
module Settlement {
  import opened Models
  import opened Tables
  import opened Transactions
  import opened JobCell
  import opened StoreSteps
  import opened Fleet
  import opened FleetInv
  import opened FleetDeeds
  import opened FleetRuns
  import opened Scenarios

  // ----- success is final -----

  /** The step could bring the settled job back, or delete it. */
  predicate Disturbs(st: Step, j: nat) {
    (st.RetryOne? && st.job == j) || (st.Prune? && j in st.ids)
  }

  lemma SettledActs(c: Cell, a: Act)
    requires Terminal(c.job.state) && CanAct(c, a)
    ensures a.Retry? && !a.force && !c.job.state.Done?
  {
  }

  /** A settled job stays exactly as it is, row, attempts and trail, unless the step retries or prunes it; a
      success is not even changed by a retry. */
  lemma SettledStep(s: Sys, st: Step, j: nat)
    requires Inv(s) && Enabled(s, st) && j in s.db.jobs && Terminal(s.db.jobs[j].state)
    ensures !Disturbs(st, j) || (s.db.jobs[j].state.Done? && !st.Prune?) ==>
      j in Next(s, st).db.jobs && CellOf(Next(s, st).db, j) == CellOf(s.db, j)
    ensures j in Next(s, st).db.jobs && !st.RetryOne? ==> CellOf(Next(s, st).db, j) == CellOf(s.db, j)
  {
    hide Inv, DbInv, AttemptsOf, LogOf, RecordOf, Reap, AddJob, RetryJob, CancelJob, UpdateHeartbeat, Grant, Pick;
    hide ListsStale, Effect, CanAct, PruneDelete, Terminal;
    JobStep(s, st, j);
    if FateOf(s, st, j).Acts? {
      SettledActs(CellOf(s.db, j), FateOf(s, st, j).act);
    } else if FateOf(s, st, j).Leaves? {
      InvDb(s);
      PruneKeeps(s.db, st.ids, st.states, st.cutoff);
    }
  }

  /** A done job never changes again in any run; at most it is pruned, and its number is not used again. */
  lemma {:induction false} SuccessIsFinal(s: Sys, steps: seq<Step>, j: nat)
    requires Reachable(s) && Legal(s, steps) && j in s.db.jobs && s.db.jobs[j].state.Done?
    ensures var t := After(s, steps); j < t.db.nextJob && (j in t.db.jobs ==> CellOf(t.db, j) == CellOf(s.db, j))
  {
    hide Reachable, Inv, Next, Enabled, AttemptsOf, LogOf;
    if steps == [] {
      JobNumber(s, j);
    } else {
      var mid := After(s, Front(steps));
      SuccessIsFinal(s, Front(steps), j);
      ReachableOn(s, Front(steps));
      ReachableInv(mid);
      FinalStep(mid, Last(steps), j);
    }
  }

  lemma FinalStep(s: Sys, st: Step, j: nat)
    requires Inv(s) && Enabled(s, st) && j < s.db.nextJob && (j in s.db.jobs ==> s.db.jobs[j].state.Done?)
    ensures var t := Next(s, st);
      && j < t.db.nextJob
      && (j in t.db.jobs ==> j in s.db.jobs && CellOf(t.db, j) == CellOf(s.db, j))
  {
    hide Inv, DbInv, AttemptsOf, LogOf, RecordOf, Reap, AddJob, RetryJob, CancelJob, UpdateHeartbeat, Grant, Pick;
    hide ListsStale, Effect, CanAct, PruneDelete, Tidy;
    StepDeed(s, st);
    if j in s.db.jobs {
      SettledStep(s, st, j);
    } else if j in Next(s, st).db.jobs {
      NewJobStep(s, st, j);
    }
  }

  /** Over every run a job has a succeeded attempt if and only if it is done, and then only its newest one: no job
      succeeds twice. */
  lemma SuccessIsUnique(s: Sys, j: nat)
    requires Reachable(s) && j in s.db.jobs
    ensures s.db.jobs[j].state.Done? <==> exists k :: 0 <= k < |Rows(s, j)| && Rows(s, j)[k].state.AttSucceeded?
    ensures forall k :: 0 <= k < |Rows(s, j)| && Rows(s, j)[k].state.AttSucceeded? ==> k == |Rows(s, j)| - 1
  {
    ReachableCell(s, j);
    hide Reachable, Ownership, Accounting, Pacing, Provenance, Sourced, AttemptsOf, LogOf;
    assert AllTold(CellOf(s.db, j)) && OneStory(CellOf(s.db, j));
    if s.db.jobs[j].state.Done? {
      assert Rows(s, j)[|Rows(s, j)| - 1].state.AttSucceeded?;
    }
  }

  ghost predicate Undisturbed(steps: seq<Step>, ids: seq<nat>) {
    forall i, k :: 0 <= i < |steps| && 0 <= k < |ids| ==> !Disturbs(steps[i], ids[k])
  }

  /** A job that has settled keeps its row through every run that neither retries nor prunes it. */
  lemma {:induction false} SettledStays(s: Sys, steps: seq<Step>, j: nat)
    requires Reachable(s) && Legal(s, steps) && j in s.db.jobs && Terminal(s.db.jobs[j].state)
    requires forall i :: 0 <= i < |steps| ==> !Disturbs(steps[i], j)
    ensures j in After(s, steps).db.jobs && CellOf(After(s, steps).db, j) == CellOf(s.db, j)
  {
    hide Reachable, Inv, Next, Enabled, AttemptsOf, LogOf, Disturbs;
    if steps != [] {
      var mid := After(s, Front(steps));
      SettledStays(s, Front(steps), j);
      ReachableOn(s, Front(steps));
      ReachableInv(mid);
      SettledStep(mid, Last(steps), j);
    }
  }

  // ----- when a settled job changes -----

  /** A prune that lists the job and finds it in one of its states and finished before its cutoff. */
  predicate Removes(s: Sys, st: Step, j: nat) {
    && st.Prune? && j in st.ids && j in s.db.jobs && s.db.jobs[j].state in st.states
    && s.db.jobs[j].finishedAt.Some? && s.db.jobs[j].finishedAt.value < st.cutoff
  }

  /** The step has the settled job retried, or deletes it: the retry is not refused, the prune finds it matching. */
  predicate Shakes(s: Sys, st: Step, j: nat) {
    || (st.RetryOne? && st.job == j && RetryRefusal(s.db, j, st.force).None?)
    || Removes(s, st, j)
  }

  ghost predicate Unshaken(s: Sys, steps: seq<Step>, j: nat)
    requires Legal(s, steps)
  {
    steps == [] || (Unshaken(s, Front(steps), j) && !Shakes(After(s, Front(steps)), Last(steps), j))
  }

  /** The job is as it was, with its attempts and its trail. */
  ghost predicate AsWas(was: Cell, t: Sys, j: nat) {
    j in t.db.jobs && CellOf(t.db, j) == was
  }

  /** The job is gone for good, or its trail has grown. */
  ghost predicate MovedOn(was: Cell, t: Sys, j: nat) {
    j < t.db.nextJob && (j in t.db.jobs ==> |LogOf(t.db.events, j)| > |was.log|)
  }

  lemma ActLengthens(c: Cell, a: Act)
    ensures |Effect(c, a).log| >= |c.log| && (!a.Beat? ==> |Effect(c, a).log| > |c.log|)
  {
  }

  lemma MovedOnStep(was: Cell, s: Sys, st: Step, j: nat)
    requires Inv(s) && Enabled(s, st) && MovedOn(was, s, j)
    ensures MovedOn(was, Next(s, st), j)
  {
    hide Inv, DbInv, AttemptsOf, LogOf, Effect, CanAct, Tidy, Next, Enabled;
    StepDeed(s, st);
    if j in s.db.jobs {
      JobStep(s, st, j);
      if FateOf(s, st, j).Acts? {
        ActLengthens(CellOf(s.db, j), FateOf(s, st, j).act);
      }
    } else {
      GoneStep(s, st, j);
    }
  }

  lemma ShakenStep(was: Cell, s: Sys, st: Step, j: nat)
    requires Inv(s) && Enabled(s, st) && AsWas(was, s, j) && Terminal(was.job.state) && j < s.db.nextJob
    ensures if Shakes(s, st, j) then MovedOn(was, Next(s, st), j) else AsWas(was, Next(s, st), j)
  {
    hide Inv, DbInv, AttemptsOf, LogOf, RecordOf, Reap, AddJob, RetryJob, CancelJob, UpdateHeartbeat, Grant, Pick;
    hide ListsStale, Effect, CanAct, PruneDelete, Terminal, Tidy;
    StepDeed(s, st);
    JobStep(s, st, j);
    if st.Prune? {
      InvDb(s);
      PruneKeeps(s.db, st.ids, st.states, st.cutoff);
    } else if FateOf(s, st, j).Acts? {
      SettledActs(CellOf(s.db, j), FateOf(s, st, j).act);
      ActLengthens(CellOf(s.db, j), FateOf(s, st, j).act);
    }
  }

  /** From a state in which a settled job is as it was, or has moved on already. */
  lemma {:induction false} ShakenOverRun(was: Cell, s: Sys, steps: seq<Step>, j: nat)
    requires Reachable(s) && Legal(s, steps) && Terminal(was.job.state) && (AsWas(was, s, j) || MovedOn(was, s, j))
    ensures AsWas(was, s, j) && Unshaken(s, steps, j) ==> AsWas(was, After(s, steps), j)
    ensures MovedOn(was, s, j) || !Unshaken(s, steps, j) ==> MovedOn(was, After(s, steps), j)
  {
    hide Reachable, Inv, Next, Enabled, AsWas, MovedOn, Shakes, Terminal;
    if steps != [] {
      var mid := After(s, Front(steps));
      ShakenOverRun(was, s, Front(steps), j);
      ReachableOn(s, Front(steps));
      ReachableInv(mid);
      AsWasNumber(was, mid, j);
      if MovedOn(was, mid, j) {
        MovedOnStep(was, mid, Last(steps), j);
      } else {
        ShakenStep(was, mid, Last(steps), j);
      }
    }
  }

  lemma AsWasNumber(was: Cell, s: Sys, j: nat)
    requires Reachable(s)
    ensures AsWas(was, s, j) ==> j < s.db.nextJob
    ensures !(AsWas(was, s, j) && MovedOn(was, s, j))
  {
    hide Reachable, AttemptsOf, LogOf;
    if j in s.db.jobs {
      JobNumber(s, j);
    }
  }

  /** Exactly when a settled job stays as it is: as long as no retry of it is accepted and no prune removes it. */
  lemma SettledExactly(s: Sys, steps: seq<Step>, j: nat)
    requires Reachable(s) && Legal(s, steps) && j in s.db.jobs && Terminal(s.db.jobs[j].state)
    ensures AsWas(CellOf(s.db, j), After(s, steps), j) <==> Unshaken(s, steps, j)
  {
    hide Reachable, Legal, After, Unshaken, MovedOn, AttemptsOf, LogOf, Terminal;
    ShakenOverRun(CellOf(s.db, j), s, steps, j);
    ReachableOn(s, steps);
    AsWasNumber(CellOf(s.db, j), After(s, steps), j);
  }

  /** The step neither retries the job nor prunes it with a cutoff later than its end. */
  predicate SparesByAge(st: Step, j: nat, finished: Option<Time>) {
    && (st.RetryOne? ==> st.job != j)
    && (st.Prune? && j in st.ids && finished.Some? ==> st.cutoff <= finished.value)
  }

  /** A settled job outlives every prune whose cutoff is not later than its end, with its attempts and its trail. */
  lemma {:induction false} YoungerJobsSurvive(s: Sys, steps: seq<Step>, j: nat)
    requires Reachable(s) && Legal(s, steps) && j in s.db.jobs && Terminal(s.db.jobs[j].state)
    requires forall i :: 0 <= i < |steps| ==> SparesByAge(steps[i], j, s.db.jobs[j].finishedAt)
    ensures AsWas(CellOf(s.db, j), After(s, steps), j)
  {
    hide Reachable, Inv, Next, Enabled, AttemptsOf, LogOf, Terminal;
    if steps != [] {
      var mid := After(s, Front(steps));
      YoungerJobsSurvive(s, Front(steps), j);
      ReachableOn(s, Front(steps));
      ReachableInv(mid);
      JobNumber(mid, j);
      assert SparesByAge(Last(steps), j, s.db.jobs[j].finishedAt);
      ShakenStep(CellOf(s.db, j), mid, Last(steps), j);
    }
  }

  // ----- when a job disappears -----

  ghost predicate RemovedIn(s: Sys, steps: seq<Step>, j: nat)
    requires Legal(s, steps)
  {
    steps != [] && (RemovedIn(s, Front(steps), j) || Removes(After(s, Front(steps)), Last(steps), j))
  }

  lemma StepRemoves(s: Sys, st: Step, j: nat)
    requires Inv(s) && Enabled(s, st) && j in s.db.jobs
    ensures j !in Next(s, st).db.jobs <==> Removes(s, st, j)
  {
    hide Inv, DbInv, AttemptsOf, LogOf, Effect, CanAct, PruneDelete, Tidy;
    if st.Prune? {
      InvDb(s);
      PruneKeeps(s.db, st.ids, st.states, st.cutoff);
    } else {
      hide Next, Enabled;
      JobStep(s, st, j);
    }
  }

  /** A job disappears over a run if and only if some prune of the run removed it. */
  lemma {:induction false} RemovedExactly(s: Sys, steps: seq<Step>, j: nat)
    requires Reachable(s) && Legal(s, steps) && j in s.db.jobs
    ensures j !in After(s, steps).db.jobs <==> RemovedIn(s, steps, j)
    ensures j < After(s, steps).db.nextJob
  {
    hide Reachable, Inv, Next, Enabled, Removes;
    if steps == [] {
      JobNumber(s, j);
    } else {
      var mid := After(s, Front(steps));
      RemovedExactly(s, Front(steps), j);
      ReachableOn(s, Front(steps));
      ReachableInv(mid);
      ReachableOn(s, steps);
      if j in mid.db.jobs {
        StepRemoves(mid, Last(steps), j);
        StepNumber(mid, Last(steps), j);
      } else {
        GoneStep(mid, Last(steps), j);
      }
    }
  }

  lemma StepNumber(s: Sys, st: Step, j: nat)
    requires Inv(s) && Enabled(s, st) && j < s.db.nextJob
    ensures j < Next(s, st).db.nextJob
  {
    hide Inv, DbInv, Next, Enabled, Tidy, CanAct, Effect, AttemptsOf, LogOf;
    StepDeed(s, st);
  }

  // ----- wait -----

  /** What each successive SELECT of a waiting process sees: the databases of one run, `gaps[k]` happening between
      read k and read k + 1. */
  ghost predicate Watches(world: seq<Sys>, gaps: seq<seq<Step>>, views: seq<Db>) {
    && |world| == |views| && |gaps| + 1 == |views|
    && (forall k :: 0 <= k < |views| ==> Reachable(world[k]) && views[k] == world[k].db)
    && (forall k :: 0 <= k < |gaps| ==> Legal(world[k], gaps[k]) && After(world[k], gaps[k]) == world[k + 1])
  }

  /** Nobody retries or prunes an awaited job during the wait. */
  ghost predicate Calm(gaps: seq<seq<Step>>, ids: seq<nat>) {
    forall k :: 0 <= k < |gaps| ==> Undisturbed(gaps[k], ids)
  }

  /** Between reads `a` and `b` no retry of the job was accepted and no prune removed it. */
  ghost predicate LeftAlone(world: seq<Sys>, gaps: seq<seq<Step>>, views: seq<Db>, a: nat, b: nat, j: nat)
    requires Watches(world, gaps, views) && a <= b < |views|
  {
    forall k :: a <= k < b ==> Unshaken(world[k], gaps[k], j)
  }

  /** Between any two reads a settled job is as it was if and only if it was left alone. */
  lemma {:induction false} KeptBetween(world: seq<Sys>, gaps: seq<seq<Step>>, views: seq<Db>, a: nat, b: nat, j: nat)
    requires Watches(world, gaps, views) && a <= b < |views| && j in views[a].jobs && Terminal(views[a].jobs[j].state)
    ensures var was := CellOf(views[a], j);
      if LeftAlone(world, gaps, views, a, b, j) then AsWas(was, world[b], j) else MovedOn(was, world[b], j)
    decreases b - a
  {
    hide Reachable, Legal, After, Unshaken, AttemptsOf, LogOf, AsWas, MovedOn, Terminal;
    var was := CellOf(views[a], j);
    if a == b {
      assert AsWas(was, world[a], j) by { AsIs(world[a], j); }
    } else {
      KeptBetween(world, gaps, views, a, b - 1, j);
      assert Reachable(world[b - 1]) && Legal(world[b - 1], gaps[b - 1])
        && After(world[b - 1], gaps[b - 1]) == world[b - 1 + 1];
      ShakenOverRun(was, world[b - 1], gaps[b - 1], j);
      if LeftAlone(world, gaps, views, a, b - 1, j) && Unshaken(world[b - 1], gaps[b - 1], j) {
        assert LeftAlone(world, gaps, views, a, b, j);
      }
    }
  }

  /** Between reads `a` and `b` some prune removed the job. */
  ghost predicate PrunedBetween(world: seq<Sys>, gaps: seq<seq<Step>>, views: seq<Db>, a: nat, b: nat, j: nat)
    requires Watches(world, gaps, views) && a <= b < |views|
  {
    exists k :: a <= k < b && RemovedIn(world[k], gaps[k], j)
  }

  /** A job seen at one read is missing at a later one if and only if a prune removed it in between. */
  lemma {:induction false} MissingExactly(world: seq<Sys>, gaps: seq<seq<Step>>, views: seq<Db>, a: nat, b: nat, j: nat)
    requires Watches(world, gaps, views) && a <= b < |views| && j in views[a].jobs
    ensures j !in views[b].jobs <==> PrunedBetween(world, gaps, views, a, b, j)
    ensures j < views[b].nextJob
    decreases b - a
  {
    hide Reachable, Legal, After, RemovedIn;
    if a == b {
      JobNumber(world[a], j);
    } else {
      var k := b - 1;
      MissingExactly(world, gaps, views, a, k, j);
      assert Reachable(world[k]) && Legal(world[k], gaps[k]) && After(world[k], gaps[k]) == world[k + 1];
      assert views[b] == world[b].db && views[k] == world[k].db;
      if j in views[k].jobs {
        RemovedExactly(world[k], gaps[k], j);
      } else {
        GoneForGood(world[k], gaps[k], j);
      }
      if PrunedBetween(world, gaps, views, a, b, j) && !PrunedBetween(world, gaps, views, a, k, j) {
        assert RemovedIn(world[k], gaps[k], j);
      }
    }
  }

  lemma AsIs(s: Sys, j: nat)
    requires j in s.db.jobs
    ensures AsWas(CellOf(s.db, j), s, j)
  {
  }

  lemma {:induction false} UndisturbedIsUnshaken(s: Sys, steps: seq<Step>, j: nat)
    requires Legal(s, steps) && forall i :: 0 <= i < |steps| ==> !Disturbs(steps[i], j)
    ensures Unshaken(s, steps, j)
  {
    hide Next, Enabled;
    if steps != [] {
      UndisturbedIsUnshaken(s, Front(steps), j);
    }
  }

  lemma PresentStep(s: Sys, st: Step, j: nat)
    requires Inv(s) && Enabled(s, st) && j in s.db.jobs && !Disturbs(st, j)
    ensures j in Next(s, st).db.jobs
  {
    hide Inv, DbInv, AttemptsOf, LogOf, RecordOf, Reap, AddJob, RetryJob, CancelJob, UpdateHeartbeat, Grant, Pick;
    hide ListsStale, Effect, CanAct, PruneDelete;
    JobStep(s, st, j);
    if FateOf(s, st, j).Leaves? {
      InvDb(s);
      PruneKeeps(s.db, st.ids, st.states, st.cutoff);
    }
  }

  lemma {:induction false} PresentStays(s: Sys, steps: seq<Step>, j: nat)
    requires Reachable(s) && Legal(s, steps) && j in s.db.jobs
    requires forall i :: 0 <= i < |steps| ==> !Disturbs(steps[i], j)
    ensures j in After(s, steps).db.jobs
  {
    hide Reachable, Inv, Next, Enabled, Disturbs;
    if steps != [] {
      PresentStays(s, Front(steps), j);
      ReachableOn(s, Front(steps));
      ReachableInv(After(s, Front(steps)));
      PresentStep(After(s, Front(steps)), Last(steps), j);
    }
  }

  lemma {:induction false} PresentBetween(world: seq<Sys>, gaps: seq<seq<Step>>, views: seq<Db>, ids: seq<nat>,
                                          i: nat, a: nat, b: nat)
    requires Watches(world, gaps, views) && Calm(gaps, ids) && i < |ids| && a <= b < |views| && ids[i] in views[a].jobs
    ensures ids[i] in views[b].jobs
    decreases b - a
  {
    hide Reachable, Legal, After, Disturbs;
    if a < b {
      PresentBetween(world, gaps, views, ids, i, a, b - 1);
      assert Reachable(world[b - 1]) && Undisturbed(gaps[b - 1], ids);
      PresentStays(world[b - 1], gaps[b - 1], ids[i]);
      assert views[b] == world[b].db && views[b - 1] == world[b - 1].db;
    }
  }

  /** The last place of an id in the list: reading into a dictionary, the last read of an id counts. */
  function LastIndex(ids: seq<nat>, id: nat): (k: nat)
    requires id in ids
    ensures k < |ids| && ids[k] == id && forall m :: k < m < |ids| ==> ids[m] != id
  {
    if Last(ids) == id then |ids| - 1 else LastIndex(Front(ids), id)
  }

  function SeenIn(db: Db, j: nat): Option<Job> {
    if j in db.jobs then Some(db.jobs[j]) else None
  }

  predicate SettledRow(r: Option<Job>) {
    r.Some? && Terminal(r.value.state)
  }

  /** The result of looking through the rows in order: a missing row breaks the wait, unless an unsettled one comes
      first. */
  datatype Look = AllSettled | NotYet | Breaks

  datatype WaitResult =
    | Missing(ids: set<nat>)
    | Settled(rows: map<nat, Job>, allSucceeded: bool)
    | WaitTimeout
    | WaitBroken

  /** The first look: one SELECT per id. */
  method FindMissing(ids: seq<nat>, views: seq<Db>) returns (missing: set<nat>)
    requires |ids| <= |views|
    ensures missing == set k | 0 <= k < |ids| && ids[k] !in views[k].jobs :: ids[k]
    ensures missing == {} ==> forall k :: 0 <= k < |ids| ==> ids[k] in views[k].jobs
  {
    missing := {};
    for k := 0 to |ids|
      invariant missing == set m | 0 <= m < k && ids[m] !in views[m].jobs :: ids[m]
    {
      if ids[k] !in views[k].jobs {
        missing := missing + {ids[k]};
      }
    }
    assert forall k :: 0 <= k < |ids| && ids[k] !in views[k].jobs ==> ids[k] in missing;
  }

  /** The rows of one poll: each id has the row of its last SELECT, in the view that SELECT saw. */
  ghost predicate Polled(ids: seq<nat>, views: seq<Db>, at: nat, jobs: map<nat, Option<Job>>) {
    && at + |ids| <= |views|
    && (forall id :: id in jobs <==> id in ids)
    && (forall id <- ids :: id in jobs && jobs[id] == SeenIn(views[at + LastIndex(ids, id)], id))
  }

  /** One poll: one SELECT per id, from view `at` on. */
  method PollOnce(ids: seq<nat>, views: seq<Db>, at: nat) returns (jobs: map<nat, Option<Job>>)
    requires at + |ids| <= |views|
    ensures Polled(ids, views, at, jobs)
  {
    hide SeenIn;
    jobs := map[];
    for k := 0 to |ids|
      invariant Polled(ids[..k], views, at, jobs)
    {
      PolledOneMore(ids, views, at, jobs, k);
      jobs := jobs[ids[k] := SeenIn(views[at + k], ids[k])];
    }
    assert ids[..|ids|] == ids;
  }

  lemma PolledOneMore(ids: seq<nat>, views: seq<Db>, at: nat, jobs: map<nat, Option<Job>>, k: nat)
    requires k < |ids| && at + |ids| <= |views| && Polled(ids[..k], views, at, jobs)
    ensures Polled(ids[..k + 1], views, at, jobs[ids[k] := SeenIn(views[at + k], ids[k])])
  {
    hide SeenIn, LastIndex;
    LastIndexOneMore(ids, k);
  }

  lemma LastIndexOneMore(ids: seq<nat>, k: nat)
    requires k < |ids|
    ensures forall id :: id in ids[..k + 1] <==> id in ids[..k] || id == ids[k]
    ensures forall id <- ids[..k + 1] ::
      LastIndex(ids[..k + 1], id) == if id == ids[k] then k else LastIndex(ids[..k], id)
  {
    var was, now := ids[..k], ids[..k + 1];
    assert Front(now) == was && Last(now) == ids[k] && now == was + [ids[k]];
    forall id <- now
      ensures LastIndex(now, id) == if id == ids[k] then k else LastIndex(was, id)
    {
      LastIndexOf(now, id);
    }
  }

  lemma LastIndexOf(ids: seq<nat>, id: nat)
    requires id in ids
    ensures Last(ids) != id ==> id in Front(ids) && LastIndex(ids, id) == LastIndex(Front(ids), id)
    ensures Last(ids) == id ==> LastIndex(ids, id) == |ids| - 1
  {
  }

  /** Looks through the rows of a poll in order. */
  method LookThrough(ids: seq<nat>, jobs: map<nat, Option<Job>>) returns (look: Look)
    requires forall id <- ids :: id in jobs
    ensures look.AllSettled? <==> forall k :: 0 <= k < |ids| ==> SettledRow(jobs[ids[k]])
    ensures look.Breaks? <==>
      exists k :: 0 <= k < |ids| && jobs[ids[k]].None? && forall m :: 0 <= m < k ==> SettledRow(jobs[ids[m]])
    ensures look.NotYet? ==>
      exists k :: 0 <= k < |ids| && jobs[ids[k]].Some? && !SettledRow(jobs[ids[k]])
               && forall m :: 0 <= m < k ==> SettledRow(jobs[ids[m]])
  {
    for k := 0 to |ids|
      invariant forall m :: 0 <= m < k ==> SettledRow(jobs[ids[m]])
    {
      if jobs[ids[k]].None? {
        return Breaks;
      }
      if !Terminal(jobs[ids[k]].value.state) {
        return NotYet;
      }
    }
    return AllSettled;
  }

  /** The view in which the poll that ended before read `used` saw the row of `id`. */
  function ReadAt(ids: seq<nat>, used: nat, id: nat): nat
    requires id in ids && |ids| <= used
  {
    used - |ids| + LastIndex(ids, id)
  }

  /** The row of `id` as the poll saw it that ended before read `used`. */
  function SeenAt(ids: seq<nat>, views: seq<Db>, used: nat, id: nat): Option<Job>
    requires id in ids && |ids| <= used <= |views|
  {
    SeenIn(views[ReadAt(ids, used, id)], id)
  }

  /** That poll found the rows before place `k` settled. */
  ghost predicate SettledUpTo(ids: seq<nat>, views: seq<Db>, used: nat, k: nat)
    requires |ids| <= used <= |views| && k <= |ids|
  {
    forall m :: 0 <= m < k ==> SettledRow(SeenAt(ids, views, used, ids[m]))
  }

  /** The first row that it did not find settled was there. */
  ghost predicate SawUnsettled(ids: seq<nat>, views: seq<Db>, used: nat) {
    && |ids| <= used <= |views|
    && exists k :: 0 <= k < |ids| && SettledUpTo(ids, views, used, k)
                && SeenAt(ids, views, used, ids[k]).Some? && !SettledRow(SeenAt(ids, views, used, ids[k]))
  }

  /** The first row that it did not find settled was missing. */
  ghost predicate SawNone(ids: seq<nat>, views: seq<Db>, used: nat) {
    && |ids| <= used <= |views|
    && exists k :: 0 <= k < |ids| && SettledUpTo(ids, views, used, k) && SeenAt(ids, views, used, ids[k]).None?
  }

  /** The rows are those that the poll ending before read `used` saw, each settled. */
  ghost predicate SawSettled(ids: seq<nat>, views: seq<Db>, used: nat, rows: map<nat, Job>) {
    && |ids| <= used <= |views|
    && (forall id :: id in rows <==> id in ids)
    && (forall id <- ids ::
          && id in rows && id in views[ReadAt(ids, used, id)].jobs
          && rows[id] == views[ReadAt(ids, used, id)].jobs[id] && Terminal(rows[id].state))
  }

  /** The number of reads after the first look and `n` polls. */
  function ReadsAfter(ids: seq<nat>, n: nat): nat {
    (n + 1) * |ids|
  }

  lemma OnePollMore(ids: seq<nat>, n: nat)
    ensures ReadsAfter(ids, n + 1) == ReadsAfter(ids, n) + |ids| && ReadsAfter(ids, 0) == |ids| <= ReadsAfter(ids, n)
  {
  }

  /** Each of the first `n` polls saw an unsettled row. */
  ghost predicate Waited(ids: seq<nat>, views: seq<Db>, n: nat) {
    forall i :: 0 < i <= n ==> SawUnsettled(ids, views, ReadsAfter(ids, i))
  }

  /** The waiting operation. Every read is its own SELECT and sees the next view; the time limit is reached when the
      views run out. It ends at the first poll that sees no unsettled row; a row that is missing there breaks it. */
  method WaitOperation(ids: seq<nat>, views: seq<Db>) returns (r: WaitResult, used: nat, polls: nat)
    requires 0 < |ids| <= |views|
    ensures used == ReadsAfter(ids, polls) <= |views|
    ensures r.Missing? <==> exists k :: 0 <= k < |ids| && ids[k] !in views[k].jobs
    ensures r.Missing? ==> polls == 0 && r.ids == set k | 0 <= k < |ids| && ids[k] !in views[k].jobs :: ids[k]
    ensures r.Settled? ==>
      && polls > 0 && Waited(ids, views, polls - 1) && SawSettled(ids, views, used, r.rows)
      && (r.allSucceeded <==> forall id <- r.rows :: r.rows[id].state.Done?)
    ensures r.WaitBroken? ==> polls > 0 && Waited(ids, views, polls - 1) && SawNone(ids, views, used)
    ensures r.WaitTimeout? ==> |views| - used < |ids| && Waited(ids, views, polls)
  {
    hide Terminal, SawSettled, SawNone, SawUnsettled, Polled, SettledRow, FoundRows, ReadsAfter;
    OnePollMore(ids, 0);
    used, polls := |ids|, 0;
    var missing := FindMissing(ids, views);
    if missing != {} {
      return Missing(missing), used, polls;
    }
    while |views| - used >= |ids|
      invariant |ids| <= used == ReadsAfter(ids, polls) <= |views|
      invariant Waited(ids, views, polls)
    {
      var jobs := PollOnce(ids, views, used);
      PolledHasAll(ids, views, used, jobs);
      var look := LookThrough(ids, jobs);
      OnePollMore(ids, polls);
      used, polls := used + |ids|, polls + 1;
      match look {
        case Breaks =>
          PollBreaks(ids, views, used, jobs);
          return WaitBroken, used, polls;
        case AllSettled =>
          PollSettles(ids, views, used, jobs);
          var rows := FoundRows(jobs);
          return Settled(rows, forall id <- rows :: rows[id].state.Done?), used, polls;
        case NotYet =>
          PollGoesOn(ids, views, used, jobs);
      }
    }
    return WaitTimeout, used, polls;
  }

  function FoundRows(jobs: map<nat, Option<Job>>): map<nat, Job> {
    map id | id in jobs && jobs[id].Some? :: jobs[id].value
  }

  lemma PolledHasAll(ids: seq<nat>, views: seq<Db>, at: nat, jobs: map<nat, Option<Job>>)
    requires Polled(ids, views, at, jobs)
    ensures forall id <- ids :: id in jobs
  {
    hide LastIndex, SeenIn;
  }

  /** What stands in the rows of a poll is what the poll saw. */
  lemma PollSaw(ids: seq<nat>, views: seq<Db>, used: nat, jobs: map<nat, Option<Job>>, id: nat)
    requires |ids| <= used && Polled(ids, views, used - |ids|, jobs) && id in ids
    ensures id in jobs && used <= |views| && jobs[id] == SeenAt(ids, views, used, id)
  {
    hide LastIndex, SeenIn;
  }

  lemma PollUpTo(ids: seq<nat>, views: seq<Db>, used: nat, jobs: map<nat, Option<Job>>, k: nat)
    requires |ids| <= used && Polled(ids, views, used - |ids|, jobs) && k < |ids|
    requires forall m :: 0 <= m < k ==> ids[m] in jobs && SettledRow(jobs[ids[m]])
    ensures used <= |views| && SettledUpTo(ids, views, used, k)
    ensures ids[k] in jobs && jobs[ids[k]] == SeenAt(ids, views, used, ids[k])
  {
    hide Polled, SettledRow, SeenAt;
    PollSaw(ids, views, used, jobs, ids[k]);
    forall m | 0 <= m < k
      ensures SettledRow(SeenAt(ids, views, used, ids[m]))
    {
      PollSaw(ids, views, used, jobs, ids[m]);
    }
  }

  lemma PollBreaks(ids: seq<nat>, views: seq<Db>, used: nat, jobs: map<nat, Option<Job>>)
    requires |ids| <= used && Polled(ids, views, used - |ids|, jobs)
    requires exists k :: 0 <= k < |ids| && ids[k] in jobs && jobs[ids[k]].None?
                      && forall m :: 0 <= m < k ==> ids[m] in jobs && SettledRow(jobs[ids[m]])
    ensures SawNone(ids, views, used)
  {
    hide Polled, SettledRow, SeenAt, SettledUpTo;
    var k :| 0 <= k < |ids| && ids[k] in jobs && jobs[ids[k]].None?
             && forall m :: 0 <= m < k ==> ids[m] in jobs && SettledRow(jobs[ids[m]]);
    PollUpTo(ids, views, used, jobs, k);
  }

  lemma PollGoesOn(ids: seq<nat>, views: seq<Db>, used: nat, jobs: map<nat, Option<Job>>)
    requires |ids| <= used && Polled(ids, views, used - |ids|, jobs)
    requires exists k :: 0 <= k < |ids| && ids[k] in jobs && jobs[ids[k]].Some? && !SettledRow(jobs[ids[k]])
                      && forall m :: 0 <= m < k ==> ids[m] in jobs && SettledRow(jobs[ids[m]])
    ensures SawUnsettled(ids, views, used)
  {
    hide Polled, SettledRow, SeenAt, SettledUpTo;
    var k :| 0 <= k < |ids| && ids[k] in jobs && jobs[ids[k]].Some? && !SettledRow(jobs[ids[k]])
             && forall m :: 0 <= m < k ==> ids[m] in jobs && SettledRow(jobs[ids[m]]);
    PollUpTo(ids, views, used, jobs, k);
  }

  lemma PollSettles(ids: seq<nat>, views: seq<Db>, used: nat, jobs: map<nat, Option<Job>>)
    requires |ids| <= used && Polled(ids, views, used - |ids|, jobs)
    requires forall k :: 0 <= k < |ids| ==> ids[k] in jobs && SettledRow(jobs[ids[k]])
    ensures SawSettled(ids, views, used, FoundRows(jobs))
  {
    hide LastIndex, Terminal;
    var rows := FoundRows(jobs);
    forall id <- ids
      ensures id in rows && id in views[ReadAt(ids, used, id)].jobs
      ensures rows[id] == views[ReadAt(ids, used, id)].jobs[id] && Terminal(rows[id].state)
    {
      var k :| 0 <= k < |ids| && ids[k] == id;
      assert SettledRow(jobs[ids[k]]);
      assert jobs[id] == SeenIn(views[ReadAt(ids, used, id)], id);
    }
    assert forall id :: id in rows <==> id in jobs && jobs[id].Some?;
  }

  /** Exactly when a wait is broken. Once all jobs were found by the first look, a poll comes upon a missing row if
      and only if a prune removed an awaited job between its first look and its read, and the poll found the rows
      before it settled. */
  lemma WaitBreaksExactly(world: seq<Sys>, gaps: seq<seq<Step>>, views: seq<Db>, ids: seq<nat>, used: nat)
    requires Watches(world, gaps, views) && 0 < |ids| && 2 * |ids| <= used <= |views|
    requires forall k :: 0 <= k < |ids| ==> ids[k] in views[k].jobs
    ensures SawNone(ids, views, used) <==>
      exists k :: 0 <= k < |ids| && SettledUpTo(ids, views, used, k)
               && PrunedBetween(world, gaps, views, k, ReadAt(ids, used, ids[k]), ids[k])
  {
    hide Watches, SettledUpTo, PrunedBetween, LastIndex;
    forall k | 0 <= k < |ids|
      ensures SeenAt(ids, views, used, ids[k]).None? <==>
              PrunedBetween(world, gaps, views, k, ReadAt(ids, used, ids[k]), ids[k])
    {
      MissingExactly(world, gaps, views, k, ReadAt(ids, used, ids[k]), ids[k]);
    }
  }

  /** What a settled answer is worth. The rows were read one by one, in different states. After any continuation
      `later` of the wait, a job is still as it was read, with its attempts and its trail, if and only if between its
      read and the last one, and in the continuation, no retry of it was accepted and no prune removed it. */
  lemma VerdictHoldsExactly(world: seq<Sys>, gaps: seq<seq<Step>>, views: seq<Db>, ids: seq<nat>, used: nat,
                            rows: map<nat, Job>, later: seq<Step>, id: nat)
    requires Watches(world, gaps, views) && SawSettled(ids, views, used, rows) && id in ids
    requires Legal(world[used - 1], later)
    ensures AsWas(CellOf(views[ReadAt(ids, used, id)], id), After(world[used - 1], later), id) <==>
      LeftAlone(world, gaps, views, ReadAt(ids, used, id), used - 1, id) && Unshaken(world[used - 1], later, id)
  {
    hide Reachable, Legal, After, Unshaken, AttemptsOf, LogOf, AsWas, MovedOn, LeftAlone, Terminal;
    var a := ReadAt(ids, used, id);
    var was := CellOf(views[a], id);
    KeptBetween(world, gaps, views, a, used - 1, id);
    assert Reachable(world[used - 1]);
    ShakenOverRun(was, world[used - 1], later, id);
    ReachableOn(world[used - 1], later);
    AsWasNumber(was, world[used - 1], id);
    AsWasNumber(was, After(world[used - 1], later), id);
  }

  /** So without a retry or a prune of the awaited jobs, a wait is never broken once all were found, and its verdict
      holds for all of them together at return, and ever after in every such run. */
  lemma WaitIsStable(world: seq<Sys>, gaps: seq<seq<Step>>, views: seq<Db>, ids: seq<nat>, used: nat)
    requires Watches(world, gaps, views) && Calm(gaps, ids) && 0 < |ids| <= used <= |views|
    requires forall k :: 0 <= k < |ids| ==> ids[k] in views[k].jobs
    ensures !SawNone(ids, views, used)
    ensures forall rows, later ::
      SawSettled(ids, views, used, rows) && Legal(world[used - 1], later) && Undisturbed(later, ids) ==>
      forall id <- ids ::
        id in After(world[used - 1], later).db.jobs && After(world[used - 1], later).db.jobs[id] == rows[id]
  {
    hide Reachable, Legal, After, Terminal, Undisturbed, AttemptsOf, LogOf;
    forall id <- ids
      ensures id in views[ReadAt(ids, used, id)].jobs
    {
      var k := LastIndex(ids, id);
      PresentBetween(world, gaps, views, ids, k, k, ReadAt(ids, used, id));
    }
    forall rows, later, id | SawSettled(ids, views, used, rows) && Legal(world[used - 1], later)
      && Undisturbed(later, ids) && id in ids
      ensures id in After(world[used - 1], later).db.jobs && After(world[used - 1], later).db.jobs[id] == rows[id]
    {
      StableRow(world, gaps, views, ids, used, rows, later, id);
    }
  }

  lemma StableRow(world: seq<Sys>, gaps: seq<seq<Step>>, views: seq<Db>, ids: seq<nat>, used: nat, rows: map<nat, Job>,
                  later: seq<Step>, id: nat)
    requires Watches(world, gaps, views) && Calm(gaps, ids) && SawSettled(ids, views, used, rows) && id in ids
    requires Legal(world[used - 1], later) && Undisturbed(later, ids)
    ensures id in After(world[used - 1], later).db.jobs && After(world[used - 1], later).db.jobs[id] == rows[id]
  {
    hide Reachable, Legal, After, Terminal, Unshaken, AttemptsOf, LogOf, MovedOn, Disturbs;
    var a := ReadAt(ids, used, id);
    var i := LastIndex(ids, id);
    forall k | a <= k < used - 1
      ensures Unshaken(world[k], gaps[k], id)
    {
      assert Undisturbed(gaps[k], ids) && ids[i] == id;
      UndisturbedIsUnshaken(world[k], gaps[k], id);
    }
    KeptBetween(world, gaps, views, a, used - 1, id);
    assert Reachable(world[used - 1]);
    SettledStays(world[used - 1], later, id);
  }

  // ----- waits that go wrong -----

  /** A canceled job is found by the first look, pruned, and then polled: the wait is broken. */
  lemma PruneBreaksWait(sub: Submission)
    ensures exists world: seq<Sys>, gaps: seq<seq<Step>>, views: seq<Db> ::
      (Watches(world, gaps, views) && |views| == 2 && SteadilyReachable(world[0]) && SteadyRun(world[0], gaps[0])
       && 1 in views[0].jobs && SawNone([1], views, 2))
  {
    hide Legal, After, SteadyRun, Reachable, SteadilyReachable, PruneDelete, AttemptsOf;
    var steps := TwoCanceled(sub);
    var s := After(Init("out", 0), steps);
    var prune := Prune([1], {Canceled}, 1);
    EmptyRun(s);
    ExtendRun(s, [], prune);
    PruneTakesOne(s.db);
    var t := After(s, [] + [prune]);
    ReachableOn(s, [] + [prune]);
    var world, gaps, views := [s, t], [[] + [prune]], [s.db, t.db];
    assert Watches(world, gaps, views);
    MissesOne(views);
  }

  lemma MissesOne(views: seq<Db>)
    requires |views| == 2 && 1 !in views[1].jobs
    ensures SawNone([1], views, 2)
  {
    assert LastIndex([1], [1][0]) == 0;
    assert SettledUpTo([1], views, 2, 0) && SeenAt([1], views, 2, [1][0]).None?;
  }

  lemma PruneTakesOne(db: Db)
    requires Prunable(db, 1, {Canceled}, 1)
    ensures 1 !in PruneDelete(db, [1], {Canceled}, 1).jobs
  {
    hide AttemptsWithout, EventsWithout;
    assert Front([1]) == [] && Last([1]) == 1;
    assert PruneDelete(db, [], {Canceled}, 1) == db;
  }

  /** Two settled jobs are polled; the first is retried after its row was read and before the second is read. The
      wait reports both settled, and at its return the first one is queued. */
  lemma RetryFoolsWait(sub: Submission)
    ensures exists world: seq<Sys>, gaps: seq<seq<Step>>, views: seq<Db>, rows: map<nat, Job> ::
      Fooled(world, gaps, views, rows)
  {
    hide Legal, After, SteadyRun, Reachable, SteadilyReachable, AttemptsOf;
    var steps := TwoCanceled(sub);
    var s := After(Init("out", 0), steps);
    var retry := RetryOne(1, false, 0);
    EmptyRun(s);
    ExtendRun(s, [], retry);
    RetryLeavesOther(s.db);
    FoolsWait(s, [] + [retry]);
  }

  /** Two polled rows are reported as settled, although the first job is queued when the second is read. */
  ghost predicate Fooled(world: seq<Sys>, gaps: seq<seq<Step>>, views: seq<Db>, rows: map<nat, Job>) {
    && Watches(world, gaps, views) && |views| == 4 && SteadilyReachable(world[2]) && SteadyRun(world[2], gaps[2])
    && SawSettled([1, 2], views, 4, rows) && 1 in views[3].jobs && views[3].jobs[1].state.Queued?
  }

  lemma RetryLeavesOther(db: Db)
    requires db.jobs.Keys == {1, 2} && db.jobs[1].state.Canceled?
    ensures var next := RetryJob(db, 1, false, 0).0;
      next.jobs.Keys == {1, 2} && next.jobs[1].state.Queued? && next.jobs[2] == db.jobs[2]
  {
    hide AddEvent;
    var next := RetryJob(db, 1, false, 0).0;
    RetriedJobs(db);
  }

  lemma RetriedJobs(db: Db)
    requires 1 in db.jobs && db.jobs[1].state.Canceled?
    ensures RetryJob(db, 1, false, 0).0.jobs == db.jobs[1 := RetriedRow(db.jobs[1], 0)]
  {
  }

  lemma FoolsWait(s: Sys, steps: seq<Step>)
    requires SteadilyReachable(s) && Reachable(s) && Legal(s, steps) && SteadyRun(s, steps)
    requires s.db.jobs.Keys == {1, 2} && s.db.jobs[1].state.Canceled? && s.db.jobs[2].state.Canceled?
    requires 1 in After(s, steps).db.jobs && After(s, steps).db.jobs[1].state.Queued?
    requires 2 in After(s, steps).db.jobs && After(s, steps).db.jobs[2] == s.db.jobs[2]
    ensures exists world: seq<Sys>, gaps: seq<seq<Step>>, views: seq<Db>, rows: map<nat, Job> ::
      Fooled(world, gaps, views, rows)
  {
    hide Legal, After, SteadyRun, Reachable, SteadilyReachable, SawSettled, Watches;
    var t := After(s, steps);
    ReachableOn(s, steps);
    EmptyRun(s);
    var world, gaps, views := [s, s, s, t], [[], [], steps], [s.db, s.db, s.db, t.db];
    FourReads(s, steps);
    SeesBoth(views, s.db.jobs);
    assert Fooled(world, gaps, views, s.db.jobs);
  }

  lemma FourReads(s: Sys, steps: seq<Step>)
    requires Reachable(s) && Legal(s, steps)
    ensures var t := After(s, steps); Watches([s, s, s, t], [[], [], steps], [s.db, s.db, s.db, t.db])
  {
    hide Legal, After, Reachable;
    ReachableOn(s, steps);
    EmptyRun(s);
  }

  lemma SeesBoth(views: seq<Db>, rows: map<nat, Job>)
    requires |views| == 4 && rows.Keys == {1, 2} && Terminal(rows[1].state) && Terminal(rows[2].state)
    requires views[2].jobs == rows && 2 in views[3].jobs && views[3].jobs[2] == rows[2]
    ensures SawSettled([1, 2], views, 4, rows)
  {
    var ids := [1, 2];
    assert Front(ids) == [1] && Last(ids) == 2 && LastIndex(ids, 2) == 1;
    assert LastIndex([1], 1) == 0 && LastIndex(ids, 1) == 0;
    assert forall id :: id in rows <==> id in rows.Keys;
  }
}
