/** Lanes over every run: what a claim picks, the slot ceiling, and what a settled drain promises. */
module Lanes {
  import opened Models
  import opened Tables
  import opened Transactions
  import opened Ledger
  import opened JobCell
  import opened StoreSteps
  import opened Fleet
  import opened FleetInv
  import opened FleetDeeds
  import opened FleetKeeps
  import opened FleetRuns
  import opened Clocks
  import opened Scenarios

  // ----- claims -----

  /** `Before` is a strict total order on the rows, so the first due row is unique. */
  lemma ClaimOrderIsTotal(db: Db, a: nat, b: nat, c: nat)
    requires a in db.jobs && b in db.jobs && c in db.jobs
    ensures !Before(db, a, a)
    ensures a != b ==> (Before(db, a, b) <==> !Before(db, b, a))
    ensures Before(db, a, b) && Before(db, b, c) ==> Before(db, a, c)
  {
  }

  /** Row `a` goes first: higher priority, then earlier time, then lower number. */
  predicate GoesFirst(db: Db, a: nat, b: nat)
    requires a in db.jobs && b in db.jobs
  {
    var x, y := db.jobs[a], db.jobs[b];
    && x.spec.priority >= y.spec.priority
    && (x.spec.priority == y.spec.priority ==> x.nextRunAt <= y.nextRunAt)
    && (x.spec.priority == y.spec.priority && x.nextRunAt == y.nextRunAt ==> a <= b)
  }

  /** The jobs of the lane that are running. */
  function RunningJobs(db: Db, lane: string): set<nat> {
    set j | j in db.jobs && db.jobs[j].state == Running && db.jobs[j].spec.queue == lane
  }

  /** Waiting in the lane for a time that has come. */
  predicate Ripe(job: Job, lane: string, now: Time) {
    job.state == Queued && job.nextRunAt <= now && job.spec.queue == lane
  }

  /** In every reachable state a scanning claim takes the ripe row of the lane that goes before all others. It takes
      nothing exactly when as many jobs of the lane run as there are slots, or no row of the lane is ripe. */
  lemma ClaimTakesTheFirst(s: Sys, wid: string, pid: Pid, now: Time, lane: string, slots: Option<int>)
    requires Reachable(s)
    ensures var r := ClaimNext(s.db, wid, pid, now, s.root, lane, slots).1;
      && (r.None? <==>
            || (slots.Some? && |RunningJobs(s.db, lane)| >= slots.value)
            || forall j <- s.db.jobs :: !Ripe(s.db.jobs[j], lane, now))
      && (r.Some? ==>
            && r.value in s.db.jobs && Ripe(s.db.jobs[r.value], lane, now)
            && forall j <- s.db.jobs :: Ripe(s.db.jobs[j], lane, now) ==> GoesFirst(s.db, r.value, j))
  {
    hide Reachable, Inv, Grant, CellInv, TidyAttempts, TidyEvents;
    ReachableInv(s);
    InvDb(s);
    assert Tidy(s.db);
    assert RunningIn(s.db, lane) == RunningJobs(s.db, lane);
    assert forall j <- s.db.jobs :: Ripe(s.db.jobs[j], lane, now) <==> Due(s.db, j, lane, now);
  }

  /** So a lane with a free slot and a ripe row does not stand still: a claim makes one more of its jobs run. */
  lemma FreeSlotIsUsed(s: Sys, wid: string, pid: Pid, now: Time, lane: string, slots: Option<int>)
    requires Reachable(s) && (slots.Some? ==> |RunningJobs(s.db, lane)| < slots.value)
    requires exists j <- s.db.jobs :: Ripe(s.db.jobs[j], lane, now)
    ensures var next := ClaimNext(s.db, wid, pid, now, s.root, lane, slots).0;
      |RunningJobs(next, lane)| == |RunningJobs(s.db, lane)| + 1 && RunningJobs(s.db, lane) < RunningJobs(next, lane)
  {
    hide Reachable, AttemptsOf, MaxAttemptNo, LaneFull, Pick;
    ClaimTakesTheFirst(s, wid, pid, now, lane, slots);
    var r := ClaimNext(s.db, wid, pid, now, s.root, lane, slots);
    assert r.0.jobs == s.db.jobs[r.1.value := ClaimedRow(s.db.jobs[r.1.value], wid, pid, now)];
    assert RunningJobs(r.0, lane) == RunningJobs(s.db, lane) + {r.1.value};
  }

  /** Every claim the run makes on the lane passes a slot count of at most `most`. */
  predicate Capped(steps: seq<Step>, lane: string, most: nat) {
    forall i :: 0 <= i < |steps| && steps[i].ClaimJob? && steps[i].lane == lane ==>
      steps[i].slots.Some? && steps[i].slots.value <= most
  }

  lemma ActKeepsSpec(c: Cell, a: Act)
    ensures Effect(c, a).job.spec == c.job.spec
    ensures Effect(c, a).job.state.Running? && CanAct(c, a) && !c.job.state.Running? ==> a.Claim?
  {
  }

  /** A job runs in the lane after a step only if it did before or was claimed by that step. */
  lemma RunningStep(s: Sys, st: Step, lane: string, j: nat)
    requires Inv(s) && Enabled(s, st) && j in RunningJobs(Next(s, st).db, lane) && j !in RunningJobs(s.db, lane)
    ensures st.ClaimJob? && st.lane == lane && DeedOf(s, st).On? && DeedOf(s, st).job == j
  {
    hide Inv, AttemptsOf, LogOf, RecordOf, Reap, PruneDelete, AddJob, RetryJob, CancelJob, UpdateHeartbeat, Grant;
    hide ListsStale, Effect, CanAct, FreshCell;
    if j in s.db.jobs {
      JobStep(s, st, j);
      if FateOf(s, st, j).Acts? {
        ActKeepsSpec(CellOf(s.db, j), FateOf(s, st, j).act);
      }
    } else {
      NewJobStep(s, st, j);
      FreshIsQueued(st.sub, st.now);
    }
  }

  lemma FreshIsQueued(sub: Submission, now: Time)
    ensures FreshCell(sub, now).job.state.Queued? && FreshCell(sub, now).job.spec == sub.spec
    ensures FreshCell(sub, now).job.key == sub.key && FreshCell(sub, now).attempts == []
  {
  }

  lemma CeilingStep(s: Sys, st: Step, lane: string, most: nat)
    requires Inv(s) && Enabled(s, st) && |RunningJobs(s.db, lane)| <= most
    requires st.ClaimJob? && st.lane == lane ==> st.slots.Some? && st.slots.value <= most
    ensures |RunningJobs(Next(s, st).db, lane)| <= most
  {
    hide Inv, Enabled, Next, RunningJobs, ClaimNext;
    var was, now := RunningJobs(s.db, lane), RunningJobs(Next(s, st).db, lane);
    if j :| j in now && j !in was {
      RunningStep(s, st, lane, j);
      ClaimHadRoom(s, st);
      forall i <- now
        ensures i in was + {j}
      {
        if i !in was {
          RunningStep(s, st, lane, i);
        }
      }
      Smaller(now, was + {j});
    } else {
      Smaller(now, was);
    }
  }

  lemma ClaimHadRoom(s: Sys, st: Step)
    requires Enabled(s, st) && st.ClaimJob? && DeedOf(s, st).On?
    ensures st.slots.Some? ==> |RunningJobs(s.db, st.lane)| < st.slots.value
  {
    hide Pick, Grant, AttemptsOf;
    assert RunningIn(s.db, st.lane) == RunningJobs(s.db, st.lane);
  }

  lemma {:induction false} Smaller(a: set<nat>, b: set<nat>)
    requires a <= b
    ensures |a| <= |b|
  {
    if x :| x in a {
      Smaller(a - {x}, b - {x});
    }
  }

  /** In every run whose claims on a lane all pass at most `most` slots, no more than `most` jobs of that lane are
      ever running, over all workers together. */
  lemma {:induction false} LaneCeiling(root: string, clock: Time, steps: seq<Step>, lane: string, most: nat)
    requires Legal(Init(root, clock), steps) && Capped(steps, lane, most)
    ensures |RunningJobs(After(Init(root, clock), steps).db, lane)| <= most
  {
    hide Inv, Next, Enabled;
    if steps == [] {
      assert RunningJobs(EMPTY, lane) == {};
    } else {
      var s := Init(root, clock);
      LaneCeiling(root, clock, Front(steps), lane, most);
      InitInv(root, clock);
      RunInv(s, Front(steps));
      CeilingStep(After(s, Front(steps)), Last(steps), lane, most);
    }
  }

  // ----- drain -----

  /** How many claims a trail shows. */
  function ClaimEntries(log: seq<Entry>): nat {
    if log == [] then 0 else ClaimEntries(Front(log)) + (if Last(log).kind.Claimed? then 1 else 0)
  }

  lemma {:induction false} ClaimEntriesExist(log: seq<Entry>)
    ensures ClaimEntries(log) > 0 <==> exists i :: 0 <= i < |log| && log[i].kind.Claimed?
  {
    if log != [] {
      ClaimEntriesExist(Front(log));
      if Last(log).kind.Claimed? {
        assert log[|log| - 1].kind.Claimed?;
      } else if i :| 0 <= i < |log| && log[i].kind.Claimed? {
        assert Front(log)[i].kind.Claimed?;
      }
    }
  }

  /** A replay shows as many attempts as the trail has claims. */
  lemma {:induction false} ReplayCountsClaims(log: seq<Entry>)
    ensures Replay(log).Live? ==> |Replay(log).p.outcomes| == ClaimEntries(log)
  {
    if log != [] {
      ReplayCountsClaims(Front(log));
    }
  }

  /** The newest entry of the trail is a retry that came after `now`, and an earlier entry is a claim. */
  ghost predicate RetriedAfter(log: seq<Entry>, now: Time) {
    log != [] && Last(log).kind.Retried? && Last(log).at > now && exists i :: 0 <= i < |log| && log[i].kind.Claimed?
  }

  /** A drain that finds nothing unsettled, on whatever clock reading `now`, leaves no running row in the lane, and
      every queued row is due after that reading and has no non-success on its budget. Such a row was attempted
      before if and only if its newest event is a retry stamped after that reading and an earlier one is a claim. */
  lemma DrainLeavesTheFuture(s: Sys, lane: string, now: Time, j: nat)
    requires Reachable(s) && UnsettledCount(s.db, lane, now) == 0
    requires j in s.db.jobs && s.db.jobs[j].spec.queue == lane
    ensures !s.db.jobs[j].state.Running?
    ensures s.db.jobs[j].state.Queued? ==>
      && s.db.jobs[j].nextRunAt > now
      && s.db.jobs[j].attempts == 0
      && (Rows(s, j) != [] <==> RetriedAfter(LogOf(s.db.events, j), now))
  {
    ReachableCell(s, j);
    hide Reachable, Ownership, Accounting, Pacing, OneStory, AllTold, AttemptsOf, LogOf, Replay;
    assert j !in Unsettled(s.db, lane, now);
    assert Provenance(CellOf(s.db, j)) && Sourced(CellOf(s.db, j));
    ReplayCountsClaims(LogOf(s.db.events, j));
    ClaimEntriesExist(LogOf(s.db.events, j));
  }

  /** So under a steady clock, with a reading that is not late, such a row was never attempted. */
  lemma PunctualDrain(s: Sys, lane: string, j: nat)
    requires SteadilyReachable(s) && UnsettledCount(s.db, lane, s.clock) == 0
    requires j in s.db.jobs && s.db.jobs[j].spec.queue == lane && s.db.jobs[j].state.Queued?
    ensures s.db.jobs[j].nextRunAt > s.clock && s.db.jobs[j].attempts == 0 && Rows(s, j) == []
  {
    hide Reachable, SteadilyReachable, Inv, SteadyInv, AttemptsOf, LogOf, UnsettledCount;
    SteadilyReachableInv(s);
    DrainLeavesTheFuture(s, lane, s.clock, j);
    Stamps(s, j);
  }

  /** The exception is real: the drain reads its clock, a job that was claimed and canceled is retried a second
      later, and the drain counts with its late reading. It reports a settled lane with an attempted job in it. */
  lemma LateDrainOverlooksRetry(sub: Submission)
    ensures exists s: Sys, now: Time ::
      (SteadilyReachable(s) && now <= s.clock && UnsettledCount(s.db, sub.spec.queue, now) == 0
       && 1 in s.db.jobs && s.db.jobs[1].spec.queue == sub.spec.queue && s.db.jobs[1].state.Queued? && Rows(s, 1) != [])
  {
    hide Legal, After, SteadyRun, SteadilyReachable, Reachable, AttemptsOf, CloseWhere, UnsettledCount;
    var s0 := Init("out", 0);
    var first := SubmitAndClaim(sub);
    var s1 := After(s0, first);
    var now := s1.clock;
    var cancel, wait, retry := CancelOne(1, true, now), Tick(now + 1), RetryOne(1, false, now + 1);
    NewestRuns(s1, 1);
    ExtendRun(s0, first, cancel);
    ExtendRun(s0, first + [cancel], wait);
    ExtendRun(s0, first + [cancel] + [wait], retry);
    var steps := first + [cancel] + [wait] + [retry];
    StartReachable(s0, steps);
    var t := After(s0, steps);
    assert |Rows(t, 1)| == |Rows(s1, 1)| by { ClosedAsMany(s1.db.attempts, now); }
    NothingUnsettled(t.db, sub.spec.queue, now);
  }

  lemma ClosedAsMany(rows: seq<Attempt>, now: Time)
    ensures var cl := ByDisplacement(AttCanceled, now, "canceled", ReasonCanceled);
      |AttemptsOf(CloseWhere(rows, ByJob(1), cl), 1)| == |AttemptsOf(rows, 1)|
  {
    hide AttemptsOf;
    AttemptsOfClose(rows, ByJob(1), ByDisplacement(AttCanceled, now, "canceled", ReasonCanceled), 1);
  }

  lemma NothingUnsettled(db: Db, lane: string, now: Time)
    requires db.jobs.Keys == {1}
    requires db.jobs[1].state.Queued? && db.jobs[1].nextRunAt > now && db.jobs[1].attempts == 0
    ensures UnsettledCount(db, lane, now) == 0
  {
    assert forall j <- db.jobs :: j in db.jobs.Keys;
    assert Unsettled(db, lane, now) == {};
  }

  lemma Stamps(s: Sys, j: nat)
    requires SteadyInv(s) && j in s.db.jobs
    ensures LogOf(s.db.events, j) != [] ==> Last(LogOf(s.db.events, j)).at <= s.clock
  {
    hide BirthsOk, PassesOk, StartsOk, TimedOk, AttemptsOf, LogOf;
    assert StampedBy(CellOf(s.db, j).log, s.clock);
  }

  /** Nothing in the lane can start before `from`. */
  ghost predicate NotBefore(s: Sys, lane: string, from: Time) {
    forall j <- s.db.jobs :: s.db.jobs[j].spec.queue == lane ==>
      && (s.db.jobs[j].state.Queued? ==> s.db.jobs[j].nextRunAt >= from)
      && (s.db.jobs[j].state.Running? ==> s.db.jobs[j].startedAt.Some? && s.db.jobs[j].startedAt.value >= from)
  }

  /** The step submits to the lane or retries one of its jobs. */
  predicate Feeds(s: Sys, st: Step, lane: string) {
    (st.Submit? && st.sub.spec.queue == lane)
    || (st.RetryOne? && st.job in s.db.jobs && s.db.jobs[st.job].spec.queue == lane)
  }

  ghost predicate Unfed(s: Sys, steps: seq<Step>, lane: string)
    requires Legal(s, steps)
  {
    steps == [] || (Unfed(s, Front(steps), lane) && !Feeds(After(s, Front(steps)), Last(steps), lane))
  }

  lemma ActNotBefore(c: Cell, a: Act, from: Time)
    requires Ownership(c) && CanAct(c, a) && Timely(c, a) && !a.Retry?
    requires c.job.state.Running? && c.job.startedAt.Some? && c.job.heartbeatAt.Some? ==>
      c.job.startedAt.value <= c.job.heartbeatAt.value
    requires c.job.state.Queued? ==> c.job.nextRunAt >= from
    requires c.job.state.Running? ==> c.job.startedAt.Some? && c.job.startedAt.value >= from
    ensures var job := Effect(c, a).job;
      && (job.state.Queued? ==> job.nextRunAt >= from)
      && (job.state.Running? ==> job.startedAt.Some? && job.startedAt.value >= from)
    ensures a.Claim? ==> a.row.startedAt >= from
  {
  }

  /** Under a steady clock an act comes at its time, on a row that has no beat from before its start. */
  lemma TimelyAt(s: Sys, st: Step, j: nat)
    requires Inv(s) && SteadyInv(s) && Enabled(s, st) && Steady(s, st) && j in s.db.jobs && FateOf(s, st, j).Acts?
    ensures Timely(CellOf(s.db, j), FateOf(s, st, j).act)
    ensures var job := s.db.jobs[j];
      job.state.Running? && job.startedAt.Some? && job.heartbeatAt.Some? ==>
        job.startedAt.value <= job.heartbeatAt.value
  {
    hide Inv, Next, Enabled, Steady, FateOf, Timely, AttemptsOf, LogOf;
    TimelyDeed(s, st, j);
    TimedAt(s, j);
  }

  lemma NotBeforeStep(s: Sys, st: Step, lane: string, from: Time)
    requires Inv(s) && SteadyInv(s) && Enabled(s, st) && Steady(s, st)
    requires NotBefore(s, lane, from) && !Feeds(s, st, lane)
    ensures NotBefore(Next(s, st), lane, from)
  {
    hide Inv, SteadyInv, Steady, AttemptsOf, LogOf, RecordOf, Reap, PruneDelete, AddJob, RetryJob, CancelJob;
    hide UpdateHeartbeat, Grant;
    hide ListsStale, Effect, CanAct, Ownership, FreshCell, DbInv;
    var t := Next(s, st);
    InvDb(s);
    forall j <- t.db.jobs | t.db.jobs[j].spec.queue == lane
      ensures t.db.jobs[j].state.Queued? ==> t.db.jobs[j].nextRunAt >= from
      ensures t.db.jobs[j].state.Running? ==> t.db.jobs[j].startedAt.Some? && t.db.jobs[j].startedAt.value >= from
    {
      JobNotBefore(s, st, lane, from, j);
    }
  }

  lemma JobNotBefore(s: Sys, st: Step, lane: string, from: Time, j: nat)
    requires Inv(s) && SteadyInv(s) && Enabled(s, st) && Steady(s, st)
    requires NotBefore(s, lane, from) && !Feeds(s, st, lane)
    requires j in Next(s, st).db.jobs && Next(s, st).db.jobs[j].spec.queue == lane
    ensures var job := Next(s, st).db.jobs[j];
      && (job.state.Queued? ==> job.nextRunAt >= from)
      && (job.state.Running? ==> job.startedAt.Some? && job.startedAt.value >= from)
  {
    hide Inv, SteadyInv, Steady, AttemptsOf, LogOf, RecordOf, Reap, PruneDelete, AddJob, RetryJob, CancelJob;
    hide UpdateHeartbeat, Grant, Pick;
    hide ListsStale, Effect, CanAct, Ownership, FreshCell, DbInv;
    if j in s.db.jobs {
      JobStep(s, st, j);
      if FateOf(s, st, j).Acts? {
        InvDb(s);
        OwnershipOf(s.db, j);
        TimelyAt(s, st, j);
        ActKeepsSpec(CellOf(s.db, j), FateOf(s, st, j).act);
        ActNotBefore(CellOf(s.db, j), FateOf(s, st, j).act, from);
      }
    } else {
      NewJobStep(s, st, j);
      FreshIsQueued(st.sub, st.now);
    }
  }

  /** After a settled drain, in any continuation under a steady clock that neither submits to the lane nor retries a
      job of it, every claim on the lane that succeeds reads a time at or after `from`, for any `from` no later than
      the start times of the rows that were left queued. */
  lemma {:induction false} DrainedLaneStaysQuiet(s: Sys, steps: seq<Step>, lane: string, now: Time, from: Time)
    requires SteadilyReachable(s) && Legal(s, steps) && SteadyRun(s, steps)
    requires UnsettledCount(s.db, lane, now) == 0 && Unfed(s, steps, lane)
    requires forall j <- s.db.jobs :: s.db.jobs[j].spec.queue == lane && s.db.jobs[j].state.Queued? ==>
      s.db.jobs[j].nextRunAt >= from
    ensures NotBefore(After(s, steps), lane, from)
    ensures forall st ::
      Enabled(After(s, steps), st) && st.ClaimJob? && st.lane == lane && DeedOf(After(s, steps), st).On? ==>
        st.now >= from
  {
    if steps == [] {
      assert forall j <- s.db.jobs :: j !in Unsettled(s.db, lane, now);
    } else {
      hide SteadilyReachable, Reachable, Inv, SteadyInv, Next, Enabled, Steady, NotBefore, UnsettledCount, Feeds;
      var mid := After(s, Front(steps));
      DrainedLaneStaysQuiet(s, Front(steps), lane, now, from);
      SteadilyReachableOn(s, Front(steps));
      SteadilyReachableInv(mid);
      NotBeforeStep(mid, Last(steps), lane, from);
    }
    EarlyClaimsFail(After(s, steps), lane, from);
  }

  lemma EarlyClaimsFail(s: Sys, lane: string, from: Time)
    requires NotBefore(s, lane, from)
    ensures forall st :: Enabled(s, st) && st.ClaimJob? && st.lane == lane && DeedOf(s, st).On? ==> st.now >= from
  {
    hide AttemptsOf, Grant;
    forall st | Enabled(s, st) && st.ClaimJob? && st.lane == lane && DeedOf(s, st).On?
      ensures st.now >= from
    {
      assert Due(s.db, DeedOf(s, st).job, lane, st.now);
    }
  }
}
