/** The event ledger over runs of the fleet is a ledger that readers can follow. */
module FleetFeed {
  import opened Models
  import opened Tables
  import opened Transactions
  import opened JobCell
  import opened StoreSteps
  import opened Fleet
  import opened FleetInv
  import opened FleetDeeds
  import opened FleetRuns
  import opened EventFeed

  function FeedOf(db: Db): Feed {
    Feed(db.events, db.nextEvent)
  }

  /** Every event of `next` is old or has a fresh id. */
  ghost predicate Grown(db: Db, next: Db) {
    forall e <- next.events :: e in db.events || e.id >= db.nextEvent
  }

  lemma {:induction false} WithoutIsPart(rows: seq<Event>, j: nat)
    ensures forall e <- EventsWithout(rows, j) :: e in rows
  {
    if rows != [] {
      WithoutIsPart(Front(rows), j);
      assert forall e <- Front(rows) :: e in rows;
      assert Last(rows) in rows;
    }
  }

  lemma {:induction false} PruneGrown(db: Db, ids: seq<nat>, states: set<JobState>, cutoff: Time)
    ensures forall e <- PruneDelete(db, ids, states, cutoff).events :: e in db.events
  {
    if ids != [] {
      var mid := PruneDelete(db, Front(ids), states, cutoff);
      PruneGrown(db, Front(ids), states, cutoff);
      WithoutIsPart(mid.events, Last(ids));
    }
  }

  lemma RecordGrown(db: Db, p: Proc, pid: Pid, report: Report, now: Time)
    requires p.phase.Busy?
    ensures Grown(db, RecordOf(db, p, pid, report, now))
  {
    hide CloseWhere, BackoffSeconds;
  }

  lemma TransactionsGrow(db: Db, j: nat, now: Time)
    ensures forall pid, cutoff, reaper :: Grown(db, Reap(db, j, pid, cutoff, now, reaper).0)
    ensures forall force :: Grown(db, RetryJob(db, j, force, now).0)
    ensures forall allow :: Grown(db, CancelJob(db, j, allow, now).0)
    ensures forall wid, pid :: Grown(db, UpdateHeartbeat(db, j, wid, pid, now).0)
  {
    hide CloseWhere, BackoffSeconds, ReapedRow, RetriedRow, CanceledRow;
  }

  lemma AddGrows(db: Db, sub: Submission, now: Time)
    ensures Grown(db, AddJob(db, sub, now).0)
  {
    hide Compare, NewRow;
  }

  lemma ClaimGrows(s: Sys, pid: Pid, now: Time, lane: string, slots: Option<int>)
    requires pid in s.procs
    ensures Grown(s.db, ClaimAs(s, pid, now, lane, slots).db)
  {
    hide AttemptsOf, MaxAttemptNo, Pick, NewAttempt, ClaimedRow;
  }

  lemma StepGrown(s: Sys, st: Step)
    requires Enabled(s, st)
    ensures Grown(s.db, Next(s, st).db)
  {
    hide Grown, AttemptsOf, RecordOf, PruneDelete, ListsStale, ClaimAs, Reap, RetryJob, CancelJob, UpdateHeartbeat;
    hide AddJob;
    match st
    case Prune(ids, states, cutoff) => PruneGrows(s.db, ids, states, cutoff);
    case RecordResult(pid, report, now) => RecordGrown(s.db, s.procs[pid], pid, report, now);
    case ClaimJob(pid, now, lane, slots) => ClaimGrows(s, pid, now, lane, slots);
    case Submit(sub, now) => AddGrows(s.db, sub, now);
    case ReapStale(pid) => TransactionsGrow(s.db, s.procs[pid].phase.suspect.job, s.procs[pid].phase.now);
    case SendBeat(pid, now) => TransactionsGrow(s.db, s.procs[pid].phase.job, now);
    case RetryOne(j, _, now) => TransactionsGrow(s.db, j, now);
    case CancelOne(j, _, now) => TransactionsGrow(s.db, j, now);
    case _ => SameGrown(s.db);
  }

  lemma PruneGrows(db: Db, ids: seq<nat>, states: set<JobState>, cutoff: Time)
    ensures Grown(db, PruneDelete(db, ids, states, cutoff))
  {
    hide PruneDelete;
    PruneGrown(db, ids, states, cutoff);
  }

  lemma SameGrown(db: Db)
    ensures Grown(db, db)
  {
  }

  lemma FeedStep(s: Sys, st: Step)
    requires Inv(s) && Enabled(s, st)
    ensures Later(FeedOf(s.db), FeedOf(Next(s, st).db))
  {
    hide Inv, Enabled, Next, CellInv, TidyAttempts, DeedOf;
    StepDeed(s, st);
    StepGrown(s, st);
    InvDb(s);
    NextEventGrows(s.db, Next(s, st).db, DeedOf(s, st));
    FeedOrdered(s.db);
    FeedOrdered(Next(s, st).db);
  }

  lemma NextEventGrows(db: Db, next: Db, d: Deed)
    requires Does(db, next, d)
    ensures db.nextEvent <= next.nextEvent
  {
  }

  lemma FeedOrdered(db: Db)
    requires DbInv(db)
    ensures Ordered(FeedOf(db))
  {
    hide CellInv, TidyAttempts;
    assert TidyEvents(db.events, db.nextEvent, db.jobs.Keys);
  }

  /** Along every run the ledger only loses events to prunes and gains events with fresh ids. So the states a reader
      sees at successive reads form a history to which the delivery results apply. */
  lemma {:induction false} LedgerIsFollowable(s: Sys, steps: seq<Step>)
    requires Reachable(s) && Legal(s, steps)
    ensures Later(FeedOf(s.db), FeedOf(After(s, steps).db))
  {
    hide Reachable, Inv, Next, Enabled, Later;
    if steps == [] {
      ReachableInv(s);
      InvDb(s);
      FeedOrdered(s.db);
      SameIsLater(FeedOf(s.db));
    } else {
      var mid := After(s, Front(steps));
      LedgerIsFollowable(s, Front(steps));
      ReachableOn(s, Front(steps));
      ReachableInv(mid);
      FeedStep(mid, Last(steps));
      LaterTransitive(FeedOf(s.db), FeedOf(mid.db), FeedOf(After(s, steps).db));
    }
  }

  lemma SameIsLater(f: Feed)
    requires Ordered(f)
    ensures Later(f, f)
  {
  }

  /** The two reads of an event page are apart and a submission commits in between: the page, of whatever limit,
      passes over its event, which comes on no later page. */
  lemma SubmissionSlipsThrough(sub: Submission, limit: nat)
    ensures exists s: Sys, st: Step, e: Event ::
      (SteadilyReachable(s) && Enabled(s, st) && Steady(s, st)
       && Skips(EventPage(s.db.events, Next(s, st).db.events, 0, None, limit), FeedOf(Next(s, st).db), 0, None, e))
  {
    hide SteadilyReachable;
    var s, st := Init("out", 0), Submit(sub, 0);
    InitReached();
    var e := Event(1, 1, Entry(0, Added, None, NoDetail));
    assert Next(s, st).db.events == [e];
    assert HighWater([e]) == 1 by { assert Front([e]) == []; }
    var p := EventPage([], [e], 0, None, limit);
    assert Matching([], 0, None) == [];
    assert p == Page([], 1, false);
    assert Skips(p, FeedOf(Next(s, st).db), 0, None, e);
  }

  lemma InitReached()
    ensures SteadilyReachable(Init("out", 0))
  {
    assert Legal(Init("out", 0), []) && SteadyRun(Init("out", 0), []) && After(Init("out", 0), []) == Init("out", 0);
  }
}
