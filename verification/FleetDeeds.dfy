/** Every step of the fleet, as seen by the database, is one act on one job, one insertion, one deletion, or nothing. */
module FleetDeeds {
  import opened Models
  import opened Tables
  import opened Transactions
  import opened JobCell
  import opened StoreSteps
  import opened Fleet
  import opened FleetInv

  ghost predicate Does(db: Db, next: Db, d: Deed) {
    match d
    case Nothing => next == db
    case On(j, a) => Touched(db, next, j, a)
    case Insert(sub, now) => AddedJob(db, next, sub, now)
    case Drop => Kept(db, next)
  }

  /** The step is possible and does to the database what its deed says. */
  ghost predicate Performs(s: Sys, st: Step) {
    Enabled(s, st) && Does(s.db, Next(s, st).db, DeedOf(s, st))
  }

  lemma DoesKeepsInv(db: Db, next: Db, d: Deed)
    requires DbInv(db) && Does(db, next, d)
    ensures DbInv(next)
  {
    hide DbInv, Touched, AddedJob;
    match d
    case Nothing =>
    case On(j, a) => TouchedKeepsInv(db, next, j, a);
    case Insert(sub, now) => AddedKeepsInv(db, next, sub, now);
    case Drop => KeptKeepsInv(db, next);
  }

  lemma KeptKeepsInv(db: Db, next: Db)
    requires DbInv(db) && Kept(db, next)
    ensures DbInv(next)
  {
    hide CellInv, Tidy;
    forall i <- next.jobs
      ensures CellInv(CellOf(next, i))
    {
      assert i in db.jobs.Keys;
      assert CellInv(CellOf(db, i)) && CellOf(next, i) == CellOf(db, i);
    }
  }

  lemma RecordDeed(s: Sys, pid: Pid, report: Report, now: Time)
    requires Inv(s) && Enabled(s, RecordResult(pid, report, now))
    ensures Performs(s, RecordResult(pid, report, now))
  {
    hide DbInv, Inv, Touched, AttemptsOf, RecordSuccess, RecordFailure, CloseWhere, AddClosing;
    var p := s.procs[pid];
    var j, att := p.phase.job, p.phase.attempt;
    if !Owns(s.db, j, p.workerId, pid) {
      NotRecorded(s.db, p, pid, report, now);
    } else {
      OwnsNewest(s, pid);
      InvDb(s);
      match report
      case Exit(code, text) =>
        if code == 0 {
          RecordSuccessTouches(s.db, j, att, p.workerId, pid, now);
        } else {
          RecordFailureTouches(s.db, j, att, p.workerId, pid, AttFailed, Some(code), text, now, ProcessExit);
        }
      case NoSpawn(text) =>
        RecordFailureTouches(s.db, j, att, p.workerId, pid, AttFailed, None, text, now, SpawnFailed);
      case Overran(text) =>
        RecordFailureTouches(s.db, j, att, p.workerId, pid, AttTimedOut, None, text, now, Timeout);
    }
  }

  /** Without ownership a record writes nothing. */
  lemma NotRecorded(db: Db, p: Proc, pid: Pid, report: Report, now: Time)
    requires p.phase.Busy? && !Owns(db, p.phase.job, p.workerId, pid)
    ensures RecordOf(db, p, pid, report, now) == db
  {
  }

  lemma InvDb(s: Sys)
    requires Inv(s)
    ensures DbInv(s.db)
  {
    hide DbInv;
  }

  lemma BeatDeed(s: Sys, pid: Pid, now: Time)
    requires Inv(s) && Enabled(s, SendBeat(pid, now))
    ensures Performs(s, SendBeat(pid, now))
  {
    hide DbInv, Inv, Touched, AttemptsOf;
    var p := s.procs[pid];
    if Owns(s.db, p.phase.job, p.workerId, pid) {
      OwnsNewest(s, pid);
      InvDb(s);
      HeartbeatTouches(s.db, p.phase.job, p.workerId, pid, now);
    }
  }

  lemma ReapDeed(s: Sys, pid: Pid)
    requires Inv(s) && Enabled(s, ReapStale(pid))
    ensures Performs(s, ReapStale(pid))
  {
    hide DbInv, Inv, Touched, CloseWhere, AddClosing, ReapedRow;
    InvDb(s);
    var p := s.procs[pid];
    var ph := p.phase;
    if Reapable(s.db, ph.suspect.job, ph.suspect.pid, ph.cutoff) {
      ReapTouches(s.db, ph.suspect.job, ph.suspect.pid, ph.cutoff, ph.now, p.workerId);
    }
  }

  lemma ClaimDeed(s: Sys, pid: Pid, now: Time, lane: string, slots: Option<int>)
    requires Inv(s) && Enabled(s, ClaimJob(pid, now, lane, slots))
    ensures Performs(s, ClaimJob(pid, now, lane, slots))
  {
    hide DbInv, Inv, Touched, Grant, AttemptsOf, MaxAttemptNo;
    InvDb(s);
    var p := s.procs[pid];
    var r := ClaimNext(s.db, p.workerId, pid, now, s.root, lane, slots);
    if r.1.Some? {
      GrantTouches(s.db, r.1.value, p.workerId, pid, now, s.root);
    }
  }

  lemma SubmitDeed(s: Sys, sub: Submission, now: Time)
    requires Inv(s)
    ensures Performs(s, Submit(sub, now))
  {
    hide DbInv, Inv, AddedJob;
    InvDb(s);
    AddAdds(s.db, sub, now);
  }

  lemma RetryDeed(s: Sys, j: nat, force: bool, now: Time)
    requires Inv(s)
    ensures Performs(s, RetryOne(j, force, now))
  {
    hide DbInv, Inv, Touched, CloseWhere, AddEvent;
    InvDb(s);
    if RetryRefusal(s.db, j, force).None? {
      RetryTouches(s.db, j, force, now);
    }
  }

  lemma CancelDeed(s: Sys, j: nat, allow: bool, now: Time)
    requires Inv(s)
    ensures Performs(s, CancelOne(j, allow, now))
  {
    hide DbInv, Inv, Touched, CloseWhere, AddEvent;
    InvDb(s);
    if DeedOf(s, CancelOne(j, allow, now)).On? {
      CancelTouches(s.db, j, allow, now);
    }
  }

  lemma PruneDeed(s: Sys, ids: seq<nat>, states: set<JobState>, cutoff: Time)
    requires Inv(s) && Enabled(s, Prune(ids, states, cutoff))
    ensures Performs(s, Prune(ids, states, cutoff))
  {
    hide DbInv, Inv, Kept;
    InvDb(s);
    PruneKeeps(s.db, ids, states, cutoff);
  }

  /** Every enabled step does its deed and keeps the database invariant. */
  lemma StepDeed(s: Sys, st: Step)
    requires Inv(s) && Enabled(s, st)
    ensures Performs(s, st) && DbInv(Next(s, st).db)
  {
    hide DbInv, Inv, Does;
    InvDb(s);
    match st {
      case ReapStale(pid) => ReapDeed(s, pid);
      case ClaimJob(pid, now, lane, slots) => ClaimDeed(s, pid, now, lane, slots);
      case SendBeat(pid, now) => BeatDeed(s, pid, now);
      case RecordResult(pid, report, now) => RecordDeed(s, pid, report, now);
      case Submit(sub, now) => SubmitDeed(s, sub, now);
      case RetryOne(j, force, now) => RetryDeed(s, j, force, now);
      case CancelOne(j, allow, now) => CancelDeed(s, j, allow, now);
      case Prune(ids, states, cutoff) => PruneDeed(s, ids, states, cutoff);
      case _ => NoDeed(s.db);
    }
    DoesKeepsInv(s.db, Next(s, st).db, DeedOf(s, st));
  }

  lemma NoDeed(db: Db)
    ensures Does(db, db, Nothing)
  {
  }
}
