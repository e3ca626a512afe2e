/** The database invariant, and the proof that every transaction is an act on one job's slice
    that leaves every other slice, row by row, as it was. */
module StoreSteps {
  import opened Models
  import opened Tables
  import opened Transactions
  import opened Ledger
  import opened JobCell

  /** Ids ascend below `bound` and every row belongs to one of the jobs `keys`. */
  ghost predicate TidyAttempts(rows: seq<Attempt>, bound: nat, keys: set<nat>) {
    && (forall i :: 0 <= i < |rows| ==> 0 < rows[i].id < bound && rows[i].jobId in keys)
    && (forall i, k :: 0 <= i < k < |rows| ==> rows[i].id < rows[k].id)
  }

  ghost predicate TidyEvents(rows: seq<Event>, bound: nat, keys: set<nat>) {
    && (forall i :: 0 <= i < |rows| ==> 0 < rows[i].id < bound && rows[i].jobId in keys)
    && (forall i, k :: 0 <= i < k < |rows| ==> rows[i].id < rows[k].id)
  }

  /** Row ids ascend, stay below their counters and refer to jobs that exist. */
  ghost predicate Tidy(db: Db) {
    && db.nextJob > 0 && db.nextAttempt > 0 && db.nextEvent > 0
    && (forall j <- db.jobs :: 0 < j < db.nextJob)
    && TidyAttempts(db.attempts, db.nextAttempt, db.jobs.Keys)
    && TidyEvents(db.events, db.nextEvent, db.jobs.Keys)
  }

  ghost predicate DbInv(db: Db) {
    Tidy(db) && forall j <- db.jobs :: CellInv(CellOf(db, j))
  }

  /** From `db` to `next`, job `j` underwent act `a` and no other job changed at all. */
  ghost predicate Touched(db: Db, next: Db, j: nat, a: Act) {
    && j in db.jobs
    && next.jobs.Keys == db.jobs.Keys
    && Tidy(next)
    && next.nextJob == db.nextJob
    && next.nextAttempt == db.nextAttempt + (if a.Claim? then 1 else 0)
    && db.nextEvent <= next.nextEvent
    && (a.Claim? ==> a.row.id == db.nextAttempt && a.row.jobId == j)
    && CanAct(CellOf(db, j), a)
    && CellOf(next, j) == Effect(CellOf(db, j), a)
    && forall i <- db.jobs :: i != j ==> CellOf(next, i) == CellOf(db, i)
  }

  lemma TouchedKeepsInv(db: Db, next: Db, j: nat, a: Act)
    requires DbInv(db) && Touched(db, next, j, a)
    ensures DbInv(next)
  {
    hide CellInv, Tidy, Effect, CanAct;
    assert CellInv(CellOf(db, j));
    CellInvKept(CellOf(db, j), a);
    forall i <- next.jobs
      ensures CellInv(CellOf(next, i))
    {
      assert i in db.jobs.Keys;
      assert i in db.jobs && (i == j || CellOf(next, i) == CellOf(db, i));
    }
  }

  lemma OwnershipOf(db: Db, j: nat)
    requires DbInv(db) && j in db.jobs
    ensures Ownership(CellOf(db, j))
  {
  }

  /** A row that does not run has no attempt to close. */
  lemma NothingToClose(c: Cell, cl: Closing)
    requires Ownership(c) && !c.job.state.Running?
    ensures CloseNewest(c.attempts, cl) == c.attempts
  {
  }

  // ----- slices of tables -----

  lemma AttemptsOfAppend(rows: seq<Attempt>, r: Attempt, j: nat)
    ensures AttemptsOf(rows + [r], j) == if r.jobId == j then AttemptsOf(rows, j) + [r] else AttemptsOf(rows, j)
  {
    assert Front(rows + [r]) == rows;
  }

  lemma LogOfAppend(rows: seq<Event>, e: Event, j: nat)
    ensures LogOf(rows + [e], j) == if e.jobId == j then LogOf(rows, j) + [e.entry] else LogOf(rows, j)
  {
    assert Front(rows + [e]) == rows;
  }

  lemma {:induction false} AttemptsOfIn(rows: seq<Attempt>, bound: nat, keys: set<nat>, j: nat)
    requires TidyAttempts(rows, bound, keys)
    ensures TidyAttempts(AttemptsOf(rows, j), bound, {j})
    ensures forall k :: 0 <= k < |AttemptsOf(rows, j)| ==> AttemptsOf(rows, j)[k] in rows
  {
    if rows != [] {
      AttemptsOfIn(Front(rows), Last(rows).id, keys, j);
      assert forall x <- Front(rows) :: x in rows;
    }
  }

  lemma {:induction false} AttemptsOfClose(rows: seq<Attempt>, sel: Selector, c: Closing, j: nat)
    ensures AttemptsOf(CloseWhere(rows, sel, c), j) == CloseWhere(AttemptsOf(rows, j), sel, c)
  {
    if rows != [] {
      AttemptsOfClose(Front(rows), sel, c, j);
      assert Front(CloseWhere(rows, sel, c)) == CloseWhere(Front(rows), sel, c);
    }
  }

  lemma {:induction false} AttemptsOfWithout(rows: seq<Attempt>, gone: nat, j: nat)
    requires j != gone
    ensures AttemptsOf(AttemptsWithout(rows, gone), j) == AttemptsOf(rows, j)
  {
    if rows != [] {
      AttemptsOfWithout(Front(rows), gone, j);
      AttemptsOfAppend(AttemptsWithout(Front(rows), gone), Last(rows), j);
    }
  }

  lemma {:induction false} LogOfWithout(rows: seq<Event>, gone: nat, j: nat)
    requires j != gone
    ensures LogOf(EventsWithout(rows, gone), j) == LogOf(rows, j)
  {
    if rows != [] {
      LogOfWithout(Front(rows), gone, j);
      LogOfAppend(EventsWithout(Front(rows), gone), Last(rows), j);
    }
  }

  lemma {:induction false} TidyAttemptsWithout(rows: seq<Attempt>, gone: nat, bound: nat, keys: set<nat>)
    requires TidyAttempts(rows, bound, keys)
    ensures TidyAttempts(AttemptsWithout(rows, gone), bound, keys - {gone})
    ensures rows != [] && AttemptsWithout(rows, gone) != [] ==> Last(AttemptsWithout(rows, gone)).id <= Last(rows).id
  {
    if rows != [] {
      TidyAttemptsWithout(Front(rows), gone, Last(rows).id, keys);
    }
  }

  lemma {:induction false} TidyEventsWithout(rows: seq<Event>, gone: nat, bound: nat, keys: set<nat>)
    requires TidyEvents(rows, bound, keys)
    ensures TidyEvents(EventsWithout(rows, gone), bound, keys - {gone})
  {
    if rows != [] {
      TidyEventsWithout(Front(rows), gone, Last(rows).id, keys);
    }
  }

  // ----- the common shape of a transaction -----

  /** Rewrites one row and the attempts, then appends the entries of an act. */
  function Write(db: Db, j: nat, row: Job, attempts: seq<Attempt>, nextAttempt: nat, es: seq<Entry>): Db {
    var db1 := db.(jobs := db.jobs[j := row], attempts := attempts, nextAttempt := nextAttempt);
    if es == [] then db1
    else if |es| == 1 then AddEvent(db1, j, es[0])
    else AddEvent(AddEvent(db1, j, es[0]), j, es[1])
  }

  lemma AddEventLogs(db: Db, j: nat, e: Entry)
    requires TidyEvents(db.events, db.nextEvent, db.jobs.Keys) && j in db.jobs && db.nextEvent > 0
    ensures var next := AddEvent(db, j, e);
      && TidyEvents(next.events, next.nextEvent, next.jobs.Keys)
      && LogOf(next.events, j) == LogOf(db.events, j) + [e]
      && forall i: nat :: i != j ==> LogOf(next.events, i) == LogOf(db.events, i)
  {
    var row := Event(db.nextEvent, j, e);
    forall i: nat
      ensures LogOf(db.events + [row], i) == if i == j then LogOf(db.events, i) + [e] else LogOf(db.events, i)
    {
      LogOfAppend(db.events, row, i);
    }
  }

  /** The tables but the events, and the events as the logs of the jobs, after a write. */
  ghost predicate Wrote(db: Db, next: Db, j: nat, row: Job, attempts: seq<Attempt>, nextAttempt: nat, es: seq<Entry>) {
    && next.jobs == db.jobs[j := row] && next.attempts == attempts
    && next.nextAttempt == nextAttempt && next.nextJob == db.nextJob && next.nextEvent == db.nextEvent + |es|
    && LogOf(next.events, j) == LogOf(db.events, j) + es
    && (forall i: nat :: i != j ==> LogOf(next.events, i) == LogOf(db.events, i))
    && TidyEvents(next.events, next.nextEvent, next.jobs.Keys)
  }

  lemma WroteNone(db: Db, j: nat, row: Job, attempts: seq<Attempt>, nextAttempt: nat)
    requires j in db.jobs && TidyEvents(db.events, db.nextEvent, db.jobs.Keys)
    ensures Wrote(db, db.(jobs := db.jobs[j := row], attempts := attempts, nextAttempt := nextAttempt),
                  j, row, attempts, nextAttempt, [])
  {
    hide LogOf, TidyEvents;
    assert db.jobs[j := row].Keys == db.jobs.Keys;
  }

  lemma WroteOneMore(db: Db, next: Db, j: nat, row: Job, attempts: seq<Attempt>, nextAttempt: nat, es: seq<Entry>,
                     e: Entry)
    requires Wrote(db, next, j, row, attempts, nextAttempt, es) && next.nextEvent > 0
    ensures Wrote(db, AddEvent(next, j, e), j, row, attempts, nextAttempt, es + [e])
  {
    hide LogOf, TidyEvents;
    AddEventLogs(next, j, e);
    assert LogOf(db.events, j) + (es + [e]) == LogOf(db.events, j) + es + [e];
  }

  lemma WriteLogs(db: Db, j: nat, row: Job, attempts: seq<Attempt>, nextAttempt: nat, es: seq<Entry>)
    requires |es| <= 2 && j in db.jobs && Tidy(db)
    ensures Wrote(db, Write(db, j, row, attempts, nextAttempt, es), j, row, attempts, nextAttempt, es)
  {
    hide Wrote, AddEvent, TidyAttempts, TidyEvents;
    var db1 := db.(jobs := db.jobs[j := row], attempts := attempts, nextAttempt := nextAttempt);
    WroteNone(db, j, row, attempts, nextAttempt);
    if |es| == 1 {
      assert es == [] + [es[0]];
      WroteOneMore(db, db1, j, row, attempts, nextAttempt, [], es[0]);
    } else if |es| == 2 {
      assert es == [] + [es[0]] + [es[1]];
      WroteOneMore(db, db1, j, row, attempts, nextAttempt, [], es[0]);
      EventCounted(db1, j, es[0]);
      WroteOneMore(db, AddEvent(db1, j, es[0]), j, row, attempts, nextAttempt, [] + [es[0]], es[1]);
    } else {
      assert es == [];
    }
  }

  lemma EventCounted(db: Db, j: nat, e: Entry)
    ensures AddEvent(db, j, e).nextEvent == db.nextEvent + 1
  {
  }

  /** A write is an act once its row, its attempts and its entries are those of the act. */
  lemma WriteTouches(db: Db, j: nat, a: Act, attempts: seq<Attempt>, nextAttempt: nat, es: seq<Entry>)
    requires Tidy(db) && j in db.jobs && CanAct(CellOf(db, j), a)
    requires es == if a.Beat? then [] else Letters(Written(CellOf(db, j), a), DeadLetters(CellOf(db, j), a))
    requires AttemptsOf(attempts, j) == AttemptsAfter(AttemptsOf(db.attempts, j), a)
    requires forall i <- db.jobs :: i != j ==> AttemptsOf(attempts, i) == AttemptsOf(db.attempts, i)
    requires nextAttempt == db.nextAttempt + (if a.Claim? then 1 else 0)
    requires a.Claim? ==> a.row.id == db.nextAttempt && a.row.jobId == j
    requires TidyAttempts(attempts, nextAttempt, db.jobs.Keys)
    ensures Touched(db, Write(db, j, RowAfter(db.jobs[j], a), attempts, nextAttempt, es), j, a)
  {
    hide LogOf, AttemptsOf, RowAfter, AttemptsAfter, Written, DeadLetters;
    WriteLogs(db, j, RowAfter(db.jobs[j], a), attempts, nextAttempt, es);
    hide Write, RowAfter, AttemptsAfter, Written, LogOf, AttemptsOf, CanAct, DeadLetters;
    var next := Write(db, j, RowAfter(db.jobs[j], a), attempts, nextAttempt, es);
    assert next.jobs.Keys == db.jobs.Keys;
    assert Tidy(next);
  }

  lemma CloseTidy(rows: seq<Attempt>, sel: Selector, c: Closing, bound: nat, keys: set<nat>)
    requires TidyAttempts(rows, bound, keys)
    ensures TidyAttempts(CloseWhere(rows, sel, c), bound, keys)
  {
    var next := CloseWhere(rows, sel, c);
    assert forall i :: 0 <= i < |rows| ==> next[i].id == rows[i].id && next[i].jobId == rows[i].jobId;
  }

  /** Closing the running attempt of `j`, by job or by its own id, closes the newest one and nothing else. */
  lemma ClosingOne(db: Db, j: nat, sel: Selector, c: Closing)
    requires Tidy(db) && j in db.jobs && db.jobs[j].state.Running? && Ownership(CellOf(db, j))
    requires sel.ByJob? ==> sel.jobId == j
    requires sel.ById? ==> AttemptsOf(db.attempts, j) != [] && sel.id == Last(AttemptsOf(db.attempts, j)).id
    ensures var rows := CloseWhere(db.attempts, sel, c);
      && TidyAttempts(rows, db.nextAttempt, db.jobs.Keys)
      && AttemptsOf(rows, j) == CloseNewest(AttemptsOf(db.attempts, j), c)
      && forall i <- db.jobs :: i != j ==> AttemptsOf(rows, i) == AttemptsOf(db.attempts, i)
  {
    AttemptsOfIn(db.attempts, db.nextAttempt, db.jobs.Keys, j);
    CloseMine(CellOf(db, j), j, sel, c);
    AttemptsOfClose(db.attempts, sel, c, j);
    CloseTidy(db.attempts, sel, c, db.nextAttempt, db.jobs.Keys);
    hide AttemptsOf, LogOf, TidyEvents, TidyAttempts, Ownership, CloseNewest, CloseWhere;
    forall i <- db.jobs | i != j
      ensures AttemptsOf(CloseWhere(db.attempts, sel, c), i) == AttemptsOf(db.attempts, i)
    {
      OthersUntouched(db, j, sel, c, i);
    }
  }

  lemma CloseMine(cell: Cell, j: nat, sel: Selector, c: Closing)
    requires Ownership(cell) && cell.job.state.Running?
    requires TidyAttempts(cell.attempts, if sel.ById? then sel.id + 1 else Last(cell.attempts).id + 1, {j})
    requires sel.ByJob? ==> sel.jobId == j
    requires sel.ById? ==> sel.id == Last(cell.attempts).id
    ensures CloseWhere(cell.attempts, sel, c) == CloseNewest(cell.attempts, c)
  {
    var mine := cell.attempts;
    assert forall k :: 0 <= k < |mine| ==> (Selects(sel, mine[k]) <==> k == |mine| - 1);
  }

  lemma OthersUntouched(db: Db, j: nat, sel: Selector, c: Closing, i: nat)
    requires TidyAttempts(db.attempts, db.nextAttempt, db.jobs.Keys) && i != j
    requires sel.ByJob? ==> sel.jobId == j
    requires sel.ById? ==> AttemptsOf(db.attempts, j) != [] && sel.id == Last(AttemptsOf(db.attempts, j)).id
    ensures AttemptsOf(CloseWhere(db.attempts, sel, c), i) == AttemptsOf(db.attempts, i)
  {
    var mine, theirs := AttemptsOf(db.attempts, j), AttemptsOf(db.attempts, i);
    AttemptsOfIn(db.attempts, db.nextAttempt, db.jobs.Keys, i);
    AttemptsOfIn(db.attempts, db.nextAttempt, db.jobs.Keys, j);
    AttemptsOfClose(db.attempts, sel, c, i);
    hide AttemptsOf;
    assert forall x, y :: x in db.attempts && y in db.attempts && x.id == y.id ==> x == y;
    assert sel.ById? ==> Last(mine) in db.attempts;
    assert forall k :: 0 <= k < |theirs| ==> theirs[k] in db.attempts && !Selects(sel, theirs[k]);
    assert CloseWhere(theirs, sel, c) == theirs;
  }

  // ----- each transaction is an act -----

  lemma {:induction false} NumberedMax(rows: seq<Attempt>)
    requires forall k :: 0 <= k < |rows| ==> rows[k].no == k + 1
    ensures MaxAttemptNo(rows) == |rows|
  {
    if rows != [] {
      NumberedMax(Front(rows));
    }
  }

  /** A claim writes the row, the new attempt and one entry. */
  lemma GrantWrites(db: Db, j: nat, wid: string, pid: Pid, now: Time, root: string, row: Attempt)
    requires j in db.jobs && MaxAttemptNo(AttemptsOf(db.attempts, j)) == |AttemptsOf(db.attempts, j)|
    requires row == NewAttempt(db.nextAttempt, j, |AttemptsOf(db.attempts, j)| + 1, wid, pid, now, root)
    ensures Grant(db, j, wid, pid, now, root) ==
      Write(db, j, RowAfter(db.jobs[j], Claim(row)), db.attempts + [row], db.nextAttempt + 1,
            [Entry(now, Claimed, Some(wid), NoDetail)])
  {
    hide AttemptsOf, LogOf, MaxAttemptNo, AttemptDir;
  }

  /** The new attempt is fresh, and one entry is all that a claim writes. */
  lemma ClaimIsAct(c: Cell, id: nat, j: nat, wid: string, pid: Pid, now: Time, root: string)
    requires c.job.state.Queued? && c.job.nextRunAt <= now
    ensures var row := NewAttempt(id, j, |c.attempts| + 1, wid, pid, now, root);
      && CanAct(c, Claim(row)) && row.id == id && row.jobId == j
      && Letters(Written(c, Claim(row)), DeadLetters(c, Claim(row))) == [Entry(now, Claimed, Some(wid), NoDetail)]
      && AttemptsAfter(c.attempts, Claim(row)) == c.attempts + [row]
  {
    hide AttemptDir;
  }

  lemma GrantTouches(db: Db, j: nat, wid: string, pid: Pid, now: Time, root: string)
    requires DbInv(db) && j in db.jobs && db.jobs[j].state.Queued? && db.jobs[j].nextRunAt <= now
    ensures var row := NewAttempt(db.nextAttempt, j, |AttemptsOf(db.attempts, j)| + 1, wid, pid, now, root);
      Touched(db, Grant(db, j, wid, pid, now, root), j, Claim(row))
  {
    hide CellInv, AttemptsOf, LogOf, TidyEvents, TidyAttempts, MaxAttemptNo, Ownership, Touched, NewAttempt, Grant;
    hide Write;
    hide CanAct, Written, DeadLetters, Letters, RowAfter, AttemptsAfter;
    var c := CellOf(db, j);
    OwnershipOf(db, j);
    Numbered(c);
    var row := NewAttempt(db.nextAttempt, j, |c.attempts| + 1, wid, pid, now, root);
    ClaimIsAct(c, db.nextAttempt, j, wid, pid, now, root);
    AppendAttempt(db, row);
    GrantWrites(db, j, wid, pid, now, root, row);
    WriteTouches(db, j, Claim(row), db.attempts + [row], db.nextAttempt + 1,
                 [Entry(now, Claimed, Some(wid), NoDetail)]);
  }

  lemma Numbered(c: Cell)
    requires Ownership(c)
    ensures MaxAttemptNo(c.attempts) == |c.attempts|
  {
    NumberedMax(c.attempts);
  }

  lemma AppendAttempt(db: Db, row: Attempt)
    requires Tidy(db) && row.id == db.nextAttempt && row.jobId in db.jobs
    ensures TidyAttempts(db.attempts + [row], db.nextAttempt + 1, db.jobs.Keys)
    ensures AttemptsOf(db.attempts + [row], row.jobId) == AttemptsOf(db.attempts, row.jobId) + [row]
    ensures forall i <- db.jobs :: i != row.jobId ==> AttemptsOf(db.attempts + [row], i) == AttemptsOf(db.attempts, i)
  {
    hide TidyEvents;
    AttemptsOfAppend(db.attempts, row, row.jobId);
    forall i <- db.jobs | i != row.jobId
      ensures AttemptsOf(db.attempts + [row], i) == AttemptsOf(db.attempts, i)
    {
      AttemptsOfAppend(db.attempts, row, i);
    }
  }

  lemma RecordSuccessTouches(db: Db, j: nat, att: nat, wid: string, pid: Pid, now: Time)
    requires DbInv(db) && Owns(db, j, wid, pid)
    requires AttemptsOf(db.attempts, j) != [] && Last(AttemptsOf(db.attempts, j)).id == att
    ensures Touched(db, RecordSuccess(db, j, att, wid, pid, now).0, j, Succeed(wid, now))
  {
    hide CellInv, Ownership, AttemptsOf, LogOf, TidyAttempts, TidyEvents, CloseWhere, Touched;
    OwnershipOf(db, j);
    ClosingOne(db, j, ById(att), ByExit(now));
    var a := Succeed(wid, now);
    WriteTouches(db, j, a, CloseWhere(db.attempts, ById(att), ByExit(now)), db.nextAttempt,
                 [Written(CellOf(db, j), a)]);
  }

  lemma RecordFailureTouches(db: Db, j: nat, att: nat, wid: string, pid: Pid, kind: AttemptState,
                             code: Option<int>, error: string, now: Time, reason: Reason)
    requires DbInv(db) && Owns(db, j, wid, pid) && Honest(kind, code, reason)
    requires AttemptsOf(db.attempts, j) != [] && Last(AttemptsOf(db.attempts, j)).id == att
    ensures Touched(db, RecordFailure(db, j, att, wid, pid, kind, code, error, now, Some(reason)).0, j,
                    Fail(wid, kind, code, error, reason, now))
  {
    hide CellInv, Ownership, AttemptsOf, LogOf, TidyAttempts, TidyEvents, CloseWhere, Touched;
    OwnershipOf(db, j);
    var a, cl := Fail(wid, kind, code, error, reason, now), ByFailure(kind, now, code, error, reason);
    ClosingOne(db, j, ById(att), cl);
    WriteTouches(db, j, a, CloseWhere(db.attempts, ById(att), cl), db.nextAttempt,
                 Letters(Written(CellOf(db, j), a), DeadLetters(CellOf(db, j), a)));
  }

  lemma HeartbeatTouches(db: Db, j: nat, wid: string, pid: Pid, now: Time)
    requires DbInv(db) && Owns(db, j, wid, pid)
    ensures Touched(db, UpdateHeartbeat(db, j, wid, pid, now).0, j, Beat(now))
  {
    WriteTouches(db, j, Beat(now), db.attempts, db.nextAttempt, []);
  }

  lemma ReapTouches(db: Db, j: nat, pid: Pid, cutoff: Time, now: Time, reaper: string)
    requires DbInv(db) && Reapable(db, j, pid, cutoff)
    ensures Touched(db, Reap(db, j, pid, cutoff, now, reaper).0, j, Crash(reaper, pid, now))
  {
    hide CellInv, Ownership, AttemptsOf, LogOf, TidyAttempts, TidyEvents, CloseWhere, Touched;
    OwnershipOf(db, j);
    var a, cl := Crash(reaper, pid, now), ByDisplacement(AttAbandoned, now, "worker died", WorkerCrash);
    ClosingOne(db, j, ByJob(j), cl);
    WriteTouches(db, j, a, CloseWhere(db.attempts, ByJob(j), cl), db.nextAttempt,
                 Letters(Written(CellOf(db, j), a), DeadLetters(CellOf(db, j), a)));
  }

  lemma RetryTouches(db: Db, j: nat, force: bool, now: Time)
    requires DbInv(db) && RetryRefusal(db, j, force).None?
    ensures Touched(db, RetryJob(db, j, force, now).0, j, Retry(force, now))
  {
    hide CellInv, Ownership, AttemptsOf, LogOf, TidyAttempts, TidyEvents, CloseWhere, Touched;
    OwnershipOf(db, j);
    var cl := ByDisplacement(AttAbandoned, now, "force-retried", ReasonCanceled);
    if force {
      ClosingOne(db, j, ByJob(j), cl);
    } else {
      NothingToClose(CellOf(db, j), cl);
    }
    WriteTouches(db, j, Retry(force, now), if force then CloseWhere(db.attempts, ByJob(j), cl) else db.attempts,
                 db.nextAttempt, [Written(CellOf(db, j), Retry(force, now))]);
  }

  lemma CancelTouches(db: Db, j: nat, allowRunning: bool, now: Time)
    requires DbInv(db) && j in db.jobs
    requires db.jobs[j].state.Queued? || (db.jobs[j].state.Running? && allowRunning)
    ensures Touched(db, CancelJob(db, j, allowRunning, now).0, j, Cancel(now))
  {
    hide CellInv, Ownership, AttemptsOf, LogOf, TidyAttempts, TidyEvents, CloseWhere, Touched;
    OwnershipOf(db, j);
    var cl := ByDisplacement(AttCanceled, now, "canceled", ReasonCanceled);
    var running := db.jobs[j].state.Running?;
    if running {
      ClosingOne(db, j, ByJob(j), cl);
    } else {
      NothingToClose(CellOf(db, j), cl);
    }
    WriteTouches(db, j, Cancel(now), if running then CloseWhere(db.attempts, ByJob(j), cl) else db.attempts,
                 db.nextAttempt, [Written(CellOf(db, j), Cancel(now))]);
  }

  // ----- add and prune -----

  /** A submission that inserts creates one fresh slice under a number never used before. */
  ghost predicate AddedJob(db: Db, next: Db, sub: Submission, now: Time) {
    && db.nextJob !in db.jobs
    && next.jobs.Keys == db.jobs.Keys + {db.nextJob}
    && Tidy(next)
    && next.nextJob == db.nextJob + 1 && next.nextAttempt == db.nextAttempt && db.nextEvent <= next.nextEvent
    && CellOf(next, db.nextJob) == FreshCell(sub, now)
    && forall i <- db.jobs :: CellOf(next, i) == CellOf(db, i)
  }

  lemma {:induction false} NoRowsOf(db: Db, j: nat, attempts: seq<Attempt>, events: seq<Event>)
    requires forall x <- attempts :: x.jobId != j
    requires forall e <- events :: e.jobId != j
    ensures AttemptsOf(attempts, j) == [] && LogOf(events, j) == []
    decreases |attempts| + |events|
  {
    if attempts != [] {
      NoRowsOf(db, j, Front(attempts), events);
    } else if events != [] {
      NoRowsOf(db, j, attempts, Front(events));
    }
  }

  lemma InsertAdds(db: Db, sub: Submission, now: Time)
    requires Tidy(db)
    ensures var db1 := db.(jobs := db.jobs[db.nextJob := NewRow(sub, now)], nextJob := db.nextJob + 1);
      AddedJob(db, AddEvent(db1, db.nextJob, Entry(now, Added, None, NoDetail)), sub, now)
  {
    var j, e := db.nextJob, Entry(now, Added, None, NoDetail);
    var db1 := db.(jobs := db.jobs[j := NewRow(sub, now)], nextJob := j + 1);
    NoRowsOf(db, j, db.attempts, db.events);
    assert db1.jobs.Keys == db.jobs.Keys + {j};
    hide LogOf, AttemptsOf, NewRow;
    assert Tidy(db1);
    AddEventLogs(db1, j, e);
    InsertedCell(db, db1, AddEvent(db1, j, e), sub, now);
  }

  lemma InsertedCell(db: Db, db1: Db, next: Db, sub: Submission, now: Time)
    requires var j, e := db.nextJob, Entry(now, Added, None, NoDetail);
      && Tidy(db) && Tidy(db1) && db1 == db.(jobs := db.jobs[j := NewRow(sub, now)], nextJob := j + 1)
      && next == AddEvent(db1, j, e) && TidyEvents(next.events, next.nextEvent, next.jobs.Keys)
      && AttemptsOf(db.attempts, j) == [] && LogOf(next.events, j) == [] + [e]
      && forall i: nat :: i != j ==> LogOf(next.events, i) == LogOf(db.events, i)
    ensures AddedJob(db, next, sub, now)
  {
    hide LogOf, AttemptsOf, TidyAttempts, TidyEvents, NewRow;
    assert next.jobs.Keys == db.jobs.Keys + {db.nextJob};
    assert CellOf(next, db.nextJob) == FreshCell(sub, now);
    assert Tidy(next);
  }

  lemma AddedKeepsInv(db: Db, next: Db, sub: Submission, now: Time)
    requires DbInv(db) && AddedJob(db, next, sub, now)
    ensures DbInv(next)
  {
    FreshCellInv(sub, now);
    hide CellInv, Tidy, FreshCell;
    forall i <- next.jobs
      ensures CellInv(CellOf(next, i))
    {
      assert i != db.nextJob ==> i in db.jobs;
    }
  }

  lemma AddAdds(db: Db, sub: Submission, now: Time)
    requires DbInv(db)
    ensures var r := AddJob(db, sub, now);
      if r.1.Inserted? then r.1.id == db.nextJob && AddedJob(db, r.0, sub, now) && DbInv(r.0) else r.0 == db
  {
    hide CellInv, Tidy, AddedJob, AddEvent;
    var r := AddJob(db, sub, now);
    if r.1.Inserted? {
      InsertAdds(db, sub, now);
      AddedKeepsInv(db, r.0, sub, now);
    }
  }

  /** From `db` to `next` some jobs vanished with all their rows; the others did not change at all. */
  ghost predicate Kept(db: Db, next: Db) {
    && next.jobs.Keys <= db.jobs.Keys
    && Tidy(next)
    && next.nextJob == db.nextJob && next.nextAttempt == db.nextAttempt && next.nextEvent == db.nextEvent
    && forall i <- next.jobs :: CellOf(next, i) == CellOf(db, i)
  }

  lemma DeleteKeeps(db: Db, gone: nat)
    requires DbInv(db) && gone in db.jobs
    ensures Kept(db, DeleteJob(db, gone)) && DbInv(DeleteJob(db, gone))
  {
    var next := DeleteJob(db, gone);
    hide CellInv;
    TidyAttemptsWithout(db.attempts, gone, db.nextAttempt, db.jobs.Keys);
    TidyEventsWithout(db.events, gone, db.nextEvent, db.jobs.Keys);
    hide CellInv, AttemptsOf, LogOf, AttemptsWithout, EventsWithout, TidyAttempts, TidyEvents;
    assert next.jobs.Keys == db.jobs.Keys - {gone};
    forall i <- next.jobs
      ensures CellOf(next, i) == CellOf(db, i) && CellInv(CellOf(next, i))
    {
      assert i in db.jobs && i != gone;
      AttemptsOfWithout(db.attempts, gone, i);
      LogOfWithout(db.events, gone, i);
    }
  }

  /** Prune deletes exactly the listed jobs that are in one of the states and finished before the cutoff, and touches
      nothing else. */
  lemma {:induction false} PruneKeeps(db: Db, ids: seq<nat>, states: set<JobState>, cutoff: Time)
    requires DbInv(db)
    ensures var next := PruneDelete(db, ids, states, cutoff);
      && Kept(db, next) && DbInv(next)
      && forall i <- db.jobs :: (i !in next.jobs <==>
            && i in ids && db.jobs[i].state in states
            && db.jobs[i].finishedAt.Some? && db.jobs[i].finishedAt.value < cutoff)
  {
    hide CellInv, AttemptsOf, LogOf, Tidy, AttemptsWithout, EventsWithout;
    if ids != [] {
      var mid := PruneDelete(db, Front(ids), states, cutoff);
      PruneKeeps(db, Front(ids), states, cutoff);
      assert forall i <- mid.jobs :: CellOf(mid, i).job == CellOf(db, i).job;
      assert forall i :: i in ids <==> i in Front(ids) || i == Last(ids);
      if Prunable(mid, Last(ids), states, cutoff) {
        DeleteKeeps(mid, Last(ids));
      }
    }
  }
}
