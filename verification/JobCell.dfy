/** One job's slice of the database: its row, its attempts and its event trail. Transactions act on one slice; this
    module keeps the per-job invariant through every act. */
module JobCell {
  import opened Models
  import opened Tables
  import opened Transactions
  import opened Ledger

  datatype Cell = Cell(job: Job, attempts: seq<Attempt>, log: seq<Entry>)

  function CellOf(db: Db, j: nat): Cell
    requires j in db.jobs
  {
    Cell(db.jobs[j], AttemptsOf(db.attempts, j), LogOf(db.events, j))
  }

  // ----- acts -----

  datatype Act =
    | Claim(row: Attempt)
    | Beat(at: Time)
    | Succeed(wid: string, at: Time)
    | Fail(wid: string, kind: AttemptState, exitCode: Option<int>, error: string, reason: Reason, at: Time)
    | Crash(reaper: string, pid: Pid, at: Time)
    | Retry(force: bool, at: Time)
    | Cancel(at: Time)

  /** The result kinds a worker reports: a non-zero exit, a failed spawn, a timeout. */
  predicate Honest(kind: AttemptState, exitCode: Option<int>, reason: Reason) {
    || (kind.AttFailed? && exitCode.Some? && exitCode.value != 0 && reason.ProcessExit?)
    || (kind.AttFailed? && exitCode.None? && reason.SpawnFailed?)
    || (kind.AttTimedOut? && exitCode.None? && reason.Timeout?)
  }

  predicate Fresh(row: Attempt) {
    row.state.AttRunning? && row.finishedAt.None? && row.exitCode.None? && row.error.None? && row.reason.None?
  }

  /** When an act applies, whatever the clocks that stamp it show. */
  predicate CanAct(c: Cell, a: Act) {
    var job := c.job;
    match a
    case Claim(row) =>
      job.state.Queued? && job.nextRunAt <= row.startedAt && row.no == |c.attempts| + 1 && Fresh(row)
    case Beat(at) => job.state.Running?
    case Succeed(wid, at) => job.state.Running? && job.lockedBy == Some(wid)
    case Fail(wid, kind, code, _, reason, at) =>
      job.state.Running? && job.lockedBy == Some(wid) && Honest(kind, code, reason)
    case Crash(_, _, _) => job.state.Running?
    case Retry(force, _) => if force then job.state.Running? else job.state.Dead? || job.state.Canceled?
    case Cancel(_) => job.state.Queued? || job.state.Running?
  }

  function CloseNewest(rows: seq<Attempt>, c: Closing): seq<Attempt> {
    if rows != [] && Last(rows).state.AttRunning? then Front(rows) + [Close(Last(rows), c)] else rows
  }

  /** The first entry an act writes. */
  function Written(c: Cell, a: Act): Entry
    requires !a.Beat?
  {
    match a
    case Claim(row) => Entry(row.startedAt, Claimed, Some(row.workerId), NoDetail)
    case Succeed(wid, at) => Entry(at, Succeeded, Some(wid), NoDetail)
    case Fail(wid, kind, _, error, _, at) =>
      Entry(at, if kind.AttFailed? then FailedEvent else TimedOutEvent, Some(wid), ErrorText(error))
    case Crash(reaper, pid, at) => Entry(at, Reaped, Some(reaper), DeadWorker(pid))
    case Retry(force, at) => Entry(at, Retried, None, if force then Forced else NoDetail)
    case Cancel(at) => Entry(at, CanceledEvent, None, if c.job.state.Running? then WasRunning else NoDetail)
  }

  function RowAfter(job: Job, a: Act): Job {
    match a
    case Claim(row) => ClaimedRow(job, row.workerId, row.pid, row.startedAt)
    case Beat(at) => job.(heartbeatAt := Some(at))
    case Succeed(_, at) => SucceededRow(job, at)
    case Fail(_, _, code, error, _, at) => FailedRow(job, code, error, at)
    case Crash(_, _, at) => ReapedRow(job, at)
    case Retry(_, at) => RetriedRow(job, at)
    case Cancel(at) => CanceledRow(job, at)
  }

  function AttemptsAfter(rows: seq<Attempt>, a: Act): seq<Attempt> {
    match a
    case Claim(row) => rows + [row]
    case Beat(_) => rows
    case Succeed(_, at) => CloseNewest(rows, ByExit(at))
    case Fail(_, kind, code, error, reason, at) => CloseNewest(rows, ByFailure(kind, at, code, error, reason))
    case Crash(_, _, at) => CloseNewest(rows, ByDisplacement(AttAbandoned, at, "worker died", WorkerCrash))
    case Retry(_, at) => CloseNewest(rows, ByDisplacement(AttAbandoned, at, "force-retried", ReasonCanceled))
    case Cancel(at) => CloseNewest(rows, ByDisplacement(AttCanceled, at, "canceled", ReasonCanceled))
  }

  predicate DeadLetters(c: Cell, a: Act) {
    (a.Fail? || a.Crash?) && RowAfter(c.job, a).state.Dead?
  }

  function Effect(c: Cell, a: Act): Cell {
    Cell(RowAfter(c.job, a), AttemptsAfter(c.attempts, a),
         if a.Beat? then c.log else c.log + Letters(Written(c, a), DeadLetters(c, a)))
  }

  function FreshCell(sub: Submission, now: Time): Cell {
    Cell(NewRow(sub, now), [], [Entry(now, Added, None, NoDetail)])
  }

  // ----- the invariant -----

  predicate Locked(job: Job) {
    job.lockedBy.Some? && job.lockedPid.Some? && job.lockedAt.Some? && job.heartbeatAt.Some?
  }

  predicate LockFree(job: Job) {
    job.lockedBy.None? && job.lockedPid.None? && job.lockedAt.None? && job.heartbeatAt.None?
  }

  /** Running iff locked iff exactly the newest attempt runs, under the same worker and pid. */
  ghost predicate Ownership(c: Cell) {
    var job, n := c.job, |c.attempts|;
    && !job.state.Failed?
    && (if job.state.Running? then Locked(job) else LockFree(job))
    && (forall k :: 0 <= k < n ==> c.attempts[k].no == k + 1)
    && (forall k :: 0 <= k < n ==> (c.attempts[k].state.AttRunning? <==> job.state.Running? && k == n - 1))
    && (forall k :: 0 <= k < n ==>
          if c.attempts[k].state.AttRunning? then Fresh(c.attempts[k]) else c.attempts[k].finishedAt.Some?)
    && (job.state.Running? ==>
          && n > 0
          && job.lockedBy == Some(Last(c.attempts).workerId)
          && job.lockedPid == Some(Last(c.attempts).pid)
          && job.startedAt == job.lockedAt == Some(Last(c.attempts).startedAt))
  }

  function Bounded(s: Spec): bool {
    s.maxCrashes.Some?
  }

  function MostClaims(s: Spec): nat
    requires Bounded(s)
  {
    s.maxRetries + s.maxCrashes.value + 1
  }

  /** The row's counters are the round's counts, and both budgets hold. */
  predicate Counts(job: Job, t: Tally) {
    var s := job.spec;
    && job.crashes <= job.attempts
    && (!job.state.Dead? ==>
          && job.attempts - job.crashes <= s.maxRetries
          && (Bounded(s) ==> job.crashes <= s.maxCrashes.value))
    && (job.state.Dead? ==>
          || (job.attempts - job.crashes == s.maxRetries + 1 && (Bounded(s) ==> job.crashes <= s.maxCrashes.value))
          || (Bounded(s) && job.crashes == s.maxCrashes.value + 1 && job.attempts - job.crashes <= s.maxRetries))
    && t.misses == job.attempts
    && t.crashes == job.crashes
    && t.misses <= t.claims <= t.misses + 1
    && (job.state.Queued? || job.state.Dead? ==> t.claims == t.misses)
    && (job.state.Running? || job.state.Done? ==> t.claims == t.misses + 1)
  }

  /** Every budget round, past or present, stays within the two budgets. */
  ghost predicate Accounting(c: Cell) {
    Counts(c.job, Round(c.log)) && (Bounded(c.job.spec) ==> RoundsWithin(c.log, MostClaims(c.job.spec)))
  }

  /** The next run is scheduled at the delay after the newest miss. */
  predicate Delays(job: Job, t: Tally) {
    && (t.claims > 0 <==> t.firstClaim.Some?)
    && (t.misses > 0 <==> t.lastMiss.Some?)
    && (job.state.Queued? && t.misses > 0 ==> job.nextRunAt == t.lastMiss.value + BackoffSeconds(t.misses))
  }

  /** Delays are waited out, one by one in the whole trail. */
  ghost predicate Pacing(c: Cell) {
    Delays(c.job, Round(c.log)) && Spaced(c.log)
  }

  /** A queued row without attempts on its budget is either brand new or was just retried. */
  ghost predicate Provenance(c: Cell) {
    && c.log != []
    && (c.job.state.Queued? && c.job.attempts == 0 ==>
          || (c.attempts == [] && |c.log| == 1 && c.log[0].kind.Added?)
          || (Last(c.log).kind.Retried? && Last(c.log).at == c.job.nextRunAt))
  }

  function OutcomeOf(a: Attempt): Outcome {
    Outcome(a.workerId, a.startedAt, a.state, a.finishedAt, a.error)
  }

  /** The picture shows the row and all its attempts. */
  ghost predicate Shows(p: Picture, c: Cell) {
    && p.state == c.job.state
    && p.attempts == c.job.attempts
    && p.crashes == c.job.crashes
    && p.owner == c.job.lockedBy
    && p.startedAt == c.job.startedAt
    && p.finishedAt == c.job.finishedAt
    && p.lastError == c.job.lastError
    && (p.nextRunAt.Some? ==> p.nextRunAt.value == c.job.nextRunAt)
    && |p.outcomes| == |c.attempts|
    && forall k :: 0 <= k < |c.attempts| ==> p.outcomes[k] == OutcomeOf(c.attempts[k])
  }

  /** Replaying the trail is legal and reproduces the row and the attempts. */
  ghost predicate Sourced(c: Cell) {
    var r := Replay(c.log);
    r.Live? && Shows(r.p, c)
  }

  /** After a non-success the newest attempt, its exit code and its reason match the row. */
  ghost predicate OneStory(c: Cell) {
    && (c.job.state.Dead? || (c.job.state.Queued? && c.job.attempts > 0) ==>
          && c.attempts != []
          && Last(c.attempts).exitCode == c.job.lastExitCode
          && Last(c.attempts).error == c.job.lastError
          && Last(c.attempts).reason.Some?
          && !Last(c.attempts).state.AttSucceeded?
          && (Last(c.attempts).reason.value.ProcessExit? <==> Last(c.attempts).exitCode.Some?))
    && (c.job.state.Done? ==>
          && c.attempts != []
          && Last(c.attempts).state.AttSucceeded?
          && Last(c.attempts).exitCode == c.job.lastExitCode == Some(0))
  }

  /** A finished attempt tells how it ended: a success exited with 0 and has no reason; every other one has a
      reason, which is a process exit exactly when there is an exit code, and that code is not 0. */
  predicate Told(a: Attempt) {
    match a.state
    case AttRunning => true
    case AttSucceeded => a.exitCode == Some(0) && a.reason.None?
    case _ =>
      a.reason.Some? && (a.reason.value.ProcessExit? <==> a.exitCode.Some?) && a.exitCode != Some(0)
  }

  /** Every attempt tells how it ended, and only the newest attempt of a done job succeeded. */
  ghost predicate AllTold(c: Cell) {
    forall k :: 0 <= k < |c.attempts| ==>
      && Told(c.attempts[k])
      && (c.attempts[k].state.AttSucceeded? ==> c.job.state.Done? && k == |c.attempts| - 1)
  }

  ghost predicate CellInv(c: Cell) {
    Ownership(c) && Accounting(c) && Pacing(c) && Provenance(c) && Sourced(c) && OneStory(c) && AllTold(c)
  }

  // ----- the invariant is kept -----

  lemma FreshCellInv(sub: Submission, now: Time)
    ensures CellInv(FreshCell(sub, now))
  {
    var c := FreshCell(sub, now);
    assert c.log == [] + [c.log[0]];
    AppendedOne([], c.log[0]);
  }

  /** Rows numbered from 1, all of them finished. */
  ghost predicate Shut(rows: seq<Attempt>) {
    forall k :: 0 <= k < |rows| ==> rows[k].no == k + 1 && !rows[k].state.AttRunning? && rows[k].finishedAt.Some?
  }

  predicate Closes(cl: Closing) {
    (cl.ByFailure? ==> !cl.kind.AttRunning?) && (cl.ByDisplacement? ==> !cl.state.AttRunning?)
  }

  lemma CloseShuts(c: Cell, cl: Closing)
    requires Ownership(c) && Closes(cl)
    ensures Shut(CloseNewest(c.attempts, cl))
  {
  }

  /** A job that has just stopped running, or did not run, is in order once its rows are finished. */
  lemma ShutIsOwned(c: Cell)
    requires Shut(c.attempts) && LockFree(c.job) && !c.job.state.Running? && !c.job.state.Failed?
    ensures Ownership(c)
  {
  }

  lemma ClaimOwned(c: Cell, row: Attempt)
    requires Ownership(c) && CanAct(c, Claim(row))
    ensures Ownership(Effect(c, Claim(row)))
  {
    hide Written, DeadLetters;
  }

  lemma EndOwned(c: Cell, a: Act)
    requires Ownership(c) && CanAct(c, a) && !a.Claim? && !a.Beat?
    ensures Ownership(Effect(c, a))
  {
    hide Written, DeadLetters, BackoffSeconds, Ownership, CloseNewest, Shut;
    forall cl | Closes(cl)
      ensures Shut(CloseNewest(c.attempts, cl))
    {
      CloseShuts(c, cl);
    }
    LockFreeUnlessRunning(c);
    ShutIsOwned(Effect(c, a));
  }

  lemma KeepsOwnership(c: Cell, a: Act)
    requires Ownership(c) && CanAct(c, a)
    ensures Ownership(Effect(c, a))
  {
    if a.Claim? {
      hide Ownership, Effect, CanAct;
      ClaimOwned(c, a.row);
    } else if !a.Beat? {
      hide Ownership, Effect, CanAct;
      EndOwned(c, a);
    }
  }

  lemma LockFreeUnlessRunning(c: Cell)
    requires Ownership(c)
    ensures !c.job.state.Running? ==> LockFree(c.job)
  {
  }

  lemma KeepsCounts(c: Cell, a: Act, t: Tally)
    requires CanAct(c, a) && !a.Beat? && Counts(c.job, t)
    ensures Counts(RowAfter(c.job, a), Count(t, Written(c, a)))
  {
  }

  lemma KeepsAccounting(c: Cell, a: Act)
    requires Accounting(c) && CanAct(c, a)
    ensures Accounting(Effect(c, a))
  {
    if !a.Beat? {
      var e, dead := Written(c, a), DeadLetters(c, a);
      KeepsCounts(c, a, Round(c.log));
      AppendedLetters(c.log, e, dead);
      GrowsByLetters(c.log, e, dead, if Bounded(c.job.spec) then MostClaims(c.job.spec) else 0);
    }
  }

  lemma KeepsDelays(c: Cell, a: Act, t: Tally)
    requires Ownership(c) && CanAct(c, a) && !a.Beat? && Counts(c.job, t) && Delays(c.job, t)
    ensures Delays(RowAfter(c.job, a), Count(t, Written(c, a)))
    ensures a.Claim? ==> WaitedOut(t, a.row.startedAt)
  {
    hide Locked, LockFree, Pow2, Fresh;
    if t.misses > 0 {
      BackoffClosedForm(t.misses);
    }
  }

  lemma KeepsPacing(c: Cell, a: Act)
    requires Ownership(c) && Accounting(c) && Pacing(c) && CanAct(c, a)
    ensures Pacing(Effect(c, a))
  {
    if !a.Beat? {
      var e, dead := Written(c, a), DeadLetters(c, a);
      KeepsDelays(c, a, Round(c.log));
      AppendedLetters(c.log, e, dead);
      GrowsByLetters(c.log, e, dead, 0);
    }
  }

  lemma KeepsProvenance(c: Cell, a: Act)
    requires Ownership(c) && Provenance(c) && CanAct(c, a)
    ensures Provenance(Effect(c, a))
  {
  }

  /** Sealing the newest outcome mirrors closing the newest attempt. */
  lemma SealShows(p: Picture, c: Cell, cl: Closing)
    requires Ownership(c) && c.job.state.Running? && Shows(p, c)
    ensures var rows := CloseNewest(c.attempts, cl); var o := OutcomeOf(Close(Last(c.attempts), cl));
      && |rows| == |c.attempts|
      && Seal(p.outcomes, o.state, cl.at, o.error) == seq(|rows|, k requires 0 <= k < |rows| => OutcomeOf(rows[k]))
  {
  }

  /** The picture after an act's entries. */
  function PictureAfter(p: Picture, c: Cell, a: Act): Replayed
    requires !a.Beat?
  {
    var e := Written(c, a);
    var r := Resume(Live(p), e);
    if DeadLetters(c, a) then Resume(r, Entry(e.at, DeadLettered, e.workerId, NoDetail)) else r
  }

  /** A non-success is pictured right, whether it is retried or spends the budget. */
  lemma MissShows(p: Picture, c: Cell, a: Act)
    requires Ownership(c) && Shows(p, c) && CanAct(c, a) && (a.Fail? || a.Crash?)
    ensures var r := PictureAfter(p, c, a); r.Live? && Shows(r.p, Effect(c, a))
  {
    hide Ownership, Shows, CanAct, Effect, PictureAfter;
    if a.Fail? {
      FailShows(p, c, a);
    } else {
      CrashShows(p, c, a);
    }
  }

  lemma FailShows(p: Picture, c: Cell, a: Act)
    requires Ownership(c) && Shows(p, c) && CanAct(c, a) && a.Fail?
    ensures var r := PictureAfter(p, c, a); r.Live? && Shows(r.p, Effect(c, a))
  {
    SealShows(p, c, ByFailure(a.kind, a.at, a.exitCode, a.error, a.reason));
    hide Seal, CloseNewest, Letters;
  }

  lemma CrashShows(p: Picture, c: Cell, a: Act)
    requires Ownership(c) && Shows(p, c) && CanAct(c, a) && a.Crash?
    ensures var r := PictureAfter(p, c, a); r.Live? && Shows(r.p, Effect(c, a))
  {
    SealShows(p, c, ByDisplacement(AttAbandoned, a.at, "worker died", WorkerCrash));
    hide Seal, CloseNewest, Letters;
  }

  lemma OtherShows(p: Picture, c: Cell, a: Act)
    requires Ownership(c) && Shows(p, c) && CanAct(c, a) && !a.Beat? && !a.Fail? && !a.Crash?
    ensures var r := PictureAfter(p, c, a); r.Live? && Shows(r.p, Effect(c, a))
  {
    if c.job.state.Running? {
      if a.Succeed? {
        SealShows(p, c, ByExit(a.at));
      } else if a.Retry? {
        SealShows(p, c, ByDisplacement(AttAbandoned, a.at, "force-retried", ReasonCanceled));
      } else {
        SealShows(p, c, ByDisplacement(AttCanceled, a.at, "canceled", ReasonCanceled));
      }
    }
  }

  lemma KeepsSourced(c: Cell, a: Act)
    requires Ownership(c) && Sourced(c) && CanAct(c, a)
    ensures Sourced(Effect(c, a))
  {
    if !a.Beat? {
      AppendedLetters(c.log, Written(c, a), DeadLetters(c, a));
      if a.Fail? || a.Crash? {
        MissShows(Replay(c.log).p, c, a);
      } else {
        OtherShows(Replay(c.log).p, c, a);
      }
    }
  }

  lemma KeepsStory(c: Cell, a: Act)
    requires Ownership(c) && OneStory(c) && CanAct(c, a)
    ensures OneStory(Effect(c, a))
  {
  }

  lemma KeepsTold(c: Cell, a: Act)
    requires Ownership(c) && AllTold(c) && CanAct(c, a)
    ensures AllTold(Effect(c, a))
  {
    var rows := Effect(c, a).attempts;
    if c.attempts != [] && |rows| == |c.attempts| && Last(c.attempts).state.AttRunning? && !a.Beat? {
      assert Fresh(Last(c.attempts));
      assert Front(rows) == Front(c.attempts);
    }
    assert c.job.state.Queued? || a.Retry? ==> forall k :: 0 <= k < |c.attempts| ==> !c.attempts[k].state.AttSucceeded?;
  }

  lemma CellInvKept(c: Cell, a: Act)
    requires CellInv(c) && CanAct(c, a)
    ensures CellInv(Effect(c, a))
  {
    KeepsOwnership(c, a);
    KeepsAccounting(c, a);
    KeepsPacing(c, a);
    KeepsProvenance(c, a);
    KeepsSourced(c, a);
    KeepsStory(c, a);
    KeepsTold(c, a);
  }
}
