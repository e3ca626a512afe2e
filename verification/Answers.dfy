/** What each transaction answers and writes, said on the columns of the rows before and after, for every database. */
module Answers {
  import opened Models
  import opened Tables
  import opened Transactions
  import opened Submissions

  /** The columns that no transaction rewrites once a job is inserted. */
  predicate SameOrder(was: Job, now: Job) {
    && now.spec == was.spec && now.key == was.key && now.tags == was.tags && now.note == was.note
    && now.createdAt == was.createdAt
  }

  predicate NoLock(job: Job) {
    job.lockedBy.None? && job.lockedPid.None? && job.lockedAt.None? && job.heartbeatAt.None?
  }

  /** Only the row of `j` was rewritten. */
  ghost predicate OnlyRow(db: Db, next: Db, j: nat) {
    && next.jobs.Keys == db.jobs.Keys && next.nextJob == db.nextJob
    && forall i <- db.jobs :: i != j ==> next.jobs[i] == db.jobs[i]
  }

  /** The ledger grew by these entries of job `j`, under the next ids. */
  ghost predicate Logged(db: Db, next: Db, j: nat, es: seq<Entry>) {
    && next.nextEvent == db.nextEvent + |es|
    && |next.events| == |db.events| + |es| && next.events[..|db.events|] == db.events
    && forall k :: 0 <= k < |es| ==> next.events[|db.events| + k] == Event(db.nextEvent + k, j, es[k])
  }

  /** The attempt, if it was running, ended like this; all others, and every other column, are as before. */
  ghost predicate Ended(db: Db, next: Db, att: nat, state: AttemptState, at: Time, code: Option<int>,
                        error: Option<string>, reason: Option<Reason>) {
    && next.nextAttempt == db.nextAttempt && |next.attempts| == |db.attempts|
    && forall k :: 0 <= k < |db.attempts| ==>
         var a, b := db.attempts[k], next.attempts[k];
         if !a.state.AttRunning? || a.id != att then b == a
         else
           && b.state == state && b.finishedAt == Some(at) && b.exitCode == code && b.error == error
           && b.reason == reason
           && b.id == a.id && b.jobId == a.jobId && b.no == a.no && b.workerId == a.workerId && b.pid == a.pid
           && b.startedAt == a.startedAt && b.stdoutPath == a.stdoutPath && b.stderrPath == a.stderrPath
  }

  // ----- add -----

  /** Somebody active holds the submission's key. */
  ghost predicate KeyTaken(db: Db, sub: Submission) {
    sub.key.Some? && exists j: nat ::
      && j < db.nextJob && j in db.jobs && db.jobs[j].key == sub.key
      && (db.jobs[j].state.Queued? || db.jobs[j].state.Running?)
  }

  /** An insertion happens exactly if nobody active holds the key. The new row is the next one; it holds what was
      submitted, starts at the submitted time or, without one, at once, and has no history. */
  lemma AddAnswers(db: Db, sub: Submission, now: Time)
    ensures var (next, r) := AddJob(db, sub, now);
      && (r.Inserted? <==> !KeyTaken(db, sub))
      && (!r.Inserted? ==> next == db)
      && (r.Inserted? ==>
            && r.id == db.nextJob && r.id in next.jobs && next.nextJob == db.nextJob + 1
            && next.jobs.Keys == db.jobs.Keys + {r.id}
            && (forall i <- db.jobs :: i != r.id ==> next.jobs[i] == db.jobs[i])
            && next.attempts == db.attempts && next.nextAttempt == db.nextAttempt
            && Logged(db, next, r.id, [Entry(now, Added, None, NoDetail)])
            && Blank(next.jobs[r.id])
            && next.jobs[r.id].spec == sub.spec && next.jobs[r.id].key == sub.key
            && next.jobs[r.id].tags == sub.tags && next.jobs[r.id].note == sub.note
            && next.jobs[r.id].createdAt == now
            && next.jobs[r.id].nextRunAt == match sub.nextRunAt { case Some(at) => at case None => now })
  {
    if KeyTaken(db, sub) {
      var j: nat :| j < db.nextJob && j in db.jobs && db.jobs[j].key == sub.key
                    && (db.jobs[j].state.Queued? || db.jobs[j].state.Running?);
      assert HoldsKey(db, j, sub.key.value);
    }
  }

  /** A row without a history. */
  predicate Blank(job: Job) {
    && job.state.Queued? && job.attempts == 0 && job.crashes == 0 && NoLock(job)
    && job.startedAt.None? && job.finishedAt.None? && job.lastExitCode.None? && job.lastError.None?
  }

  /** A keyed add that is not inserted answers with the row it compares to. It is a conflict over exactly the
      execution fields that differ; and a duplicate reports exactly the metadata that differ, the existing value
      first. A start time that equals the time of the submission counts as none. */
  lemma AddCompares(db: Db, sub: Submission, now: Time)
    requires !AddJob(db, sub, now).1.Inserted?
    ensures var r := AddJob(db, sub, now).1;
      && r.id in db.jobs && r.state == db.jobs[r.id].state
      && (r.Conflict? ==> r.fields != {} && NamesDifferences(r.fields, db.jobs[r.id].spec, sub.spec))
      && (r.Duplicate? ==>
            && db.jobs[r.id].spec == sub.spec
            && ReportsMetadata(db.jobs[r.id], sub, now, r.metadata))
  {
    hide PayloadDiff, ExecutionPayload, MetadataPayload, ScheduleOfRow, ScheduleSubmitted;
    var r := AddJob(db, sub, now).1;
    ExecutionFields(db.jobs[r.id].spec, sub.spec);
    NoDifferenceMeansSame(db.jobs[r.id].spec, sub.spec);
    MetadataFields(db.jobs[r.id], sub, now);
  }

  /** The names of exactly those execution fields on which two submissions differ. */
  ghost predicate NamesDifferences(f: set<string>, a: Spec, b: Spec) {
    && f <= {"argv", "timeout_seconds", "max_retries", "priority", "queue", "cwd", "env", "max_crashes"}
    && ("argv" in f <==> a.argv != b.argv) && ("timeout_seconds" in f <==> a.timeoutSeconds != b.timeoutSeconds)
    && ("max_retries" in f <==> a.maxRetries != b.maxRetries) && ("priority" in f <==> a.priority != b.priority)
    && ("queue" in f <==> a.queue != b.queue) && ("cwd" in f <==> a.cwd != b.cwd)
    && ("env" in f <==> a.env != b.env) && ("max_crashes" in f <==> a.maxCrashes != b.maxCrashes)
  }

  ghost predicate ReportsMetadata(job: Job, sub: Submission, now: Time, m: map<string, (Value, Value)>) {
    var mine := if job.nextRunAt == job.createdAt then Null else Number(job.nextRunAt);
    var theirs := if sub.nextRunAt == None || sub.nextRunAt == Some(now) then Null else Number(sub.nextRunAt.value);
    && m.Keys <= {"tags", "note", "next_run_at"}
    && (if job.tags == sub.tags then "tags" !in m else "tags" in m && m["tags"] == (Dict(job.tags), Dict(sub.tags)))
    && (if job.note == sub.note then "note" !in m
        else "note" in m && m["note"] == (if job.note.None? then Null else Text(job.note.value),
                                          if sub.note.None? then Null else Text(sub.note.value)))
    && (if mine == theirs then "next_run_at" !in m else "next_run_at" in m && m["next_run_at"] == (mine, theirs))
  }

  /** Payloads with the same keys differ on the keys whose values differ, and the existing value comes first. */
  lemma DiffOf(x: map<string, Value>, y: map<string, Value>)
    requires x.Keys == y.Keys
    ensures forall k :: k in PayloadDiff(x, y) <==> k in x && x[k] != y[k]
    ensures forall k <- PayloadDiff(x, y) :: k in x && PayloadDiff(x, y)[k] == (x[k], y[k])
  {
    assert forall k :: k in x <==> k in x.Keys;
    assert forall k :: k in y <==> k in y.Keys;
  }

  lemma ExecutionFields(a: Spec, b: Spec)
    ensures NamesDifferences(PayloadDiff(ExecutionPayload(a), ExecutionPayload(b)).Keys, a, b)
  {
    Fields(a);
    Fields(b);
    var x, y := ExecutionPayload(a), ExecutionPayload(b);
    hide ExecutionPayload, PayloadDiff;
    DiffOf(x, y);
    OptionsDiffer(a.cwd, b.cwd, a.maxCrashes, b.maxCrashes);
  }

  lemma OptionsDiffer(a: Option<string>, b: Option<string>, c: Option<nat>, d: Option<nat>)
    ensures TextOrNull(a) == TextOrNull(b) <==> a == b
    ensures NumberOrNull(c) == NumberOrNull(d) <==> c == d
  {
  }

  lemma MetadataFields(job: Job, sub: Submission, now: Time)
    ensures ReportsMetadata(job, sub, now,
                            PayloadDiff(MetadataPayload(job.tags, job.note, ScheduleOfRow(job)),
                                        MetadataPayload(sub.tags, sub.note, ScheduleSubmitted(now, sub.nextRunAt))))
  {
    var x := MetadataPayload(job.tags, job.note, ScheduleOfRow(job));
    var y := MetadataPayload(sub.tags, sub.note, ScheduleSubmitted(now, sub.nextRunAt));
    Metadata(job.tags, job.note, ScheduleOfRow(job));
    Metadata(sub.tags, sub.note, ScheduleSubmitted(now, sub.nextRunAt));
    OptionsDiffer(job.note, sub.note, None, None);
    hide PayloadDiff, MetadataPayload;
    DiffOf(x, y);
  }

  lemma Metadata(tags: map<string, string>, note: Option<string>, schedule: Option<Time>)
    ensures var x := MetadataPayload(tags, note, schedule);
      && x.Keys == {"tags", "note", "next_run_at"}
      && x["tags"] == Dict(tags) && x["note"] == TextOrNull(note) && x["next_run_at"] == NumberOrNull(schedule)
  {
  }

  // ----- claim -----

  /** A claim writes the row it answers with, one attempt under the next id, and one event; or nothing. */
  lemma ClaimWrites(db: Db, wid: string, pid: Pid, now: Time, root: string, lane: string, slots: Option<int>)
    ensures var (next, r) := ClaimNext(db, wid, pid, now, root, lane, slots);
      && (r.None? ==> next == db)
      && (r.Some? ==>
            && r.value in db.jobs && OnlyRow(db, next, r.value)
            && SameOrder(db.jobs[r.value], next.jobs[r.value])
            && Held(next.jobs[r.value], wid, pid, now) && Carried(db.jobs[r.value], next.jobs[r.value])
            && next.nextAttempt == db.nextAttempt + 1
            && |next.attempts| == |db.attempts| + 1 && next.attempts[..|db.attempts|] == db.attempts
            && Opened(next.attempts[|db.attempts|], db.nextAttempt, r.value, wid, pid, now)
            && Logged(db, next, r.value, [Entry(now, Claimed, Some(wid), NoDetail)]))
  {
    hide Pick, MaxAttemptNo, AttemptsOf, AttemptDir;
  }

  /** Running since `now` for this worker, and beaten then. */
  predicate Held(job: Job, wid: string, pid: Pid, now: Time) {
    && job.state.Running? && job.lockedBy == Some(wid) && job.lockedPid == Some(pid)
    && job.lockedAt == job.heartbeatAt == job.startedAt == Some(now)
  }

  /** Counters, schedule and the outcome of the attempt before stay as they are until this attempt ends. */
  predicate Carried(was: Job, now: Job) {
    && now.attempts == was.attempts && now.crashes == was.crashes && now.nextRunAt == was.nextRunAt
    && now.finishedAt == was.finishedAt && now.lastExitCode == was.lastExitCode && now.lastError == was.lastError
  }

  predicate Opened(a: Attempt, id: nat, j: nat, wid: string, pid: Pid, now: Time) {
    && a.id == id && a.jobId == j && a.workerId == wid && a.pid == pid && a.state.AttRunning? && a.startedAt == now
    && a.finishedAt.None? && a.exitCode.None? && a.error.None? && a.reason.None?
  }

  // ----- record and heartbeat -----

  /** The row is running for this worker. */
  predicate Guarded(db: Db, j: nat, wid: string, pid: Pid) {
    j in db.jobs && db.jobs[j].state == Running && db.jobs[j].lockedBy == Some(wid) && db.jobs[j].lockedPid == Some(pid)
  }

  lemma SuccessAnswers(db: Db, j: nat, att: nat, wid: string, pid: Pid, now: Time)
    ensures var (next, r) := RecordSuccess(db, j, att, wid, pid, now);
      && (r.None? <==> !Guarded(db, j, wid, pid))
      && (r.None? ==> next == db)
      && (r.Some? ==>
            && OnlyRow(db, next, j) && SameOrder(db.jobs[j], next.jobs[j]) && NoLock(next.jobs[j])
            && r.value == next.jobs[j].state == Done
            && next.jobs[j].finishedAt == Some(now) && next.jobs[j].lastExitCode == Some(0)
            && next.jobs[j].lastError.None?
            && next.jobs[j].startedAt == db.jobs[j].startedAt && next.jobs[j].nextRunAt == db.jobs[j].nextRunAt
            && next.jobs[j].attempts == db.jobs[j].attempts && next.jobs[j].crashes == db.jobs[j].crashes
            && Logged(db, next, j, [Entry(now, Succeeded, Some(wid), NoDetail)]))
  {
  }

  /** What a recorded success does to the attempts: it ends the one it names, and keeps error and reason. */
  lemma SuccessEnds(db: Db, j: nat, att: nat, wid: string, pid: Pid, now: Time)
    requires Guarded(db, j, wid, pid)
    ensures var next := RecordSuccess(db, j, att, wid, pid, now).0;
      && next.nextAttempt == db.nextAttempt && |next.attempts| == |db.attempts|
      && forall k :: 0 <= k < |db.attempts| ==>
           var a, b := db.attempts[k], next.attempts[k];
           if !a.state.AttRunning? || a.id != att then b == a
           else
             && b.state == AttSucceeded && b.finishedAt == Some(now) && b.exitCode == Some(0)
             && b.error == a.error && b.reason == a.reason
             && b.id == a.id && b.jobId == a.jobId && b.no == a.no && b.workerId == a.workerId && b.pid == a.pid
             && b.startedAt == a.startedAt && b.stdoutPath == a.stdoutPath && b.stderrPath == a.stderrPath
  {
  }

  /** The reason, given or supplied, fits the kind: a timeout is a timeout, an exit code is a process exit, and a
      failure without one is a failed spawn or unknown. */
  predicate Fits(kind: AttemptState, code: Option<int>, given: Option<Reason>) {
    || (kind == AttTimedOut && (given == None || given == Some(Timeout)))
    || (kind == AttFailed && code.Some? && (given == None || given == Some(ProcessExit)))
    || (kind == AttFailed && code.None?
    && (given == None || given == Some(SpawnFailed) || given == Some(ReasonUnknown)))
  }

  /** The reason that is recorded. */
  function Supplied(kind: AttemptState, code: Option<int>, given: Option<Reason>): Reason {
    match given
    case Some(reason) => reason
    case None => if kind == AttTimedOut then Timeout else if code.Some? then ProcessExit else ReasonUnknown
  }

  /** The answer to a failure report. It is rejected exactly if the reason does not fit, discarded exactly if it fits
      and the process does not own the row, and otherwise recorded with the state that the row has afterwards: dead
      exactly if the failures that were not crashes, this one included, exceed the retry budget. */
  lemma FailureAnswers(db: Db, j: nat, att: nat, wid: string, pid: Pid, kind: AttemptState, code: Option<int>,
                       error: string, now: Time, given: Option<Reason>)
    ensures var (next, r) := RecordFailure(db, j, att, wid, pid, kind, code, error, now, given);
      && (r.Rejected? <==> !Fits(kind, code, given))
      && (r.Discarded? <==> Fits(kind, code, given) && !Guarded(db, j, wid, pid))
      && (!r.Recorded? ==> next == db)
      && (r.Recorded? ==>
            && OnlyRow(db, next, j) && r.state == next.jobs[j].state
            && (next.jobs[j].state == Dead <==>
                  db.jobs[j].attempts + 1 - db.jobs[j].crashes > db.jobs[j].spec.maxRetries)
            && (next.jobs[j].state == Dead || next.jobs[j].state == Queued)
            && next.jobs[j].crashes == db.jobs[j].crashes
            && Missed(db.jobs[j], next.jobs[j], now, code, error))
  {
    FailureGuards(db, j, att, wid, pid, kind, code, error, now, given);
    if RecordFailure(db, j, att, wid, pid, kind, code, error, now, given).1.Recorded? {
      FailureRow(db, j, att, wid, pid, kind, code, error, now, given);
    }
    hide RecordFailure, OnlyRow, Missed;
  }

  lemma FailureGuards(db: Db, j: nat, att: nat, wid: string, pid: Pid, kind: AttemptState, code: Option<int>,
                      error: string, now: Time, given: Option<Reason>)
    ensures var (next, r) := RecordFailure(db, j, att, wid, pid, kind, code, error, now, given);
      && (r.Rejected? <==> !Fits(kind, code, given))
      && (r.Discarded? <==> Fits(kind, code, given) && !Guarded(db, j, wid, pid))
      && (!r.Recorded? ==> next == db)
  {
    hide FailedRow, CloseWhere, AddClosing;
  }

  lemma FailureRow(db: Db, j: nat, att: nat, wid: string, pid: Pid, kind: AttemptState, code: Option<int>,
                   error: string, now: Time, given: Option<Reason>)
    requires RecordFailure(db, j, att, wid, pid, kind, code, error, now, given).1.Recorded?
    ensures var (next, r) := RecordFailure(db, j, att, wid, pid, kind, code, error, now, given);
      && j in db.jobs && OnlyRow(db, next, j) && r.state == next.jobs[j].state
      && (next.jobs[j].state == Dead <==> db.jobs[j].attempts + 1 - db.jobs[j].crashes > db.jobs[j].spec.maxRetries)
      && (next.jobs[j].state == Dead || next.jobs[j].state == Queued)
      && next.jobs[j].crashes == db.jobs[j].crashes
      && Missed(db.jobs[j], next.jobs[j], now, code, error)
  {
    hide CloseWhere, DefaultReason, ValidFailure;
    BackoffClosedForm(db.jobs[j].attempts + 1);
    hide Pow2, BackoffSeconds;
  }

  /** What a recorded failure does to the attempts, and what it logs. */
  lemma FailureEnds(db: Db, j: nat, att: nat, wid: string, pid: Pid, kind: AttemptState, code: Option<int>,
                    error: string, now: Time, given: Option<Reason>)
    requires RecordFailure(db, j, att, wid, pid, kind, code, error, now, given).1.Recorded?
    ensures var next := RecordFailure(db, j, att, wid, pid, kind, code, error, now, given).0;
      && Ended(db, next, att, kind, now, code, Some(error), Some(Supplied(kind, code, given)))
      && j in next.jobs
      && Logged(db, next, j, ClosingEntries(now, if kind == AttFailed then FailedEvent else TimedOutEvent, wid,
                                            ErrorText(error), next.jobs[j].state == Dead))
  {
    hide BackoffSeconds;
  }

  /** A non-success: it counts, the lock is gone, and the job waits out its delay or is dead. */
  predicate Missed(was: Job, now: Job, at: Time, code: Option<int>, error: string) {
    && SameOrder(was, now) && NoLock(now) && now.attempts == was.attempts + 1 && now.startedAt == was.startedAt
    && now.finishedAt == Some(at) && now.lastExitCode == code && now.lastError == Some(error)
    && now.nextRunAt == if now.state == Queued then at + Min(60, Pow2(now.attempts)) else at
  }

  function ClosingEntries(at: Time, kind: EventKind, who: string, detail: Detail, dead: bool): seq<Entry> {
    [Entry(at, kind, Some(who), detail)] + if dead then [Entry(at, DeadLettered, Some(who), NoDetail)] else []
  }

  /** A beat matches one row or none; it rewrites its heartbeat and nothing else anywhere. */
  lemma HeartbeatAnswers(db: Db, j: nat, wid: string, pid: Pid, now: Time)
    ensures var (next, n) := UpdateHeartbeat(db, j, wid, pid, now);
      && n == (if Guarded(db, j, wid, pid) then 1 else 0)
      && (n == 0 ==> next == db)
      && (n == 1 ==>
            && OnlyRow(db, next, j) && next.jobs[j].heartbeatAt == Some(now)
            && next.jobs[j].(heartbeatAt := None) == db.jobs[j].(heartbeatAt := None)
            && next.attempts == db.attempts && next.nextAttempt == db.nextAttempt
            && Logged(db, next, j, []))
  {
  }

  // ----- reap -----

  /** A reap commits exactly if the row runs under the probed pid with a heartbeat from before the cutoff. It answers
      with the row's new state, which is dead exactly if this crash exceeds a bounded crash budget. */
  lemma ReapAnswers(db: Db, j: nat, pid: Pid, cutoff: Time, now: Time, reaper: string)
    ensures var (next, r) := Reap(db, j, pid, cutoff, now, reaper);
      && (r.Some? <==>
            && j in db.jobs && db.jobs[j].state == Running && db.jobs[j].lockedPid == Some(pid)
            && db.jobs[j].heartbeatAt.Some? && db.jobs[j].heartbeatAt.value < cutoff)
      && (r.None? ==> next == db)
      && (r.Some? ==>
            && OnlyRow(db, next, j) && r.value == next.jobs[j].state
            && (next.jobs[j].state == Dead <==>
                  db.jobs[j].spec.maxCrashes.Some? && db.jobs[j].crashes + 1 > db.jobs[j].spec.maxCrashes.value)
            && (next.jobs[j].state == Dead || next.jobs[j].state == Queued)
            && next.jobs[j].crashes == db.jobs[j].crashes + 1
            && Missed(db.jobs[j], next.jobs[j], now, None, "worker died"))
  {
    hide BackoffSeconds, CloseWhere;
    if j in db.jobs {
      BackoffClosedForm(db.jobs[j].attempts + 1);
    }
    hide Pow2;
  }

  /** How the running attempts of one job are displaced, with the exit code they have. */
  ghost predicate Displaced(db: Db, next: Db, j: nat, state: AttemptState, at: Time, error: string, reason: Reason) {
    && next.nextAttempt == db.nextAttempt && |next.attempts| == |db.attempts|
    && forall k :: 0 <= k < |db.attempts| ==>
         var a, b := db.attempts[k], next.attempts[k];
         if !a.state.AttRunning? || a.jobId != j then b == a
         else
           && b.state == state && b.finishedAt == Some(at) && b.error == Some(error) && b.reason == Some(reason)
           && b.exitCode == a.exitCode && b.id == a.id && b.jobId == a.jobId && b.no == a.no
           && b.workerId == a.workerId && b.pid == a.pid
           && b.startedAt == a.startedAt && b.stdoutPath == a.stdoutPath && b.stderrPath == a.stderrPath
  }

  lemma ReapEnds(db: Db, j: nat, pid: Pid, cutoff: Time, now: Time, reaper: string)
    requires Reap(db, j, pid, cutoff, now, reaper).1.Some?
    ensures var next := Reap(db, j, pid, cutoff, now, reaper).0;
      && Displaced(db, next, j, AttAbandoned, now, "worker died", WorkerCrash)
      && j in next.jobs
      && Logged(db, next, j, ClosingEntries(now, Reaped, reaper, DeadWorker(pid), next.jobs[j].state == Dead))
  {
    hide BackoffSeconds;
  }

  // ----- retry and cancel -----

  /** Every answer to a retry, by the row before: force is for running jobs only, and no force for settled jobs that did
      not succeed. */
  lemma RetryAnswers(db: Db, j: nat, force: bool, now: Time)
    ensures var (next, r) := RetryJob(db, j, force, now);
      && (r == RetryNotFound <==> j !in db.jobs)
      && (r == Raced <==> j in db.jobs && force && db.jobs[j].state != Running)
      && (r == AlreadyQueued <==> j in db.jobs && !force && db.jobs[j].state == Queued)
      && (r == AlreadyDone <==> j in db.jobs && !force && db.jobs[j].state == Done)
      && (r == RunningUnforced <==> j in db.jobs && !force && db.jobs[j].state == Running)
      && (r != RetryOk ==> next == db)
      && (r == RetryOk ==>
            && OnlyRow(db, next, j) && SameOrder(db.jobs[j], next.jobs[j]) && NoLock(next.jobs[j])
            && next.jobs[j].state == Queued && next.jobs[j].attempts == 0 && next.jobs[j].crashes == 0
            && next.jobs[j].nextRunAt == now && next.jobs[j].startedAt == db.jobs[j].startedAt
            && next.jobs[j].finishedAt.None? && next.jobs[j].lastExitCode.None? && next.jobs[j].lastError.None?
            && Logged(db, next, j, [Entry(now, Retried, None, if force then Forced else NoDetail)]))
  {
  }

  lemma RetryEnds(db: Db, j: nat, force: bool, now: Time)
    requires RetryJob(db, j, force, now).1 == RetryOk
    ensures var next := RetryJob(db, j, force, now).0;
      if force then Displaced(db, next, j, AttAbandoned, now, "force-retried", ReasonCanceled)
      else next.attempts == db.attempts && next.nextAttempt == db.nextAttempt
  {
  }

  /** Every answer to a cancel, by the row before. */
  lemma CancelAnswers(db: Db, j: nat, allowRunning: bool, now: Time)
    ensures var (next, r) := CancelJob(db, j, allowRunning, now);
      && (r == CancelNotFound <==> j !in db.jobs)
      && (r == CancelOk <==> j in db.jobs && db.jobs[j].state == Queued)
      && (r == CancelOkRunning <==> j in db.jobs && db.jobs[j].state == Running && allowRunning)
      && (r == CancelRunningUnforced <==> j in db.jobs && db.jobs[j].state == Running && !allowRunning)
      && (r.CancelTerminal? <==> j in db.jobs && db.jobs[j].state != Queued && db.jobs[j].state != Running)
      && (r.CancelTerminal? ==> r.state == db.jobs[j].state)
      && (r != CancelOk && r != CancelOkRunning ==> next == db)
      && (r == CancelOk || r == CancelOkRunning ==>
            && OnlyRow(db, next, j) && SameOrder(db.jobs[j], next.jobs[j])
            && next.jobs[j].state == Canceled && next.jobs[j].finishedAt == Some(now)
            && next.jobs[j].startedAt == db.jobs[j].startedAt && next.jobs[j].nextRunAt == db.jobs[j].nextRunAt
            && next.jobs[j].attempts == db.jobs[j].attempts && next.jobs[j].crashes == db.jobs[j].crashes
            && next.jobs[j].lastExitCode == db.jobs[j].lastExitCode && next.jobs[j].lastError == db.jobs[j].lastError
            && (r == CancelOkRunning ==> NoLock(next.jobs[j]))
            && Logged(db, next, j, [Entry(now, CanceledEvent, None, if r == CancelOk then NoDetail else WasRunning)]))
  {
  }

  lemma CancelEnds(db: Db, j: nat, allowRunning: bool, now: Time)
    ensures var (next, r) := CancelJob(db, j, allowRunning, now);
      && (r == CancelOk ==> next.attempts == db.attempts && next.nextAttempt == db.nextAttempt)
      && (r == CancelOkRunning ==> Displaced(db, next, j, AttCanceled, now, "canceled", ReasonCanceled))
  {
  }

  // ----- drain -----

  /** The jobs that keep a drain of the lane alive are exactly those of the lane that run, and those that are queued
      and due or have spent an attempt. */
  lemma DrainAnswers(db: Db, lane: string, now: Time)
    ensures UnsettledCount(db, lane, now) == |KeepingAlive(db, lane, now)|
    ensures UnsettledCount(db, lane, now) == 0 <==> forall j <- db.jobs :: db.jobs[j].spec.queue == lane ==>
      && db.jobs[j].state != Running
      && (db.jobs[j].state == Queued ==> db.jobs[j].nextRunAt > now && db.jobs[j].attempts == 0)
  {
    assert Unsettled(db, lane, now) == KeepingAlive(db, lane, now);
    if KeepingAlive(db, lane, now) == {} {
      assert forall j <- db.jobs :: j !in KeepingAlive(db, lane, now);
    }
  }

  function KeepingAlive(db: Db, lane: string, now: Time): set<nat> {
    set j | j in db.jobs && db.jobs[j].spec.queue == lane
            && (db.jobs[j].state == Running
                || (db.jobs[j].state == Queued && (db.jobs[j].nextRunAt <= now || db.jobs[j].attempts > 0)))
  }
}
