/** Every write transaction of spoolctl/store.py as a function from database to database. One `BEGIN IMMEDIATE ...
    COMMIT` is one function application; a rollback returns the database unchanged. */
module Transactions {
  import opened Models
  import opened Tables
  import opened Decimal

  // ----- row rewrites -----

  function Unlocked(job: Job): Job {
    job.(lockedBy := None, lockedPid := None, lockedAt := None, heartbeatAt := None)
  }

  function ClaimedRow(job: Job, wid: string, pid: Pid, now: Time): Job {
    job.(state := Running, lockedBy := Some(wid), lockedPid := Some(pid), lockedAt := Some(now),
         heartbeatAt := Some(now), startedAt := Some(now))
  }

  function SucceededRow(job: Job, now: Time): Job {
    Unlocked(job).(state := Done, finishedAt := Some(now), lastExitCode := Some(0), lastError := None)
  }

  /** A job-owned failure: the retry budget counts attempts that were not crashes. */
  function FailedRow(job: Job, exitCode: Option<int>, error: string, now: Time): Job {
    var n := job.attempts + 1;
    var again := n - job.crashes <= job.spec.maxRetries;
    Unlocked(job).(state := if again then Queued else Dead, attempts := n,
                   nextRunAt := if again then now + BackoffSeconds(n) else now,
                   finishedAt := Some(now), lastExitCode := exitCode, lastError := Some(error))
  }

  /** A worker crash: it consumes an attempt and one unit of the crash budget, when that is bounded. */
  function ReapedRow(job: Job, now: Time): Job {
    var n := job.attempts + 1;
    var again := job.spec.maxCrashes.None? || job.crashes + 1 <= job.spec.maxCrashes.value;
    Unlocked(job).(state := if again then Queued else Dead, attempts := n, crashes := job.crashes + 1,
                   nextRunAt := if again then now + BackoffSeconds(n) else now,
                   finishedAt := Some(now), lastExitCode := None, lastError := Some("worker died"))
  }

  function RetriedRow(job: Job, now: Time): Job {
    Unlocked(job).(state := Queued, attempts := 0, crashes := 0, nextRunAt := now,
                   finishedAt := None, lastExitCode := None, lastError := None)
  }

  /** Canceling a queued row does not touch the lock fields. */
  function CanceledRow(job: Job, now: Time): Job {
    (if job.state.Running? then Unlocked(job) else job).(state := Canceled, finishedAt := Some(now))
  }

  function AddEvent(db: Db, j: nat, e: Entry): Db {
    db.(events := db.events + [Event(db.nextEvent, j, e)], nextEvent := db.nextEvent + 1)
  }

  /** The closing entry of a failure, with the dead letter when the budget is spent. */
  function AddClosing(db: Db, j: nat, e: Entry, dead: bool): Db {
    var db1 := AddEvent(db, j, e);
    if dead then AddEvent(db1, j, Entry(e.at, DeadLettered, e.workerId, NoDetail)) else db1
  }

  // ----- add -----

  predicate Active(job: Job) {
    job.state.Queued? || job.state.Running?
  }

  predicate HoldsKey(db: Db, j: nat, key: string) {
    j in db.jobs && db.jobs[j].key == Some(key) && Active(db.jobs[j])
  }

  /** The lowest id below `bound` that is queued or running under `key`. */
  function FirstHolder(db: Db, key: string, bound: nat): (r: Option<nat>)
    ensures r.Some? ==> r.value < bound && HoldsKey(db, r.value, key)
    ensures r.Some? ==> forall j: nat :: j < r.value ==> !HoldsKey(db, j, key)
    ensures r.None? ==> forall j: nat :: j < bound ==> !HoldsKey(db, j, key)
  {
    if bound == 0 then None
    else
      var before := FirstHolder(db, key, bound - 1);
      if before.Some? then before
      else if HoldsKey(db, bound - 1, key) then Some(bound - 1) else None
  }

  datatype Value = Null | Text(s: string) | Number(n: int) | Words(ws: seq<string>) | Dict(d: map<string, string>)

  function TextOrNull(o: Option<string>): Value {
    if o.None? then Null else Text(o.value)
  }

  function NumberOrNull(o: Option<int>): Value {
    if o.None? then Null else Number(o.value)
  }

  function ExecutionPayload(s: Spec): map<string, Value> {
    map["argv" := Words(s.argv), "timeout_seconds" := Number(s.timeoutSeconds),
        "max_retries" := Number(s.maxRetries), "priority" := Number(s.priority),
        "queue" := Text(s.queue), "cwd" := TextOrNull(s.cwd), "env" := Dict(s.env),
        "max_crashes" := NumberOrNull(s.maxCrashes)]
  }

  function MetadataPayload(tags: map<string, string>, note: Option<string>, schedule: Option<Time>)
    : map<string, Value>
  {
    map["tags" := Dict(tags), "note" := TextOrNull(note), "next_run_at" := NumberOrNull(schedule)]
  }

  function ScheduleOfRow(job: Job): Option<Time> {
    if job.nextRunAt == job.createdAt then None else Some(job.nextRunAt)
  }

  function ScheduleSubmitted(now: Time, nextRunAt: Option<Time>): Option<Time> {
    if nextRunAt.None? || nextRunAt.value == now then None else nextRunAt
  }

  function Get(m: map<string, Value>, k: string): Value {
    if k in m then m[k] else Null
  }

  /** The keys on which two payloads disagree, with both values. */
  function PayloadDiff(existing: map<string, Value>, submitted: map<string, Value>): map<string, (Value, Value)> {
    map k | k in existing.Keys + submitted.Keys && Get(existing, k) != Get(submitted, k)
      :: (Get(existing, k), Get(submitted, k))
  }

  datatype AddResult =
    | Inserted(id: nat)
    | Duplicate(id: nat, state: JobState, metadata: map<string, (Value, Value)>)
    | Conflict(id: nat, state: JobState, fields: set<string>)

  datatype Submission = Submission(
    spec: Spec,
    key: Option<string>,
    tags: map<string, string>,
    note: Option<string>,
    nextRunAt: Option<Time>)

  function NewRow(sub: Submission, now: Time): Job {
    Job(sub.spec, sub.key, sub.tags, sub.note, now, if sub.nextRunAt.None? then now else sub.nextRunAt.value,
        Queued, 0, 0, None, None, None, None, None, None, None, None)
  }

  /** What `add` answers when row `j` already holds the key. */
  function Compare(job: Job, j: nat, sub: Submission, now: Time): AddResult {
    var execution := PayloadDiff(ExecutionPayload(job.spec), ExecutionPayload(sub.spec));
    if execution.Keys != {} then Conflict(j, job.state, execution.Keys)
    else Duplicate(j, job.state,
      PayloadDiff(MetadataPayload(job.tags, job.note, ScheduleOfRow(job)),
                  MetadataPayload(sub.tags, sub.note, ScheduleSubmitted(now, sub.nextRunAt))))
  }

  function AddJob(db: Db, sub: Submission, now: Time): (Db, AddResult) {
    var holder := if sub.key.None? then None else FirstHolder(db, sub.key.value, db.nextJob);
    if holder.Some? then (db, Compare(db.jobs[holder.value], holder.value, sub, now))
    else
      var j := db.nextJob;
      var db1 := db.(jobs := db.jobs[j := NewRow(sub, now)], nextJob := j + 1);
      (AddEvent(db1, j, Entry(now, Added, None, NoDetail)), Inserted(j))
  }

  // ----- claim -----

  predicate Due(db: Db, j: nat, lane: string, now: Time) {
    j in db.jobs && db.jobs[j].state.Queued? && db.jobs[j].nextRunAt <= now && db.jobs[j].spec.queue == lane
  }

  /** `ORDER BY priority DESC, next_run_at ASC, id ASC`. */
  predicate Before(db: Db, a: nat, b: nat)
    requires a in db.jobs && b in db.jobs
  {
    var x, y := db.jobs[a], db.jobs[b];
    x.spec.priority > y.spec.priority
    || (x.spec.priority == y.spec.priority
        && (x.nextRunAt < y.nextRunAt || (x.nextRunAt == y.nextRunAt && a < b)))
  }

  /** The first due row of the lane below `bound`, in claim order. */
  function Pick(db: Db, lane: string, now: Time, bound: nat): (r: Option<nat>)
    ensures r.Some? ==> r.value < bound && Due(db, r.value, lane, now)
    ensures r.Some? ==>
      forall j: nat :: j < bound && j != r.value && Due(db, j, lane, now) ==> Before(db, r.value, j)
    ensures r.None? ==> forall j: nat :: j < bound ==> !Due(db, j, lane, now)
  {
    if bound == 0 then None
    else
      var best := Pick(db, lane, now, bound - 1);
      var j := bound - 1;
      if !Due(db, j, lane, now) then best
      else if best.None? || Before(db, j, best.value) then Some(j) else best
  }

  function RunningIn(db: Db, lane: string): set<nat> {
    set j | j in db.jobs && db.jobs[j].state.Running? && db.jobs[j].spec.queue == lane
  }

  predicate LaneFull(db: Db, lane: string, slots: Option<int>) {
    slots.Some? && |RunningIn(db, lane)| >= slots.value
  }

  function AttemptDir(root: string, j: nat, no: nat): string {
    root + "/" + Dec(j) + "/" + Dec(no)
  }

  function NewAttempt(id: nat, j: nat, no: nat, wid: string, pid: Pid, now: Time, root: string): Attempt {
    Attempt(id, j, no, wid, pid, AttRunning, now, None, None,
            AttemptDir(root, j, no) + "/stdout", AttemptDir(root, j, no) + "/stderr", None, None)
  }

  /** The write half of a claim, on the row that was picked. */
  function Grant(db: Db, j: nat, wid: string, pid: Pid, now: Time, root: string): Db
    requires j in db.jobs
  {
    var no := MaxAttemptNo(AttemptsOf(db.attempts, j)) + 1;
    var db1 := db.(jobs := db.jobs[j := ClaimedRow(db.jobs[j], wid, pid, now)],
                   attempts := db.attempts + [NewAttempt(db.nextAttempt, j, no, wid, pid, now, root)],
                   nextAttempt := db.nextAttempt + 1);
    AddEvent(db1, j, Entry(now, Claimed, Some(wid), NoDetail))
  }

  /** Returns the claimed job; its attempt has the id that was `nextAttempt`. */
  function ClaimNext(db: Db, wid: string, pid: Pid, now: Time, root: string, lane: string, slots: Option<int>)
    : (Db, Option<nat>)
  {
    var j := if LaneFull(db, lane, slots) then None else Pick(db, lane, now, db.nextJob);
    if j.None? then (db, None) else (Grant(db, j.value, wid, pid, now, root), j)
  }

  // ----- record and heartbeat -----

  /** The ownership guard: the row is running under this worker id and pid. */
  predicate Owns(db: Db, j: nat, wid: string, pid: Pid) {
    j in db.jobs && db.jobs[j].state.Running?
    && db.jobs[j].lockedBy == Some(wid) && db.jobs[j].lockedPid == Some(pid)
  }

  function RecordSuccess(db: Db, j: nat, att: nat, wid: string, pid: Pid, now: Time): (Db, Option<JobState>) {
    if !Owns(db, j, wid, pid) then (db, None)
    else
      var db1 := db.(jobs := db.jobs[j := SucceededRow(db.jobs[j], now)],
                     attempts := CloseWhere(db.attempts, ById(att), ByExit(now)));
      (AddEvent(db1, j, Entry(now, Succeeded, Some(wid), NoDetail)), Some(Done))
  }

  function DefaultReason(kind: AttemptState, exitCode: Option<int>): Reason {
    if kind.AttTimedOut? then Timeout
    else if kind.AttFailed? && exitCode.Some? then ProcessExit
    else ReasonUnknown
  }

  /** `kind` is one of the two failure kinds and the reason fits it. */
  predicate ValidFailure(kind: AttemptState, exitCode: Option<int>, reason: Reason) {
    match kind
    case AttTimedOut => reason.Timeout?
    case AttFailed => if exitCode.Some? then reason.ProcessExit? else reason.SpawnFailed? || reason.ReasonUnknown?
    case _ => false
  }

  datatype FailureResult = Rejected | Discarded | Recorded(state: JobState)

  function RecordFailure(db: Db, j: nat, att: nat, wid: string, pid: Pid, kind: AttemptState,
                         exitCode: Option<int>, error: string, now: Time, given: Option<Reason>)
    : (Db, FailureResult)
  {
    var reason := if given.Some? then given.value else DefaultReason(kind, exitCode);
    if !ValidFailure(kind, exitCode, reason) then (db, Rejected)
    else if !Owns(db, j, wid, pid) then (db, Discarded)
    else
      var row := FailedRow(db.jobs[j], exitCode, error, now);
      var db1 := db.(jobs := db.jobs[j := row],
                     attempts := CloseWhere(db.attempts, ById(att), ByFailure(kind, now, exitCode, error, reason)));
      var event := if kind.AttFailed? then FailedEvent else TimedOutEvent;
      (AddClosing(db1, j, Entry(now, event, Some(wid), ErrorText(error)), row.state.Dead?), Recorded(row.state))
  }

  /** Returns the number of rows matched. */
  function UpdateHeartbeat(db: Db, j: nat, wid: string, pid: Pid, now: Time): (Db, nat) {
    if Owns(db, j, wid, pid)
    then (db.(jobs := db.jobs[j := db.jobs[j].(heartbeatAt := Some(now))]), 1)
    else (db, 0)
  }

  // ----- reap -----

  /** Running with a heartbeat before the cutoff. A null heartbeat compares false. */
  predicate Stale(db: Db, j: nat, cutoff: Time) {
    j in db.jobs && db.jobs[j].state.Running?
    && db.jobs[j].heartbeatAt.Some? && db.jobs[j].heartbeatAt.value < cutoff
  }

  predicate Reapable(db: Db, j: nat, pid: Pid, cutoff: Time) {
    Stale(db, j, cutoff) && db.jobs[j].lockedPid == Some(pid)
  }

  function Reap(db: Db, j: nat, pid: Pid, cutoff: Time, now: Time, reaper: string): (Db, Option<JobState>) {
    if !Reapable(db, j, pid, cutoff) then (db, None)
    else
      var row := ReapedRow(db.jobs[j], now);
      var db1 := db.(jobs := db.jobs[j := row],
                     attempts := CloseWhere(db.attempts, ByJob(j),
                                            ByDisplacement(AttAbandoned, now, "worker died", WorkerCrash)));
      (AddClosing(db1, j, Entry(now, Reaped, Some(reaper), DeadWorker(pid)), row.state.Dead?), Some(row.state))
  }

  // ----- retry and cancel -----

  datatype RetryResult = RetryOk | RetryNotFound | AlreadyQueued | AlreadyDone | RunningUnforced | Raced

  function RetryRefusal(db: Db, j: nat, force: bool): Option<RetryResult> {
    if j !in db.jobs then Some(RetryNotFound)
    else
      var state := db.jobs[j].state;
      if force then (if state.Running? then None else Some(Raced))
      else if state.Queued? then Some(AlreadyQueued)
      else if state.Done? then Some(AlreadyDone)
      else if state.Running? then Some(RunningUnforced)
      else None
  }

  function RetryJob(db: Db, j: nat, force: bool, now: Time): (Db, RetryResult) {
    var refusal := RetryRefusal(db, j, force);
    if refusal.Some? then (db, refusal.value)
    else
      var rows := if force
        then CloseWhere(db.attempts, ByJob(j), ByDisplacement(AttAbandoned, now, "force-retried", ReasonCanceled))
        else db.attempts;
      var db1 := db.(jobs := db.jobs[j := RetriedRow(db.jobs[j], now)], attempts := rows);
      (AddEvent(db1, j, Entry(now, Retried, None, if force then Forced else NoDetail)), RetryOk)
  }

  datatype CancelResult =
    | CancelOk | CancelOkRunning | CancelNotFound | CancelRunningUnforced | CancelTerminal(state: JobState)

  function CancelJob(db: Db, j: nat, allowRunning: bool, now: Time): (Db, CancelResult) {
    if j !in db.jobs then (db, CancelNotFound)
    else if db.jobs[j].state.Queued? then
      var db1 := db.(jobs := db.jobs[j := CanceledRow(db.jobs[j], now)]);
      (AddEvent(db1, j, Entry(now, CanceledEvent, None, NoDetail)), CancelOk)
    else if db.jobs[j].state.Running? then
      if !allowRunning then (db, CancelRunningUnforced)
      else
        var db1 := db.(jobs := db.jobs[j := CanceledRow(db.jobs[j], now)],
                       attempts := CloseWhere(db.attempts, ByJob(j),
                                              ByDisplacement(AttCanceled, now, "canceled", ReasonCanceled)));
        (AddEvent(db1, j, Entry(now, CanceledEvent, None, WasRunning)), CancelOkRunning)
    else (db, CancelTerminal(db.jobs[j].state))
  }

  // ----- prune -----

  predicate Prunable(db: Db, j: nat, states: set<JobState>, cutoff: Time) {
    j in db.jobs && db.jobs[j].state in states
    && db.jobs[j].finishedAt.Some? && db.jobs[j].finishedAt.value < cutoff
  }

  function DeleteJob(db: Db, j: nat): Db {
    db.(jobs := db.jobs - {j}, attempts := AttemptsWithout(db.attempts, j), events := EventsWithout(db.events, j))
  }

  datatype Deleted = Deleted(jobs: nat, attempts: nat, events: nat)

  function PruneOne(db: Db, j: nat, states: set<JobState>, cutoff: Time): Db {
    if Prunable(db, j, states, cutoff) then DeleteJob(db, j) else db
  }

  /** Deletes the matching jobs among `ids`, left to right, each re-checked. */
  function PruneDelete(db: Db, ids: seq<nat>, states: set<JobState>, cutoff: Time): Db {
    if ids == [] then db
    else PruneOne(PruneDelete(db, Front(ids), states, cutoff), Last(ids), states, cutoff)
  }

  // ----- drain -----

  /** Rows that keep a lane drain alive. */
  function Unsettled(db: Db, lane: string, now: Time): set<nat> {
    set j | j in db.jobs && db.jobs[j].spec.queue == lane
         && (db.jobs[j].state.Running?
             || (db.jobs[j].state.Queued? && (db.jobs[j].nextRunAt <= now || db.jobs[j].attempts > 0)))
  }

  function UnsettledCount(db: Db, lane: string, now: Time): nat {
    |Unsettled(db, lane, now)|
  }
}
