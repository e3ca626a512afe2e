/** The three tables of a queue database at schema 6, with their AUTOINCREMENT counters (spoolctl/store.py). `jobs` is
    keyed by rowid; the other two are listed in rowid order. */
module Tables {
  import opened Models

  /** The eight execution fields of a submission. */
  datatype Spec = Spec(
    argv: seq<string>,
    timeoutSeconds: int,
    maxRetries: nat,
    priority: int,
    queue: string,
    cwd: Option<string>,
    env: map<string, string>,
    maxCrashes: Option<nat>)

  datatype Job = Job(
    spec: Spec,
    key: Option<string>,
    tags: map<string, string>,
    note: Option<string>,
    createdAt: Time,
    nextRunAt: Time,
    state: JobState,
    attempts: nat,
    crashes: nat,
    lockedBy: Option<string>,
    lockedPid: Option<Pid>,
    lockedAt: Option<Time>,
    heartbeatAt: Option<Time>,
    startedAt: Option<Time>,
    finishedAt: Option<Time>,
    lastExitCode: Option<int>,
    lastError: Option<string>)

  datatype Attempt = Attempt(
    id: nat,
    jobId: nat,
    no: nat,
    workerId: string,
    pid: Pid,
    state: AttemptState,
    startedAt: Time,
    finishedAt: Option<Time>,
    exitCode: Option<int>,
    stdoutPath: string,
    stderrPath: string,
    error: Option<string>,
    reason: Option<Reason>)

  datatype Detail = NoDetail | ErrorText(text: string) | DeadWorker(pid: Pid) | Forced | WasRunning

  datatype Entry = Entry(at: Time, kind: EventKind, workerId: Option<string>, detail: Detail)

  datatype Event = Event(id: nat, jobId: nat, entry: Entry)

  datatype Db = Db(
    jobs: map<nat, Job>,
    attempts: seq<Attempt>,
    events: seq<Event>,
    nextJob: nat,
    nextAttempt: nat,
    nextEvent: nat)

  const EMPTY := Db(map[], [], [], 1, 1, 1)

  function Last<T>(s: seq<T>): T
    requires s != []
  {
    s[|s| - 1]
  }

  function Front<T>(s: seq<T>): seq<T>
    requires s != []
  {
    s[..|s| - 1]
  }

  /** `SELECT * FROM attempts WHERE job_id=? ORDER BY id`. */
  function AttemptsOf(rows: seq<Attempt>, j: nat): seq<Attempt> {
    if rows == [] then []
    else if Last(rows).jobId == j then AttemptsOf(Front(rows), j) + [Last(rows)]
    else AttemptsOf(Front(rows), j)
  }

  /** A job's event trail in insertion order. */
  function LogOf(rows: seq<Event>, j: nat): seq<Entry> {
    if rows == [] then []
    else if Last(rows).jobId == j then LogOf(Front(rows), j) + [Last(rows).entry]
    else LogOf(Front(rows), j)
  }

  /** `DELETE FROM attempts WHERE job_id=?`. */
  function AttemptsWithout(rows: seq<Attempt>, j: nat): seq<Attempt> {
    if rows == [] then []
    else if Last(rows).jobId == j then AttemptsWithout(Front(rows), j)
    else AttemptsWithout(Front(rows), j) + [Last(rows)]
  }

  /** `DELETE FROM job_events WHERE job_id=?`. */
  function EventsWithout(rows: seq<Event>, j: nat): seq<Event> {
    if rows == [] then []
    else if Last(rows).jobId == j then EventsWithout(Front(rows), j)
    else EventsWithout(Front(rows), j) + [Last(rows)]
  }

  /** How a finished attempt row is rewritten. A displacement leaves the exit code alone. */
  datatype Closing =
    | ByExit(at: Time)
    | ByFailure(kind: AttemptState, at: Time, exitCode: Option<int>, error: string, reason: Reason)
    | ByDisplacement(state: AttemptState, at: Time, error: string, reason: Reason)

  function Close(a: Attempt, c: Closing): Attempt {
    match c
    case ByExit(at) =>
      a.(state := AttSucceeded, finishedAt := Some(at), exitCode := Some(0))
    case ByFailure(kind, at, code, error, reason) =>
      a.(state := kind, finishedAt := Some(at), exitCode := code, error := Some(error), reason := Some(reason))
    case ByDisplacement(state, at, error, reason) =>
      a.(state := state, finishedAt := Some(at), error := Some(error), reason := Some(reason))
  }

  /** The two WHERE clauses that close attempts, both on top of `state='running'`. */
  datatype Selector = ById(id: nat) | ByJob(jobId: nat)

  predicate Selects(sel: Selector, a: Attempt) {
    a.state.AttRunning? && match sel case ById(id) => a.id == id case ByJob(j) => a.jobId == j
  }

  function CloseWhere(rows: seq<Attempt>, sel: Selector, c: Closing): (r: seq<Attempt>)
    ensures |r| == |rows|
  {
    seq(|rows|, i requires 0 <= i < |rows| => if Selects(sel, rows[i]) then Close(rows[i], c) else rows[i])
  }

  /** `SELECT COALESCE(MAX(attempt_no), 0)` over one job. */
  function MaxAttemptNo(rows: seq<Attempt>): nat {
    if rows == [] then 0 else Max(MaxAttemptNo(Front(rows)), Last(rows).no)
  }
}
