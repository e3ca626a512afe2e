/** Worker processes and operators around one database (spoolctl/worker.py). A worker is a sequential process: it
    reads the clock, scans for stale rows, probes and reaps them one by one, claims, executes with a heartbeat, and
    records. It may die at any point and its pid may be used again. A transaction may use any clock reading: clocks
    can be late and can be set back. What a steady clock adds is said by `Steady`, which only some results ask for. */
module Fleet {
  import opened Models
  import opened Tables
  import opened Transactions
  import opened JobCell

  datatype Suspect = Suspect(job: nat, pid: Pid)

  datatype Phase =
    | Resting
    | Marked(now: Time, cutoff: Time)
    | Sweeping(now: Time, cutoff: Time, todo: seq<Suspect>)
    | Confirmed(now: Time, cutoff: Time, suspect: Suspect, rest: seq<Suspect>, bornBefore: nat)
    | Busy(job: nat, attempt: nat, lost: bool)

  /** A live worker. `floor` is its newest clock reading; `inc` numbers the process incarnations of all time. */
  datatype Proc = Proc(inc: nat, workerId: string, floor: Time, firstAttempt: nat, phase: Phase)

  /** Who claimed an attempt, for which job and under which number; kept for ever, also after a prune. */
  datatype Epoch = Epoch(inc: nat, job: nat, no: nat)

  datatype Sys = Sys(
    db: Db,
    root: string,
    clock: Time,
    procs: map<Pid, Proc>,
    births: seq<Time>,
    epochs: map<nat, Epoch>)

  function Init(root: string, clock: Time): Sys {
    Sys(EMPTY, root, clock, map[], [], map[])
  }

  /** How an execution ended. */
  datatype Report = Exit(code: int, text: string) | NoSpawn(text: string) | Overran(text: string)

  datatype Step =
    | Tick(to: Time)
    | Spawn(pid: Pid, workerId: string)
    | Die(pid: Pid)
    | StartPass(pid: Pid, now: Time, threshold: int)
    | ScanStale(pid: Pid, found: seq<Suspect>)
    | ProbeOwner(pid: Pid, dead: bool)
    | ReapStale(pid: Pid)
    | ClaimJob(pid: Pid, now: Time, lane: string, slots: Option<int>)
    | SendBeat(pid: Pid, now: Time)
    | RecordResult(pid: Pid, report: Report, now: Time)
    | Submit(sub: Submission, now: Time)
    | RetryOne(job: nat, force: bool, now: Time)
    | CancelOne(job: nat, allowRunning: bool, now: Time)
    | Prune(ids: seq<nat>, states: set<JobState>, cutoff: Time)

  function Rows(s: Sys, j: nat): seq<Attempt> {
    AttemptsOf(s.db.attempts, j)
  }

  /** The stale rows with their pids; a row without a pid is passed over. */
  ghost predicate ListsStale(db: Db, cutoff: Time, found: seq<Suspect>) {
    && (forall x <- found :: Reapable(db, x.job, x.pid, cutoff))
    && (forall j <- db.jobs ::
          Stale(db, j, cutoff) && db.jobs[j].lockedPid.Some? ==> Suspect(j, db.jobs[j].lockedPid.value) in found)
  }

  /** When a step can happen. A probe is sound: it never confirms a pid that a live worker has. */
  ghost predicate Enabled(s: Sys, st: Step) {
    match st
    case Tick(_) => true
    case Spawn(pid, _) => pid !in s.procs
    case Die(pid) => pid in s.procs
    case StartPass(pid, _, _) => pid in s.procs && s.procs[pid].phase.Resting?
    case ScanStale(pid, found) =>
      pid in s.procs && s.procs[pid].phase.Marked? && ListsStale(s.db, s.procs[pid].phase.cutoff, found)
    case ProbeOwner(pid, dead) =>
      && pid in s.procs && s.procs[pid].phase.Sweeping? && s.procs[pid].phase.todo != []
      && (dead ==> s.procs[pid].phase.todo[0].pid !in s.procs)
    case ReapStale(pid) => pid in s.procs && s.procs[pid].phase.Confirmed?
    case ClaimJob(pid, _, _, _) => pid in s.procs && s.procs[pid].phase.Sweeping? && s.procs[pid].phase.todo == []
    case SendBeat(pid, _) => pid in s.procs && s.procs[pid].phase.Busy? && !s.procs[pid].phase.lost
    case RecordResult(pid, _, _) => pid in s.procs && s.procs[pid].phase.Busy?
    case Submit(_, _) => true
    case RetryOne(_, _, _) => true
    case CancelOne(_, _, _) => true
    case Prune(_, states, _) => forall x <- states :: Terminal(x)
  }

  /** The process reads no time earlier than it read before, and none that has not come yet. */
  predicate ReadBy(s: Sys, pid: Pid, now: Time) {
    pid in s.procs && s.procs[pid].floor <= now <= s.clock
  }

  /** The clock is not set back at this step, and every reading it uses was taken from it. A reading may be late, as
      long as the same process took it. */
  predicate Steady(s: Sys, st: Step) {
    match st
    case Tick(to) => s.clock <= to
    case StartPass(pid, now, threshold) => ReadBy(s, pid, now) && threshold >= 0
    case ClaimJob(pid, now, _, _) => ReadBy(s, pid, now)
    case SendBeat(pid, now) => ReadBy(s, pid, now)
    case RecordResult(pid, _, now) => ReadBy(s, pid, now)
    case Submit(_, now) => now <= s.clock
    case RetryOne(_, _, now) => now <= s.clock
    case CancelOne(_, _, now) => now <= s.clock
    case _ => true
  }

  function Moved(s: Sys, pid: Pid, floor: Time, phase: Phase): Sys
    requires pid in s.procs
  {
    s.(procs := s.procs[pid := s.procs[pid].(floor := floor, phase := phase)])
  }

  /** The record a worker makes of a report. */
  function RecordOf(db: Db, p: Proc, pid: Pid, report: Report, now: Time): Db
    requires p.phase.Busy?
  {
    var j, att := p.phase.job, p.phase.attempt;
    match report
    case Exit(code, text) =>
      if code == 0 then RecordSuccess(db, j, att, p.workerId, pid, now).0
      else RecordFailure(db, j, att, p.workerId, pid, AttFailed, Some(code), text, now, Some(ProcessExit)).0
    case NoSpawn(text) => RecordFailure(db, j, att, p.workerId, pid, AttFailed, None, text, now, Some(SpawnFailed)).0
    case Overran(text) => RecordFailure(db, j, att, p.workerId, pid, AttTimedOut, None, text, now, Some(Timeout)).0
  }

  function ClaimAs(s: Sys, pid: Pid, now: Time, lane: string, slots: Option<int>): Sys
    requires pid in s.procs
  {
    var p := s.procs[pid];
    var r := ClaimNext(s.db, p.workerId, pid, now, s.root, lane, slots);
    if r.1.None? then Moved(s, pid, now, Resting)
    else
      var att, j := s.db.nextAttempt, r.1.value;
      Moved(s, pid, now, Busy(j, att, false))
        .(db := r.0, epochs := s.epochs[att := Epoch(p.inc, j, MaxAttemptNo(Rows(s, j)) + 1)])
  }

  function Next(s: Sys, st: Step): Sys
    requires Enabled(s, st)
  {
    match st
    case Tick(to) => s.(clock := to)
    case Spawn(pid, wid) =>
      s.(procs := s.procs[pid := Proc(|s.births|, wid, s.clock, s.db.nextAttempt, Resting)],
         births := s.births + [s.clock])
    case Die(pid) => s.(procs := s.procs - {pid})
    case StartPass(pid, now, threshold) => Moved(s, pid, now, Marked(now, now - threshold))
    case ScanStale(pid, found) =>
      var p := s.procs[pid];
      Moved(s, pid, p.floor, Sweeping(p.phase.now, p.phase.cutoff, found))
    case ProbeOwner(pid, dead) =>
      var p := s.procs[pid];
      var now, cutoff, todo := p.phase.now, p.phase.cutoff, p.phase.todo;
      Moved(s, pid, p.floor,
            if dead then Confirmed(now, cutoff, todo[0], todo[1..], |s.births|) else Sweeping(now, cutoff, todo[1..]))
    case ReapStale(pid) =>
      var p := s.procs[pid];
      var ph := p.phase;
      Moved(s, pid, p.floor, Sweeping(ph.now, ph.cutoff, ph.rest))
        .(db := Reap(s.db, ph.suspect.job, ph.suspect.pid, ph.cutoff, ph.now, p.workerId).0)
    case ClaimJob(pid, now, lane, slots) => ClaimAs(s, pid, now, lane, slots)
    case SendBeat(pid, now) =>
      var p := s.procs[pid];
      var r := UpdateHeartbeat(s.db, p.phase.job, p.workerId, pid, now);
      Moved(s, pid, p.floor, p.phase.(lost := r.1 == 0)).(db := r.0)
    case RecordResult(pid, report, now) =>
      Moved(s, pid, now, Resting).(db := RecordOf(s.db, s.procs[pid], pid, report, now))
    case Submit(sub, now) => s.(db := AddJob(s.db, sub, now).0)
    case RetryOne(j, force, now) => s.(db := RetryJob(s.db, j, force, now).0)
    case CancelOne(j, allowRunning, now) => s.(db := CancelJob(s.db, j, allowRunning, now).0)
    case Prune(ids, states, cutoff) => s.(db := PruneDelete(s.db, ids, states, cutoff))
  }

  // ----- runs -----

  /** Whether `steps` can be taken one after the other from `s`, in any interleaving of processes. */
  ghost predicate Legal(s: Sys, steps: seq<Step>)
    decreases |steps|, 0
  {
    steps == [] || (Legal(s, Front(steps)) && Enabled(After(s, Front(steps)), Last(steps)))
  }

  ghost function After(s: Sys, steps: seq<Step>): Sys
    requires Legal(s, steps)
    decreases |steps|, 1
  {
    if steps == [] then s else Next(After(s, Front(steps)), Last(steps))
  }

  /** A run under a clock that is never set back. */
  ghost predicate SteadyRun(s: Sys, steps: seq<Step>)
    requires Legal(s, steps)
  {
    steps == [] || (SteadyRun(s, Front(steps)) && Steady(After(s, Front(steps)), Last(steps)))
  }

  // ----- what a step does to the database -----

  datatype Deed = Nothing | On(job: nat, act: Act) | Insert(sub: Submission, at: Time) | Drop

  function ActOfReport(wid: string, report: Report, now: Time): Act {
    match report
    case Exit(code, text) =>
      if code == 0 then Succeed(wid, now) else Fail(wid, AttFailed, Some(code), text, ProcessExit, now)
    case NoSpawn(text) => Fail(wid, AttFailed, None, text, SpawnFailed, now)
    case Overran(text) => Fail(wid, AttTimedOut, None, text, Timeout, now)
  }

  /** The act on one job that a step amounts to, if it changes the database at all. */
  ghost function DeedOf(s: Sys, st: Step): Deed
    requires Enabled(s, st)
  {
    match st
    case ReapStale(pid) =>
      var p := s.procs[pid];
      var x := p.phase.suspect;
      if Reapable(s.db, x.job, x.pid, p.phase.cutoff) then On(x.job, Crash(p.workerId, x.pid, p.phase.now)) else Nothing
    case ClaimJob(pid, now, lane, slots) =>
      var p := s.procs[pid];
      var j := ClaimNext(s.db, p.workerId, pid, now, s.root, lane, slots).1;
      if j.None? then Nothing
      else
        var no := |Rows(s, j.value)| + 1;
        On(j.value, Claim(NewAttempt(s.db.nextAttempt, j.value, no, p.workerId, pid, now, s.root)))
    case SendBeat(pid, now) =>
      var p := s.procs[pid];
      if Owns(s.db, p.phase.job, p.workerId, pid) then On(p.phase.job, Beat(now)) else Nothing
    case RecordResult(pid, report, now) =>
      var p := s.procs[pid];
      if Owns(s.db, p.phase.job, p.workerId, pid)
      then On(p.phase.job, ActOfReport(p.workerId, report, now)) else Nothing
    case Submit(sub, now) => if AddJob(s.db, sub, now).1.Inserted? then Insert(sub, now) else Nothing
    case RetryOne(j, force, now) => if RetryRefusal(s.db, j, force).None? then On(j, Retry(force, now)) else Nothing
    case CancelOne(j, allowRunning, now) =>
      if j in s.db.jobs && (s.db.jobs[j].state.Queued? || (s.db.jobs[j].state.Running? && allowRunning))
      then On(j, Cancel(now)) else Nothing
    case Prune(_, _, _) => Drop
    case _ => Nothing
  }

  function ActAt(a: Act): Time {
    match a
    case Claim(row) => row.startedAt
    case _ => a.at
  }
}
