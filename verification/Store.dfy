/** The store as the object its callers use (spoolctl/store.py): tables and counters that each transaction rewrites
    in place. Every method is the transaction function of the same name applied to the current tables. */
module Store {
  import opened Models
  import opened Tables
  import T = Transactions
  import opened Submissions

  class Store {
    var jobs: map<nat, Job>
    var attempts: seq<Attempt>
    var events: seq<Event>
    var nextJob: nat
    var nextAttempt: nat
    var nextEvent: nat

    function View(): Db
      reads this
    {
      Db(jobs, attempts, events, nextJob, nextAttempt, nextEvent)
    }

    constructor ()
      ensures View() == EMPTY
    {
      jobs, attempts, events := map[], [], [];
      nextJob, nextAttempt, nextEvent := 1, 1, 1;
    }

    method AddEvent(j: nat, at: Time, kind: EventKind, worker: Option<string>, detail: Detail)
      modifies this`events, this`nextEvent
      ensures View() == T.AddEvent(old(View()), j, Entry(at, kind, worker, detail))
    {
      events := events + [Event(nextEvent, j, Entry(at, kind, worker, detail))];
      nextEvent := nextEvent + 1;
    }

    method AddJobChecked(sub: T.Submission, now: Time) returns (r: T.AddResult)
      modifies this
      ensures (View(), r) == T.AddJob(old(View()), sub, now)
    {
      if sub.key.Some? {
        var holder := T.FirstHolder(View(), sub.key.value, nextJob);
        if holder.Some? {
          var row := jobs[holder.value];
          var execution := DiffPayloads(T.ExecutionPayload(row.spec), T.ExecutionPayload(sub.spec));
          if execution.Keys != {} {
            return T.Conflict(holder.value, row.state, execution.Keys);
          }
          var metadata := DiffPayloads(
            T.MetadataPayload(row.tags, row.note, T.ScheduleOfRow(row)),
            T.MetadataPayload(sub.tags, sub.note, T.ScheduleSubmitted(now, sub.nextRunAt)));
          return T.Duplicate(holder.value, row.state, metadata);
        }
      }
      var j := nextJob;
      jobs := jobs[j := T.NewRow(sub, now)];
      nextJob := j + 1;
      AddEvent(j, now, Added, None, NoDetail);
      return T.Inserted(j);
    }

    method ClaimNext(wid: string, pid: Pid, now: Time, root: string, lane: string, slots: Option<int>)
      returns (r: Option<nat>)
      modifies this
      ensures (View(), r) == T.ClaimNext(old(View()), wid, pid, now, root, lane, slots)
    {
      if slots.Some? {
        var running := |T.RunningIn(View(), lane)|;
        if running >= slots.value {
          return None;
        }
      }
      r := T.Pick(View(), lane, now, nextJob);
      if r.None? {
        return;
      }
      var j := r.value;
      var no := MaxAttemptNo(AttemptsOf(attempts, j)) + 1;
      var dir := T.AttemptDir(root, j, no);
      jobs := jobs[j := jobs[j].(state := Running, lockedBy := Some(wid), lockedPid := Some(pid), lockedAt := Some(now),
                                 heartbeatAt := Some(now), startedAt := Some(now))];
      attempts := attempts + [Attempt(nextAttempt, j, no, wid, pid, AttRunning, now, None, None,
                                      dir + "/stdout", dir + "/stderr", None, None)];
      nextAttempt := nextAttempt + 1;
      AddEvent(j, now, Claimed, Some(wid), NoDetail);
    }

    method RecordSuccess(j: nat, att: nat, wid: string, pid: Pid, now: Time) returns (r: Option<JobState>)
      modifies this
      ensures (View(), r) == T.RecordSuccess(old(View()), j, att, wid, pid, now)
    {
      if !T.Owns(View(), j, wid, pid) {
        return None;
      }
      jobs := jobs[j := jobs[j].(state := Done, lockedBy := None, lockedPid := None, lockedAt := None,
                                 heartbeatAt := None, finishedAt := Some(now), lastExitCode := Some(0),
                                 lastError := None)];
      attempts := CloseWhere(attempts, ById(att), ByExit(now));
      AddEvent(j, now, Succeeded, Some(wid), NoDetail);
      return Some(Done);
    }

    method RecordFailure(j: nat, att: nat, wid: string, pid: Pid, kind: AttemptState, exitCode: Option<int>,
                         error: string, now: Time, given: Option<Reason>)
      returns (r: T.FailureResult)
      modifies this
      ensures (View(), r) == T.RecordFailure(old(View()), j, att, wid, pid, kind, exitCode, error, now, given)
    {
      var reason := if given.Some? then given.value else T.DefaultReason(kind, exitCode);
      if !T.ValidFailure(kind, exitCode, reason) {
        return T.Rejected;
      }
      if !T.Owns(View(), j, wid, pid) {
        return T.Discarded;
      }
      var row := jobs[j];
      var made := row.attempts + 1;
      var state, nextRunAt := Dead, now;
      if made - row.crashes <= row.spec.maxRetries {
        state, nextRunAt := Queued, now + BackoffSeconds(made);
      }
      jobs := jobs[j := row.(state := state, attempts := made, nextRunAt := nextRunAt, lockedBy := None,
                             lockedPid := None, lockedAt := None, heartbeatAt := None, finishedAt := Some(now),
                             lastExitCode := exitCode, lastError := Some(error))];
      attempts := CloseWhere(attempts, ById(att), ByFailure(kind, now, exitCode, error, reason));
      AddEvent(j, now, if kind.AttFailed? then FailedEvent else TimedOutEvent, Some(wid), ErrorText(error));
      if state == Dead {
        AddEvent(j, now, DeadLettered, Some(wid), NoDetail);
      }
      return T.Recorded(state);
    }

    method UpdateHeartbeat(j: nat, wid: string, pid: Pid, now: Time) returns (matched: nat)
      modifies this`jobs
      ensures (View(), matched) == T.UpdateHeartbeat(old(View()), j, wid, pid, now)
    {
      if !T.Owns(View(), j, wid, pid) {
        return 0;
      }
      jobs := jobs[j := jobs[j].(heartbeatAt := Some(now))];
      return 1;
    }

    method Reap(j: nat, pid: Pid, cutoff: Time, now: Time, reaper: string) returns (r: Option<JobState>)
      modifies this
      ensures (View(), r) == T.Reap(old(View()), j, pid, cutoff, now, reaper)
    {
      if !T.Reapable(View(), j, pid, cutoff) {
        return None;
      }
      var row := jobs[j];
      var made, crashes := row.attempts + 1, row.crashes + 1;
      var state, nextRunAt := Dead, now;
      if row.spec.maxCrashes.None? || crashes <= row.spec.maxCrashes.value {
        state, nextRunAt := Queued, now + BackoffSeconds(made);
      }
      jobs := jobs[j := row.(state := state, attempts := made, crashes := crashes, nextRunAt := nextRunAt,
                             lockedBy := None, lockedPid := None, lockedAt := None, heartbeatAt := None,
                             finishedAt := Some(now), lastExitCode := None, lastError := Some("worker died"))];
      attempts := CloseWhere(attempts, ByJob(j), ByDisplacement(AttAbandoned, now, "worker died", WorkerCrash));
      AddEvent(j, now, Reaped, Some(reaper), DeadWorker(pid));
      if state == Dead {
        AddEvent(j, now, DeadLettered, Some(reaper), NoDetail);
      }
      return Some(state);
    }

    method RetryJob(j: nat, force: bool, now: Time) returns (r: T.RetryResult)
      modifies this
      ensures (View(), r) == T.RetryJob(old(View()), j, force, now)
    {
      if j !in jobs {
        return T.RetryNotFound;
      }
      var row := jobs[j];
      if force {
        if !row.state.Running? {
          return T.Raced;
        }
        attempts := CloseWhere(attempts, ByJob(j), ByDisplacement(AttAbandoned, now, "force-retried", ReasonCanceled));
      } else if row.state.Queued? {
        return T.AlreadyQueued;
      } else if row.state.Done? {
        return T.AlreadyDone;
      } else if row.state.Running? {
        return T.RunningUnforced;
      }
      jobs := jobs[j := row.(state := Queued, attempts := 0, crashes := 0, nextRunAt := now, lockedBy := None,
                             lockedPid := None, lockedAt := None, heartbeatAt := None, finishedAt := None,
                             lastExitCode := None, lastError := None)];
      AddEvent(j, now, Retried, None, if force then Forced else NoDetail);
      return T.RetryOk;
    }

    method CancelJob(j: nat, allowRunning: bool, now: Time) returns (r: T.CancelResult)
      modifies this
      ensures (View(), r) == T.CancelJob(old(View()), j, allowRunning, now)
    {
      if j !in jobs {
        return T.CancelNotFound;
      }
      var row := jobs[j];
      if row.state.Queued? {
        jobs := jobs[j := row.(state := Canceled, finishedAt := Some(now))];
        AddEvent(j, now, CanceledEvent, None, NoDetail);
        return T.CancelOk;
      }
      if row.state.Running? {
        if !allowRunning {
          return T.CancelRunningUnforced;
        }
        jobs := jobs[j := row.(state := Canceled, lockedBy := None, lockedPid := None, lockedAt := None,
                               heartbeatAt := None, finishedAt := Some(now))];
        attempts := CloseWhere(attempts, ByJob(j), ByDisplacement(AttCanceled, now, "canceled", ReasonCanceled));
        AddEvent(j, now, CanceledEvent, None, WasRunning);
        return T.CancelOkRunning;
      }
      return T.CancelTerminal(jobs[j].state);
    }

    /** Deletes the matching jobs among `ids` and counts exactly the rows that disappear from each table. */
    method PruneDelete(ids: seq<nat>, states: set<JobState>, cutoff: Time) returns (r: T.Deleted)
      modifies this
      ensures View() == T.PruneDelete(old(View()), ids, states, cutoff)
      ensures r.jobs + |jobs| == |old(jobs)|
      ensures r.attempts + |attempts| == |old(attempts)|
      ensures r.events + |events| == |old(events)|
    {
      var goneJobs: nat, goneAttempts: nat, goneEvents: nat := 0, 0, 0;
      for i := 0 to |ids|
        invariant View() == T.PruneDelete(old(View()), ids[..i], states, cutoff)
        invariant goneJobs + |jobs| == |old(jobs)|
        invariant goneAttempts + |attempts| == |old(attempts)|
        invariant goneEvents + |events| == |old(events)|
      {
        var j := ids[i];
        assert Front(ids[..i + 1]) == ids[..i] && Last(ids[..i + 1]) == j;
        if T.Prunable(View(), j, states, cutoff) {
          var keptAttempts, keptEvents := AttemptsWithout(attempts, j), EventsWithout(events, j);
          FewerRows(attempts, events, j);
          goneAttempts := goneAttempts + (|attempts| - |keptAttempts|);
          attempts := keptAttempts;
          goneEvents := goneEvents + (|events| - |keptEvents|);
          events := keptEvents;
          goneJobs := goneJobs + 1;
          assert (jobs - {j}).Keys == jobs.Keys - {j};
          jobs := jobs - {j};
        }
      }
      assert ids[..|ids|] == ids;
      return T.Deleted(goneJobs, goneAttempts, goneEvents);
    }

    method UnsettledCount(lane: string, now: Time) returns (n: nat)
      ensures n == 0 <==> forall j <- jobs :: jobs[j].spec.queue == lane ==>
        !jobs[j].state.Running? && (jobs[j].state.Queued? ==> jobs[j].nextRunAt > now && jobs[j].attempts == 0)
    {
      var rows := T.Unsettled(View(), lane, now);
      n := |rows|;
      assert n == 0 <==> forall j <- jobs :: j !in rows;
    }
  }

  lemma {:induction false} FewerRows(attempts: seq<Attempt>, events: seq<Event>, j: nat)
    ensures |AttemptsWithout(attempts, j)| <= |attempts| && |EventsWithout(events, j)| <= |events|
    decreases |attempts| + |events|
  {
    if attempts != [] {
      FewerRows(Front(attempts), events, j);
    } else if events != [] {
      FewerRows(attempts, Front(events), j);
    }
  }
}
