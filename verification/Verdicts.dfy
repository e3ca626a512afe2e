/** The feedback verdict (spoolctl/operations.py) and the heartbeat thread (spoolctl/worker.py). */
module Verdicts {
  import opened Models
  import opened Tables
  import opened Transactions
  import opened JobCell
  import opened Fleet
  import opened FleetInv
  import opened FleetDeeds
  import opened StoreSteps
  import opened Scenarios
  import opened Settlement
  import opened FleetRuns

  /** The reason of the newest attempt that did not succeed and has one. Rows come ordered by attempt number. */
  function LatestFailureReason(rows: seq<Attempt>): Option<Reason> {
    if rows == [] then None
    else if !Last(rows).state.AttSucceeded? && Last(rows).reason.Some? then Last(rows).reason
    else LatestFailureReason(Front(rows))
  }

  datatype Verdict = Verdict(
    terminal: bool, succeeded: Option<bool>, exitCode: Option<int>, reason: Option<Reason>, lastError: Option<string>,
    attemptsTotal: nat)

  function Feedback(job: Job, rows: seq<Attempt>): Verdict {
    var (code, reason) :=
      match job.state {
        case Done => (Some(0), None)
        case Dead => (if rows != [] then Last(rows).exitCode else None, LatestFailureReason(rows))
        case Canceled => (None, if rows != [] then Some(ReasonCanceled) else None)
        case Running => (None, None)
        case _ => if job.attempts > 0 then (job.lastExitCode, LatestFailureReason(rows)) else (None, None)
      };
    Verdict(Terminal(job.state),
            if job.state.Done? then Some(true)
            else if job.state.Dead? || job.state.Canceled? then Some(false) else None,
            code, reason, job.lastError, |rows|)
  }

  // ----- both reads on one snapshot -----

  /** In every reachable state the verdict on a dead job, or on one that waits for its next retry, is told by the
      newest attempt alone and agrees with the row: same exit code, same error, a reason, and that reason is a
      process exit exactly when there is an exit code. A done job's newest attempt succeeded with 0. A job without
      a live failure reports none. */
  lemma FeedbackFromOneSnapshot(s: Sys, j: nat)
    requires Reachable(s) && j in s.db.jobs
    ensures var job, rows, v := s.db.jobs[j], Rows(s, j), Feedback(s.db.jobs[j], Rows(s, j));
      && (job.state.Dead? || (job.state.Queued? && job.attempts > 0) ==>
            && rows != [] && !Last(rows).state.AttSucceeded?
            && v.exitCode == Last(rows).exitCode == job.lastExitCode
            && v.reason == Last(rows).reason && v.reason.Some?
            && v.lastError == Last(rows).error
            && (v.reason == Some(ProcessExit) <==> v.exitCode.Some?))
      && (job.state.Done? ==>
            && rows != [] && Last(rows).state.AttSucceeded?
            && v.exitCode == Last(rows).exitCode == Some(0) && v.reason.None?)
      && (job.state.Running? || (job.state.Queued? && job.attempts == 0) ==> v.exitCode.None? && v.reason.None?)
      && (job.state.Canceled? ==> v.exitCode.None? && v.reason == if rows == [] then None else Some(ReasonCanceled))
  {
    ReachableCell(s, j);
    hide Reachable, Accounting, Pacing, Provenance, Sourced, AttemptsOf, LogOf;
    assert OneStory(CellOf(s.db, j)) && Ownership(CellOf(s.db, j));
  }

  /** Whether the job has settled and how, in every reachable state: success is reported exactly for a done job, which
      is exactly a job whose newest attempt succeeded; failure exactly for a dead or canceled one; and no verdict
      exactly for a job that is still queued or running. */
  lemma FeedbackSaysHowItEnded(s: Sys, j: nat)
    requires Reachable(s) && j in s.db.jobs
    ensures var job, rows, v := s.db.jobs[j], Rows(s, j), Feedback(s.db.jobs[j], Rows(s, j));
      && (v.succeeded == Some(true) <==> job.state == Done)
      && (v.succeeded == Some(true) <==> rows != [] && Last(rows).state == AttSucceeded)
      && (v.succeeded == Some(false) <==> job.state == Dead || job.state == Canceled)
      && (v.succeeded == None <==> job.state == Queued || job.state == Running)
      && (v.terminal <==> job.state == Done || job.state == Dead || job.state == Canceled)
      && v.lastError == job.lastError && v.attemptsTotal == |rows|
  {
    ReachableCell(s, j);
    hide Reachable, Accounting, Pacing, Provenance, Sourced, AttemptsOf, LogOf, LatestFailureReason;
    assert OneStory(CellOf(s.db, j)) && Ownership(CellOf(s.db, j)) && AllTold(CellOf(s.db, j));
    if Rows(s, j) != [] {
      assert Told(Rows(s, j)[|Rows(s, j)| - 1]);
    }
  }

  // ----- the row from one read, the attempts from a later one -----

  /** The finished rows of before are still there, and rows were at most added. */
  predicate Extended(was: seq<Attempt>, now: seq<Attempt>) {
    |was| <= |now| && forall k :: 0 <= k < |was| && !was[k].state.AttRunning? ==> now[k] == was[k]
  }

  lemma ActExtends(c: Cell, a: Act)
    ensures Extended(c.attempts, Effect(c, a).attempts)
  {
  }

  /** The job's rows were extended, or it is gone for good with all of them. */
  ghost predicate Aged(was: seq<Attempt>, t: Sys, j: nat) {
    j < t.db.nextJob && if j in t.db.jobs then Extended(was, Rows(t, j)) else Rows(t, j) == []
  }

  lemma AgedStep(s: Sys, st: Step, was: seq<Attempt>, j: nat)
    requires Inv(s) && Enabled(s, st) && Aged(was, s, j) && Inv(Next(s, st))
    ensures Aged(was, Next(s, st), j)
  {
    hide Inv, DbInv, AttemptsOf, LogOf, RecordOf, Reap, Pick, PruneDelete, AddJob, RetryJob, CancelJob;
    hide UpdateHeartbeat, Grant;
    hide ListsStale, Effect, CanAct, Tidy, FreshCell;
    StepDeed(s, st);
    if j in s.db.jobs {
      JobStep(s, st, j);
      if FateOf(s, st, j).Acts? {
        ActExtends(CellOf(s.db, j), FateOf(s, st, j).act);
      }
    } else if j in Next(s, st).db.jobs {
      NewJobStep(s, st, j);
    }
    if j !in Next(s, st).db.jobs {
      NoRowsLeft(Next(s, st), j);
    }
  }

  lemma {:induction false} AgedOverRun(s: Sys, steps: seq<Step>, j: nat)
    requires Reachable(s) && Legal(s, steps) && j in s.db.jobs
    ensures Aged(Rows(s, j), After(s, steps), j)
  {
    hide Reachable, Inv, Next, Enabled, AttemptsOf, Aged;
    if steps == [] {
      AgedAtOnce(s, j);
    } else {
      AgedOverRun(s, Front(steps), j);
      ReachableOn(s, Front(steps));
      ReachableInv(After(s, Front(steps)));
      ReachableOn(s, steps);
      ReachableInv(After(s, steps));
      AgedStep(After(s, Front(steps)), Last(steps), Rows(s, j), j);
    }
  }

  lemma AgedAtOnce(s: Sys, j: nat)
    requires Reachable(s) && j in s.db.jobs
    ensures Aged(Rows(s, j), s, j)
  {
    hide Reachable, Inv, CellInv, TidyAttempts, TidyEvents, AttemptsOf;
    ReachableInv(s);
    InvDb(s);
  }

  /** Whether the verdict is one story with the row: the row's exit code, a reason, and that reason is a process
      exit exactly when there is an exit code. */
  predicate TellsOf(v: Verdict, job: Job) {
    v.exitCode == job.lastExitCode && v.reason.Some? && (v.reason == Some(ProcessExit) <==> v.exitCode.Some?)
  }

  /** The row holds a live failure: the job is dead, or waits for its next retry. */
  predicate Failing(job: Job) {
    job.state.Dead? || (job.state.Queued? && job.attempts > 0)
  }

  /** The attempt ended without success. */
  predicate Ended(a: Attempt) {
    !a.state.AttRunning? && !a.state.AttSucceeded?
  }

  /** The newest attempt that ended without success; only the newest attempt of all can be anything else. */
  function LastFailed(rows: seq<Attempt>): Attempt
    requires rows != [] && (Ended(Last(rows)) || |rows| > 1)
  {
    if Ended(Last(rows)) then Last(rows) else rows[|rows| - 2]
  }

  /** The rows of a retained job: all told, and all but the newest ended without success. */
  predicate Chronicle(rows: seq<Attempt>) {
    forall k :: 0 <= k < |rows| ==>
      && Told(rows[k]) && (rows[k].state.AttRunning? ==> Fresh(rows[k])) && (k < |rows| - 1 ==> Ended(rows[k]))
  }

  lemma ReasonOfLastFailed(rows: seq<Attempt>)
    requires Chronicle(rows) && rows != [] && (Ended(Last(rows)) || |rows| > 1)
    ensures LatestFailureReason(rows) == LastFailed(rows).reason && LastFailed(rows).reason.Some?
  {
    if !Ended(Last(rows)) {
      assert Ended(rows[|rows| - 2]) && Last(Front(rows)) == rows[|rows| - 2];
    }
  }

  lemma ReachableChronicle(s: Sys, j: nat)
    requires Reachable(s) && j in s.db.jobs
    ensures Chronicle(Rows(s, j))
    ensures Failing(s.db.jobs[j]) ==>
      && Rows(s, j) != [] && Ended(Last(Rows(s, j))) && Last(Rows(s, j)).exitCode == s.db.jobs[j].lastExitCode
      && s.db.jobs[j].lastExitCode != Some(0)
  {
    ReachableCell(s, j);
    hide Reachable, Accounting, Pacing, Provenance, Sourced, AttemptsOf, LogOf;
    assert AllTold(CellOf(s.db, j)) && Ownership(CellOf(s.db, j)) && OneStory(CellOf(s.db, j));
  }

  /** The verdict as the code computes it: the row is read in `s`, the attempts after `steps`, whatever they are. On a
      failing row it is one story if and only if the job was not pruned in between and the newer attempts, if any,
      tell the same: the last failure has an exit code exactly if the row has one, and, for a dead row, the newest
      attempt has the row's exit code. So it is one story if the job was not claimed again; and if it was claimed once
      and still runs, that holds for a row in backoff, and for a dead row only without an exit code. On a row without
      a live failure the verdict does not depend on the attempts, except that a canceled job has a reason exactly if
      it has attempts. */
  lemma FeedbackFromTwoReads(s: Sys, steps: seq<Step>, j: nat)
    requires Reachable(s) && Legal(s, steps) && j in s.db.jobs
    ensures var t, job, was, rows, v := After(s, steps), s.db.jobs[j], Rows(s, j), Rows(After(s, steps), j),
                                        Feedback(s.db.jobs[j], Rows(After(s, steps), j));
      && (Failing(job) && j in t.db.jobs ==> rows != [] && (Ended(Last(rows)) || |rows| > 1))
      && (Failing(job) ==>
            (TellsOf(v, job) <==>
              && j in t.db.jobs
              && (LastFailed(rows).exitCode.Some? <==> job.lastExitCode.Some?)
              && (job.state.Dead? ==> Last(rows).exitCode == job.lastExitCode)))
      && (Failing(job) && j in t.db.jobs && |rows| == |was| ==> TellsOf(v, job) && v == Feedback(job, was))
      && (Failing(job) && |rows| == |was| + 1 && Last(rows).state.AttRunning? ==>
            (TellsOf(v, job) <==> !job.state.Dead? || job.lastExitCode.None?))
      && (!Failing(job) && !job.state.Canceled? ==>
            v.exitCode == Feedback(job, was).exitCode && v.reason == Feedback(job, was).reason)
      && (job.state.Canceled? ==> v.exitCode.None? && v.reason == if rows == [] then None else Some(ReasonCanceled))
  {
    hide Reachable, Legal, After, AttemptsOf, LogOf, LatestFailureReason;
    var t := After(s, steps);
    AgedOverRun(s, steps, j);
    ReachableOn(s, steps);
    ReachableChronicle(s, j);
    NeverFailed(s, j);
    if Failing(s.db.jobs[j]) {
      if j in t.db.jobs {
        ReachableChronicle(t, j);
        FailingTells(s.db.jobs[j], Rows(s, j), Rows(t, j));
      } else {
        NoReason();
      }
    }
  }

  lemma NeverFailed(s: Sys, j: nat)
    requires Reachable(s) && j in s.db.jobs
    ensures !s.db.jobs[j].state.Failed?
  {
    ReachableCell(s, j);
    hide Reachable, Accounting, Pacing, Provenance, Sourced, OneStory, AllTold, AttemptsOf, LogOf;
  }

  lemma NoReason()
    ensures LatestFailureReason([]).None?
  {
  }

  lemma FailingTells(job: Job, was: seq<Attempt>, rows: seq<Attempt>)
    requires Failing(job) && Chronicle(was) && Chronicle(rows) && Extended(was, rows)
    requires was != [] && Ended(Last(was)) && Last(was).exitCode == job.lastExitCode && job.lastExitCode != Some(0)
    ensures rows != [] && (Ended(Last(rows)) || |rows| > 1)
    ensures var v := Feedback(job, rows);
      && (TellsOf(v, job) <==>
            && (LastFailed(rows).exitCode.Some? <==> job.lastExitCode.Some?)
            && (job.state.Dead? ==> Last(rows).exitCode == job.lastExitCode))
      && (|rows| == |was| ==> rows == was && TellsOf(v, job))
      && (|rows| == |was| + 1 && Last(rows).state.AttRunning? ==>
            (TellsOf(v, job) <==> !job.state.Dead? || job.lastExitCode.None?))
  {
    hide LatestFailureReason;
    assert rows[|was| - 1] == Last(was);
    if |rows| == |was| {
      assert forall k :: 0 <= k < |was| ==> !was[k].state.AttRunning?;
      assert rows == was;
    }
    ReasonOfLastFailed(rows);
    assert Told(LastFailed(rows)) && Told(Last(rows));
  }

  /** In terms of the steps between the reads: as long as no retry of a settled job is accepted and no prune removes
      it, the verdict is the one that a single snapshot gives. */
  lemma UnshakenReadsAgree(s: Sys, steps: seq<Step>, j: nat)
    requires Reachable(s) && Legal(s, steps) && j in s.db.jobs && Terminal(s.db.jobs[j].state)
    requires Unshaken(s, steps, j)
    ensures j in After(s, steps).db.jobs && Rows(After(s, steps), j) == Rows(s, j)
    ensures Feedback(s.db.jobs[j], Rows(After(s, steps), j)) == Feedback(s.db.jobs[j], Rows(s, j))
    ensures s.db.jobs[j].state.Dead? ==> TellsOf(Feedback(s.db.jobs[j], Rows(After(s, steps), j)), s.db.jobs[j])
  {
    hide Reachable, Legal, After, Unshaken, AttemptsOf, LogOf, Feedback, TellsOf;
    SettledExactly(s, steps, j);
    if s.db.jobs[j].state.Dead? {
      FeedbackFromTwoReads(s, steps, j);
    }
  }

  // ----- the two reads can tell two stories -----

  /** A dead job is retried and claimed between the reads: the verdict names a process exit but no exit code. */
  lemma RetriedBetweenTheReads(sub: Submission)
    requires sub.spec.maxRetries == 0
    ensures exists s: Sys, steps ::
      (SteadilyReachable(s) && 1 in s.db.jobs && s.db.jobs[1].state.Dead? && Legal(s, steps) && SteadyRun(s, steps)
       && Feedback(s.db.jobs[1], Rows(After(s, steps), 1)).exitCode.None?
       && Feedback(s.db.jobs[1], Rows(After(s, steps), 1)).reason == Some(ProcessExit))
  {
    hide Legal, After, SteadyRun, SteadilyReachable, Reachable, AttemptsOf, Feedback;
    var first := DiesOfOne(sub);
    var s := After(Init("out", 0), first);
    var steps := RetryAndClaim(s, sub.spec);
    ReclaimedDead(s, steps);
  }

  lemma ReclaimedDead(s: Sys, steps: seq<Step>)
    requires Reachable(s) && Legal(s, steps) && 1 in s.db.jobs && s.db.jobs[1].state.Dead?
    requires s.db.jobs[1].lastExitCode == Some(1)
    requires 1 in After(s, steps).db.jobs && After(s, steps).db.jobs[1].state.Running?
    requires OneMore(Rows(s, 1), Rows(After(s, steps), 1))
    ensures var v := Feedback(s.db.jobs[1], Rows(After(s, steps), 1)); v.exitCode.None? && v.reason == Some(ProcessExit)
  {
    hide Legal, After, SteadyRun, SteadilyReachable, Reachable, AttemptsOf, LatestFailureReason;
    var rows := Rows(After(s, steps), 1);
    ReachableOn(s, steps);
    ReachableChronicle(s, 1);
    ReachableChronicle(After(s, steps), 1);
    NewestRuns(After(s, steps), 1);
    ReasonOfLastFailed(rows);
    assert rows[|rows| - 2] == Last(Rows(s, 1));
  }

  /** A dead job is pruned between the reads: the verdict has no reason. */
  lemma PrunedBetweenTheReads(sub: Submission)
    requires sub.spec.maxRetries == 0
    ensures exists s: Sys, steps ::
      (SteadilyReachable(s) && 1 in s.db.jobs && s.db.jobs[1].state.Dead? && Legal(s, steps) && SteadyRun(s, steps)
       && Feedback(s.db.jobs[1], Rows(After(s, steps), 1)).reason.None?)
  {
    hide Legal, After, SteadyRun, SteadilyReachable, Reachable, AttemptsOf, AttemptsWithout, EventsWithout;
    hide LatestFailureReason;
    var first := DiesOfOne(sub);
    var s := After(Init("out", 0), first);
    var prune := Prune([1], {Dead}, s.clock + 1);
    EmptyRun(s);
    ExtendRun(s, [], prune);
    PruneOnlyOne(s.db, {Dead}, s.clock + 1);
    AgedOverRun(s, [] + [prune], 1);
    NoReason();
  }

  lemma PruneOnlyOne(db: Db, states: set<JobState>, cutoff: Time)
    requires Prunable(db, 1, states, cutoff)
    ensures 1 !in PruneDelete(db, [1], states, cutoff).jobs
  {
    hide AttemptsWithout, EventsWithout;
    assert Front([1]) == [] && Last([1]) == 1;
    assert PruneDelete(db, [], states, cutoff) == db;
  }

  // ----- the heartbeat thread -----

  /** One beat: the update raised, or it matched that many rows. */
  datatype BeatResult = Raised | MatchedRows(n: nat)

  predicate Proof(b: BeatResult) {
    b.MatchedRows? && b.n == 0
  }

  /** The heartbeat loop until it is stopped. The callback fires exactly once if some beat proves the loss, at the
      first such beat, after which no beat is sent; without such a beat, whatever was raised, it never fires. */
  method HeartbeatLoop(beats: seq<BeatResult>) returns (fired: nat, sent: nat)
    ensures sent <= |beats| && fired <= 1
    ensures fired == 1 <==> exists i :: 0 <= i < |beats| && Proof(beats[i])
    ensures fired == 1 ==> sent > 0 && Proof(beats[sent - 1]) && forall i :: 0 <= i < sent - 1 ==> !Proof(beats[i])
    ensures fired == 0 ==> sent == |beats|
  {
    fired, sent := 0, 0;
    while sent < |beats|
      invariant 0 <= sent <= |beats| && fired == 0
      invariant forall i :: 0 <= i < sent ==> !Proof(beats[i])
    {
      var beat := beats[sent];
      sent := sent + 1;
      if beat.Raised? {
        continue;
      }
      if beat.n == 0 {
        fired := fired + 1;
        return;
      }
    }
  }
}
