/** Crash recovery: the job of a dead worker can always be taken back, by nothing but another worker's reap pass. */
module Recovery {
  import opened Models
  import opened Tables
  import opened Transactions
  import opened JobCell
  import opened StoreSteps
  import opened Fleet
  import opened FleetInv
  import opened FleetDeeds
  import opened FleetRuns
  import opened Scenarios

  /** No operator takes part and nobody dies. */
  predicate WorkersAlone(steps: seq<Step>) {
    forall st <- steps :: !st.Submit? && !st.RetryOne? && !st.CancelOne? && !st.Prune? && !st.Die?
  }

  // ----- a pid that nobody has -----

  lemma {:induction false} AboveAll(pids: set<Pid>) returns (bound: Pid)
    ensures forall p :: p in pids ==> p < bound
    decreases pids
  {
    if p :| p in pids {
      var rest := AboveAll(pids - {p});
      bound := Max(rest, p + 1);
      forall q | q in pids
        ensures q < bound
      {
        assert q == p || q in pids - {p};
      }
    } else {
      bound := 0;
    }
  }

  // ----- the scan -----

  /** The stale rows below `bound` in the order of their numbers. */
  function StaleList(db: Db, cutoff: Time, bound: nat): (found: seq<Suspect>)
    ensures forall x <- found :: Reapable(db, x.job, x.pid, cutoff)
    ensures forall j: nat :: j < bound && Stale(db, j, cutoff) && db.jobs[j].lockedPid.Some? ==>
      Suspect(j, db.jobs[j].lockedPid.value) in found
  {
    if bound == 0 then []
    else
      var below, j := StaleList(db, cutoff, bound - 1), bound - 1;
      if Stale(db, j, cutoff) && db.jobs[j].lockedPid.Some?
      then below + [Suspect(j, db.jobs[j].lockedPid.value)] else below
  }

  lemma ScanFinds(s: Sys, cutoff: Time)
    requires Inv(s)
    ensures ListsStale(s.db, cutoff, StaleList(s.db, cutoff, s.db.nextJob))
  {
    hide Inv, CellInv, TidyAttempts, TidyEvents, Stale;
    InvDb(s);
    assert Tidy(s.db);
  }

  function AtPhase(s: Sys, pid: Pid, phase: Phase): Sys
    requires pid in s.procs
  {
    s.(procs := s.procs[pid := s.procs[pid].(phase := phase)])
  }

  /** A pass can leave suspects alone whose death it cannot confirm. */
  lemma {:induction false} SkipTo(s: Sys, pid: Pid, now: Time, cutoff: Time, todo: seq<Suspect>, k: nat)
    returns (steps: seq<Step>)
    requires pid in s.procs && s.procs[pid].phase == Sweeping(now, cutoff, todo) && k <= |todo|
    ensures Legal(s, steps) && SteadyRun(s, steps) && WorkersAlone(steps)
    ensures After(s, steps) == AtPhase(s, pid, Sweeping(now, cutoff, todo[k..]))
    decreases k
  {
    hide Legal, After, SteadyRun;
    if k == 0 {
      EmptyRun(s);
      steps := [];
      assert todo[0..] == todo;
      assert s.procs[pid := s.procs[pid].(phase := Sweeping(now, cutoff, todo))] == s.procs;
    } else {
      var first := SkipTo(s, pid, now, cutoff, todo, k - 1);
      var probe := ProbeOwner(pid, false);
      ExtendRun(s, first, probe);
      steps := first + [probe];
      assert todo[k - 1..][1..] == todo[k..];
    }
  }

  // ----- the pass -----

  /** A new reaper that has read the clock. */
  function ReaperAt(s: Sys, pid: Pid, now: Time, cutoff: Time): Sys {
    s.(procs := s.procs[pid := Proc(|s.births|, "reaper", now, s.db.nextAttempt, Marked(now, cutoff))],
       clock := now, births := s.births + [now])
  }

  lemma ReaperArrives(s: Sys, pid: Pid, now: Time, threshold: nat) returns (steps: seq<Step>)
    requires pid !in s.procs && s.clock <= now
    ensures Legal(s, steps) && SteadyRun(s, steps) && WorkersAlone(steps)
    ensures After(s, steps) == ReaperAt(s, pid, now, now - threshold)
  {
    hide Legal, After, SteadyRun, ListsStale;
    var a, b, c := Tick(now), Spawn(pid, "reaper"), StartPass(pid, now, threshold);
    EmptyRun(s);
    ExtendRun(s, [], a);
    ExtendRun(s, [] + [a], b);
    ExtendRun(s, [] + [a] + [b], c);
    steps := [] + [a] + [b] + [c];
  }

  /** What a reaper's pass does to the job of `suspect`. */
  ghost predicate TakenBack(s: Sys, t: Sys, suspect: Suspect, cutoff: Time) {
    && Reapable(s.db, suspect.job, suspect.pid, cutoff)
    && t.db == Reap(s.db, suspect.job, suspect.pid, cutoff, t.clock, "reaper").0
  }

  /** The pass arrives at its suspect. */
  lemma ReaperFinds(s: Sys, pid: Pid, cutoff: Time, suspect: Suspect) returns (steps: seq<Step>, rest: seq<Suspect>)
    requires Inv(s) && pid in s.procs && s.procs[pid].phase == Marked(s.clock, cutoff)
    requires Reapable(s.db, suspect.job, suspect.pid, cutoff)
    ensures Legal(s, steps) && SteadyRun(s, steps) && WorkersAlone(steps)
    ensures After(s, steps) == AtPhase(s, pid, Sweeping(s.clock, cutoff, [suspect] + rest))
  {
    hide Legal, After, SteadyRun, Inv, ListsStale, StaleList, Stale;
    var found := StaleList(s.db, cutoff, s.db.nextJob);
    ScanFinds(s, cutoff);
    SuspectListed(s, cutoff, suspect);
    var k :| 0 <= k < |found| && found[k] == suspect;
    var scan := ScanStale(pid, found);
    EmptyRun(s);
    ExtendRun(s, [], scan);
    var skip := SkipTo(Next(s, scan), pid, s.clock, cutoff, found, k);
    JoinRun(s, [] + [scan], skip);
    steps, rest := [] + [scan] + skip, found[k + 1..];
    assert found[k..] == [suspect] + rest;
  }

  lemma ReaperTakes(s: Sys, pid: Pid, cutoff: Time, suspect: Suspect) returns (steps: seq<Step>)
    requires Inv(s) && pid in s.procs && s.procs[pid].phase == Marked(s.clock, cutoff)
      && s.procs[pid].workerId == "reaper"
    requires Reapable(s.db, suspect.job, suspect.pid, cutoff) && suspect.pid !in s.procs
    ensures Legal(s, steps) && SteadyRun(s, steps) && WorkersAlone(steps)
    ensures TakenBack(s, After(s, steps), suspect, cutoff)
  {
    hide Legal, After, SteadyRun, Inv, ListsStale, Reap, Stale;
    var first, rest := ReaperFinds(s, pid, cutoff, suspect);
    var probe, reap := ProbeOwner(pid, true), ReapStale(pid);
    ExtendRun(s, first, probe);
    ExtendRun(s, first + [probe], reap);
    steps := first + [probe] + [reap];
  }

  lemma SuspectListed(s: Sys, cutoff: Time, suspect: Suspect)
    requires Inv(s) && Reapable(s.db, suspect.job, suspect.pid, cutoff)
    ensures suspect in StaleList(s.db, cutoff, s.db.nextJob)
  {
    hide Inv, CellInv, TidyAttempts, TidyEvents, StaleList;
    InvDb(s);
    assert Tidy(s.db);
  }

  /** If nobody alive has the pid of a running row, a new worker can take the job back. */
  lemma TakeBack(s: Sys, j: nat, threshold: nat) returns (steps: seq<Step>, cutoff: Time)
    requires Reachable(s) && j in s.db.jobs && s.db.jobs[j].state.Running?
    requires s.db.jobs[j].lockedPid.Some? && s.db.jobs[j].lockedPid.value !in s.procs
    ensures Legal(s, steps) && SteadyRun(s, steps) && WorkersAlone(steps)
    ensures TakenBack(s, After(s, steps), Suspect(j, s.db.jobs[j].lockedPid.value), cutoff)
  {
    hide Legal, After, SteadyRun, Reachable, Inv, TakenBack;
    var pid := s.db.jobs[j].lockedPid.value;
    RunningIsLocked(s, j);
    var q := AboveAll(s.procs.Keys + {pid});
    var now := Max(s.clock, s.db.jobs[j].heartbeatAt.value + threshold + 1);
    cutoff := now - threshold;
    var first := ReaperArrives(s, q, now, threshold);
    var u := After(s, first);
    ReachableOn(s, first);
    ReachableInv(u);
    var second := ReaperTakes(u, q, cutoff, Suspect(j, pid));
    JoinRun(s, first, second);
    steps := first + second;
    TakenBackBefore(s, u, After(u, second), Suspect(j, pid), cutoff);
  }

  lemma TakenBackBefore(s: Sys, u: Sys, t: Sys, suspect: Suspect, cutoff: Time)
    requires u.db == s.db && TakenBack(u, t, suspect, cutoff)
    ensures TakenBack(s, t, suspect, cutoff)
  {
  }

  lemma RunningIsLocked(s: Sys, j: nat)
    requires Reachable(s) && j in s.db.jobs && s.db.jobs[j].state.Running?
    ensures s.db.jobs[j].lockedPid.Some? && s.db.jobs[j].heartbeatAt.Some?
  {
    ReachableCell(s, j);
    hide Reachable, Accounting, Pacing, Provenance, Sourced, OneStory, AllTold, AttemptsOf, LogOf;
  }

  /** From every reachable state, whatever its clocks showed, in which the worker that claimed a running job is dead,
      the job can be taken back without an operator: a new worker's reap pass commits the reap of that very job, for any
      threshold. At most, a process that got the dead worker's pid has to exit first, for while it lives no probe
      confirms the death. */
  lemma DeadWorkersJobComesBack(s: Sys, j: nat, threshold: nat)
    requires Reachable(s) && j in s.db.jobs && s.db.jobs[j].state.Running?
    requires forall p <- s.procs :: s.procs[p].inc != Claimant(s, j)
    ensures s.db.jobs[j].lockedPid.Some?
    ensures exists steps, cutoff: Time ::
      (WorkersAlone(steps) && Legal(s, FirstExits(s, j) + steps) && SteadyRun(s, FirstExits(s, j) + steps)
       && TakenBack(s, After(s, FirstExits(s, j) + steps), Suspect(j, s.db.jobs[j].lockedPid.value), cutoff))
  {
    hide Legal, After, SteadyRun, Reachable, Claimant, TakenBack;
    RunningIsLocked(s, j);
    var pid := s.db.jobs[j].lockedPid.value;
    EmptyRun(s);
    if pid in s.procs {
      var die := Die(pid);
      ExtendRun(s, [], die);
      assert [] + [die] == [die] == FirstExits(s, j);
      ReachableOn(s, [die]);
      var u := Next(s, die);
      var rest, cutoff := TakeBack(u, j, threshold);
      JoinRun(s, [die], rest);
      TakenBackBefore(s, u, After(u, rest), Suspect(j, pid), cutoff);
    } else {
      var steps, cutoff := TakeBack(s, j, threshold);
      assert FirstExits(s, j) + steps == steps;
    }
  }

  /** The exit of the process that has got the owner's pid, if there is one. */
  function FirstExits(s: Sys, j: nat): seq<Step> {
    if j in s.db.jobs && s.db.jobs[j].lockedPid.Some? && s.db.jobs[j].lockedPid.value in s.procs
    then [Die(s.db.jobs[j].lockedPid.value)] else []
  }
}
