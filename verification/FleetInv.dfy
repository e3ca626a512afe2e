/** The invariant of the whole fleet and its proof for every step, hence for every run. */
module FleetInv {
  import opened Models
  import opened Tables
  import opened Transactions
  import opened JobCell
  import opened StoreSteps
  import opened Fleet

  // ----- processes -----

  /** Incarnations are distinct and exist. */
  ghost predicate ProcsOk(s: Sys) {
    && (forall pid <- s.procs :: s.procs[pid].inc < |s.births| && s.procs[pid].firstAttempt <= s.db.nextAttempt)
    && (forall p, q :: p in s.procs && q in s.procs && s.procs[p].inc == s.procs[q].inc ==> p == q)
  }

  // ----- claims of all time -----

  /** Every row is on record under its own job and number. */
  ghost predicate RowsOnRecord(s: Sys) {
    forall j <- s.db.jobs :: forall k :: 0 <= k < |Rows(s, j)| ==>
      && Rows(s, j)[k].id in s.epochs
      && s.epochs[Rows(s, j)[k].id].job == j
      && s.epochs[Rows(s, j)[k].id].no == k + 1
  }

  /** Every recorded attempt of a retained job still has its row. */
  ghost predicate RecordsRetained(s: Sys) {
    forall a <- s.epochs :: s.epochs[a].job in s.db.jobs ==>
      && 0 < s.epochs[a].no <= |Rows(s, s.epochs[a].job)|
      && Rows(s, s.epochs[a].job)[s.epochs[a].no - 1].id == a
  }

  /** Every attempt id ever handed out is on record, and the retained ones are exactly the rows. */
  ghost predicate EpochsOk(s: Sys) {
    && (forall a :: a in s.epochs <==> 0 < a < s.db.nextAttempt)
    && (forall a <- s.epochs :: s.epochs[a].inc < |s.births| && s.epochs[a].job < s.db.nextJob)
    && RowsOnRecord(s)
    && RecordsRetained(s)
  }

  /** No two attempts of all time share job and number. */
  ghost predicate NumbersUnique(s: Sys) {
    forall a, b :: a in s.epochs && b in s.epochs && a != b ==>
      s.epochs[a].job != s.epochs[b].job || s.epochs[a].no != s.epochs[b].no
  }

  // ----- who holds what -----

  ghost predicate Runs(s: Sys, j: nat) {
    j in s.db.jobs && s.db.jobs[j].state.Running? && Rows(s, j) != []
  }

  /** The incarnation that claimed the newest attempt of `j`. */
  function Claimant(s: Sys, j: nat): nat {
    if Rows(s, j) != [] && Last(Rows(s, j)).id in s.epochs then s.epochs[Last(Rows(s, j)).id].inc else 0
  }

  /** A live process made exactly the attempts on record for its incarnation, none before it was born,
      and, while it is busy, none after the one it is busy with. */
  ghost predicate MadeBy(s: Sys, pid: Pid)
    requires pid in s.procs
  {
    var p := s.procs[pid];
    && (forall a <- s.epochs :: s.epochs[a].inc == p.inc ==>
          p.firstAttempt <= a && (p.phase.Busy? ==> a <= p.phase.attempt))
    && (forall j <- s.db.jobs :: forall k :: 0 <= k < |Rows(s, j)| && Rows(s, j)[k].id in s.epochs ==>
          && (Rows(s, j)[k].pid == pid && Rows(s, j)[k].id >= p.firstAttempt ==>
                s.epochs[Rows(s, j)[k].id].inc == p.inc)
          && (s.epochs[Rows(s, j)[k].id].inc == p.inc ==>
                Rows(s, j)[k].pid == pid && Rows(s, j)[k].workerId == p.workerId))
  }

  /** A busy process made the attempt it is busy with; a process that lost its row does not own it. */
  ghost predicate BusyOk(s: Sys, pid: Pid)
    requires pid in s.procs
  {
    var p := s.procs[pid];
    p.phase.Busy? ==>
      && p.phase.attempt in s.epochs
      && s.epochs[p.phase.attempt].inc == p.inc
      && s.epochs[p.phase.attempt].job == p.phase.job
      && (p.phase.lost ==> !Owns(s.db, p.phase.job, p.workerId, pid))
  }

  /** A row whose claimant lives is the row that process is busy with. */
  ghost predicate HeldOk(s: Sys, pid: Pid)
    requires pid in s.procs
  {
    var p := s.procs[pid];
    forall j <- s.db.jobs :: Runs(s, j) && Claimant(s, j) == p.inc ==>
      && p.phase.Busy? && p.phase.job == j && p.phase.attempt == Last(Rows(s, j)).id
      && s.db.jobs[j].startedAt == Some(p.floor)
  }

  ghost predicate HoldingsOk(s: Sys) {
    forall pid <- s.procs :: MadeBy(s, pid) && BusyOk(s, pid) && HeldOk(s, pid)
  }

  ghost predicate Inv(s: Sys) {
    DbInv(s.db) && ProcsOk(s) && EpochsOk(s) && NumbersUnique(s) && HoldingsOk(s)
  }

  // ----- a record that succeeds closes the attempt its worker claimed -----

  /** Ownership by worker id and pid is ownership by incarnation: no earlier or later process with the same
      id and pid can be mistaken for the one that is busy. */
  lemma OwnsNewest(s: Sys, pid: Pid)
    requires Inv(s) && pid in s.procs && s.procs[pid].phase.Busy?
    requires Owns(s.db, s.procs[pid].phase.job, s.procs[pid].workerId, pid)
    ensures var j := s.procs[pid].phase.job;
      && Runs(s, j)
      && Last(Rows(s, j)).id == s.procs[pid].phase.attempt
      && Claimant(s, j) == s.procs[pid].inc
      && s.db.jobs[j].startedAt == Some(s.procs[pid].floor)
  {
    var p := s.procs[pid];
    var j, a := p.phase.job, p.phase.attempt;
    OwnershipOf(s.db, j);
    AttemptsOfIn(s.db.attempts, s.db.nextAttempt, s.db.jobs.Keys, j);
    hide DbInv, Ownership, AttemptsOf, ProcsOk, NumbersUnique;
    var rows := Rows(s, j);
    var n := |rows| - 1;
    assert MadeBy(s, pid) && BusyOk(s, pid) && HeldOk(s, pid);
    assert rows[s.epochs[a].no - 1].id == a;
    assert rows[n].pid == pid && rows[n].id in s.epochs;
    assert rows[n].id >= a >= p.firstAttempt;
  }
}
