/** Every step keeps the fleet invariant. */
module FleetKeeps {
  import opened Models
  import opened Tables
  import opened Transactions
  import opened JobCell
  import opened StoreSteps
  import opened Fleet
  import opened FleetInv
  import opened FleetDeeds

  // ----- changes without a claim -----

  ghost predicate SameClaims(was: seq<Attempt>, now: seq<Attempt>) {
    && |now| == |was|
    && forall k :: 0 <= k < |was| ==>
         now[k].id == was[k].id && now[k].pid == was[k].pid && now[k].workerId == was[k].workerId
  }

  predicate SameLock(was: Job, now: Job) {
    now.state.Running? ==>
      was.state.Running? && now.startedAt == was.startedAt && now.lockedBy == was.lockedBy
        && now.lockedPid == was.lockedPid
  }

  /** Between two databases no attempt was made and no row got a new owner. */
  ghost predicate Calm(db: Db, next: Db) {
    && next.nextAttempt == db.nextAttempt && db.nextJob <= next.nextJob
    && forall j <- next.jobs ::
         && (j in db.jobs ==>
               SameClaims(AttemptsOf(db.attempts, j), AttemptsOf(next.attempts, j))
                 && SameLock(db.jobs[j], next.jobs[j]))
         && (j !in db.jobs ==>
               j >= db.nextJob && AttemptsOf(next.attempts, j) == [] && !next.jobs[j].state.Running?)
  }

  lemma ActIsCalm(c: Cell, a: Act)
    requires Ownership(c) && CanAct(c, a) && !a.Claim?
    ensures SameClaims(c.attempts, Effect(c, a).attempts) && SameLock(c.job, Effect(c, a).job)
  {
    hide Written, DeadLetters, BackoffSeconds, Locked, LockFree, Fresh;
    assert c.attempts != [] ==> forall cl :: SameClaims(c.attempts, CloseNewest(c.attempts, cl));
  }

  lemma DoesCalm(db: Db, next: Db, d: Deed)
    requires DbInv(db) && Does(db, next, d) && (d.On? ==> !d.act.Claim?)
    ensures Calm(db, next)
  {
    hide CellInv, Tidy, AttemptsOf, LogOf, Effect, CanAct, Ownership;
    match d
    case Nothing =>
    case Drop =>
      forall j <- next.jobs
        ensures j in db.jobs && CellOf(next, j) == CellOf(db, j)
      {
        assert j in db.jobs.Keys;
      }
    case Insert(sub, now) =>
      forall j <- next.jobs
        ensures if j in db.jobs then CellOf(next, j) == CellOf(db, j) else j == db.nextJob
      {
        assert j in db.jobs.Keys + {db.nextJob};
      }
    case On(j, a) =>
      OwnershipOf(db, j);
      ActIsCalm(CellOf(db, j), a);
      forall i <- next.jobs
        ensures i in db.jobs && (i != j ==> CellOf(next, i) == CellOf(db, i))
      {
        assert i in db.jobs.Keys;
      }
  }

  /** The same claims are on record before and after, and incarnations were at most added. */
  ghost predicate Quiet(s: Sys, t: Sys) {
    Calm(s.db, t.db) && t.epochs == s.epochs && s.births <= t.births
  }

  lemma QuietEpochs(s: Sys, t: Sys)
    requires EpochsOk(s) && NumbersUnique(s) && Quiet(s, t)
    ensures EpochsOk(t) && NumbersUnique(t)
  {
    hide AttemptsOf;
    forall j <- t.db.jobs, k | 0 <= k < |Rows(t, j)|
      ensures Rows(t, j)[k].id in t.epochs
      ensures t.epochs[Rows(t, j)[k].id].job == j && t.epochs[Rows(t, j)[k].id].no == k + 1
    {
      assert Rows(t, j)[k].id == Rows(s, j)[k].id;
    }
    forall a <- t.epochs | t.epochs[a].job in t.db.jobs
      ensures 0 < t.epochs[a].no <= |Rows(t, t.epochs[a].job)|
      ensures Rows(t, t.epochs[a].job)[t.epochs[a].no - 1].id == a
    {
      assert t.epochs[a].job in s.db.jobs;
    }
  }

  /** A quiet change alters neither what a process made nor whose row it is. */
  lemma QuietClaimants(s: Sys, t: Sys, j: nat)
    requires EpochsOk(s) && Quiet(s, t) && Runs(t, j)
    ensures Runs(s, j) && Claimant(t, j) == Claimant(s, j) && Last(Rows(t, j)).id == Last(Rows(s, j)).id
    ensures t.db.jobs[j].startedAt == s.db.jobs[j].startedAt
  {
    hide AttemptsOf;
  }

  /** A live process that is the same incarnation, bound to the same attempt if any, keeps its holdings. */
  lemma QuietMade(s: Sys, t: Sys, pid: Pid)
    requires EpochsOk(s) && Quiet(s, t) && pid in s.procs && pid in t.procs && MadeBy(s, pid)
    requires t.procs[pid].inc == s.procs[pid].inc && t.procs[pid].firstAttempt == s.procs[pid].firstAttempt
    requires t.procs[pid].workerId == s.procs[pid].workerId
    requires t.procs[pid].phase.Busy? ==>
      s.procs[pid].phase.Busy? && t.procs[pid].phase.attempt == s.procs[pid].phase.attempt
    ensures MadeBy(t, pid)
  {
    hide AttemptsOf;
    var p := t.procs[pid];
    forall j <- t.db.jobs, k | 0 <= k < |Rows(t, j)| && Rows(t, j)[k].id in t.epochs
      ensures Rows(t, j)[k].pid == pid && Rows(t, j)[k].id >= p.firstAttempt ==> t.epochs[Rows(t, j)[k].id].inc == p.inc
      ensures t.epochs[Rows(t, j)[k].id].inc == p.inc ==>
        Rows(t, j)[k].pid == pid && Rows(t, j)[k].workerId == p.workerId
    {
      assert Rows(t, j)[k].id == Rows(s, j)[k].id;
    }
  }

  lemma QuietSame(s: Sys, t: Sys, pid: Pid)
    requires EpochsOk(s) && HoldingsOk(s) && Quiet(s, t)
    requires pid in s.procs && pid in t.procs && t.procs[pid] == s.procs[pid]
    ensures MadeBy(t, pid) && BusyOk(t, pid) && HeldOk(t, pid)
  {
    QuietMade(s, t, pid);
    hide AttemptsOf, MadeBy;
    assert BusyOk(s, pid) && HeldOk(s, pid);
    forall j <- t.db.jobs | Runs(t, j)
      ensures Runs(s, j) && Claimant(t, j) == Claimant(s, j) && Last(Rows(t, j)).id == Last(Rows(s, j)).id
      ensures t.db.jobs[j].startedAt == s.db.jobs[j].startedAt
    {
      QuietClaimants(s, t, j);
    }
  }

  /** A process that is not busy before or after holds nothing, whatever it read or scanned. */
  lemma QuietIdle(s: Sys, t: Sys, pid: Pid, floor: Time, phase: Phase)
    requires EpochsOk(s) && HoldingsOk(s) && Quiet(s, t) && pid in s.procs && pid in t.procs
    requires !s.procs[pid].phase.Busy? && !phase.Busy?
    requires t.procs[pid] == s.procs[pid].(floor := floor, phase := phase)
    ensures MadeBy(t, pid) && BusyOk(t, pid) && HeldOk(t, pid)
  {
    assert MadeBy(s, pid) && HeldOk(s, pid);
    QuietMade(s, t, pid);
    hide AttemptsOf, MadeBy;
    forall j <- t.db.jobs | Runs(t, j)
      ensures Claimant(t, j) != t.procs[pid].inc
    {
      QuietClaimants(s, t, j);
    }
  }

  /** A beat keeps the holdings and raises the flag only when the row is lost. */
  lemma QuietBeat(s: Sys, t: Sys, pid: Pid, lost: bool)
    requires EpochsOk(s) && HoldingsOk(s) && Quiet(s, t) && pid in s.procs && pid in t.procs
    requires s.procs[pid].phase.Busy? && t.procs[pid] == s.procs[pid].(phase := s.procs[pid].phase.(lost := lost))
    requires lost ==> !Owns(s.db, s.procs[pid].phase.job, s.procs[pid].workerId, pid)
    ensures MadeBy(t, pid) && BusyOk(t, pid) && HeldOk(t, pid)
  {
    assert MadeBy(s, pid) && BusyOk(s, pid) && HeldOk(s, pid);
    QuietMade(s, t, pid);
    hide AttemptsOf, MadeBy;
    forall j <- t.db.jobs | Runs(t, j)
      ensures Runs(s, j) && Claimant(t, j) == Claimant(s, j) && Last(Rows(t, j)).id == Last(Rows(s, j)).id
      ensures t.db.jobs[j].startedAt == s.db.jobs[j].startedAt
    {
      QuietClaimants(s, t, j);
    }
  }

  /** After its record a process holds nothing: its row was closed, or was no longer its own. */
  lemma QuietRecord(s: Sys, t: Sys, pid: Pid, floor: Time)
    requires Inv(s) && Quiet(s, t) && pid in s.procs && pid in t.procs
    requires s.procs[pid].phase.Busy? && t.procs[pid] == s.procs[pid].(floor := floor, phase := Resting)
    requires !Owns(t.db, s.procs[pid].phase.job, s.procs[pid].workerId, pid)
    ensures MadeBy(t, pid) && BusyOk(t, pid) && HeldOk(t, pid)
  {
    hide DbInv, ProcsOk, NumbersUnique, AttemptsOf;
    assert MadeBy(s, pid) && HeldOk(s, pid);
    QuietMade(s, t, pid);
    forall j <- t.db.jobs | Runs(t, j)
      ensures Claimant(t, j) != t.procs[pid].inc
    {
      QuietClaimants(s, t, j);
      if Claimant(s, j) == s.procs[pid].inc {
        HeldIsOwned(s, pid, j);
      }
    }
  }

  /** The row a process is on record for is guarded by its own id and pid. */
  lemma HeldIsOwned(s: Sys, pid: Pid, j: nat)
    requires Inv(s) && pid in s.procs && Runs(s, j) && Claimant(s, j) == s.procs[pid].inc
    ensures Owns(s.db, j, s.procs[pid].workerId, pid)
  {
    OwnershipOf(s.db, j);
    hide DbInv, ProcsOk, NumbersUnique, AttemptsOf;
    assert MadeBy(s, pid);
    var k := |Rows(s, j)| - 1;
    assert Rows(s, j)[k].id in s.epochs;
  }

  /** A newborn process holds nothing, even if its pid and id were used before. */
  lemma QuietBirth(s: Sys, t: Sys, pid: Pid)
    requires Inv(s) && Quiet(s, t) && pid in t.procs
    requires t.procs[pid].inc == |s.births| && t.procs[pid].firstAttempt == s.db.nextAttempt
    requires t.procs[pid].phase.Resting?
    ensures MadeBy(t, pid) && BusyOk(t, pid) && HeldOk(t, pid)
  {
    hide DbInv, ProcsOk, AttemptsOf;
    QuietEpochs(s, t);
    forall j <- t.db.jobs, k | 0 <= k < |Rows(t, j)|
      ensures Rows(t, j)[k].id < s.db.nextAttempt
    {
      assert Rows(t, j)[k].id in t.epochs;
    }
    forall j <- t.db.jobs | Runs(t, j)
      ensures Claimant(t, j) < |s.births|
    {
      QuietClaimants(s, t, j);
      assert Rows(s, j)[|Rows(s, j)| - 1].id in s.epochs;
    }
  }

  // ----- a claim -----

  /** What a successful claim of job `j` by process `pid` changes. */
  ghost predicate Claims(s: Sys, t: Sys, pid: Pid, j: nat, now: Time) {
    && pid in s.procs && s.procs[pid].phase.Sweeping?
    && j in s.db.jobs && t.db.jobs.Keys == s.db.jobs.Keys
    && t.db.nextJob == s.db.nextJob && t.db.nextAttempt == s.db.nextAttempt + 1
    && t.births == s.births && t.clock == s.clock
    && t.procs == s.procs[pid := s.procs[pid].(floor := now, phase := Busy(j, s.db.nextAttempt, false))]
    && t.epochs == s.epochs[s.db.nextAttempt := Epoch(s.procs[pid].inc, j, |Rows(s, j)| + 1)]
    && |Rows(t, j)| == |Rows(s, j)| + 1
    && Rows(t, j)[..|Rows(s, j)|] == Rows(s, j)
    && Last(Rows(t, j)).id == s.db.nextAttempt && Last(Rows(t, j)).pid == pid
    && Last(Rows(t, j)).workerId == s.procs[pid].workerId
    && t.db.jobs[j].lockedPid == Some(pid) && t.db.jobs[j].startedAt == Some(now)
    && forall i <- s.db.jobs :: i != j ==> Rows(t, i) == Rows(s, i) && t.db.jobs[i] == s.db.jobs[i]
  }

  lemma ClaimClaims(s: Sys, pid: Pid, now: Time, lane: string, slots: Option<int>)
    requires Inv(s) && Enabled(s, ClaimJob(pid, now, lane, slots))
    requires DeedOf(s, ClaimJob(pid, now, lane, slots)).On?
    ensures Claims(s, Next(s, ClaimJob(pid, now, lane, slots)), pid,
                   DeedOf(s, ClaimJob(pid, now, lane, slots)).job, now)
  {
    var st := ClaimJob(pid, now, lane, slots);
    hide DbInv, Inv, AttemptsOf, LogOf, Grant, Pick, MaxAttemptNo, AttemptDir;
    InvDb(s);
    ClaimDeed(s, pid, now, lane, slots);
    var j := DeedOf(s, st).job;
    ClaimNumber(s.db, j);
    var t := Next(s, st);
    TouchedByClaim(s.db, t.db, j, DeedOf(s, st).act);
  }

  lemma TouchedByClaim(db: Db, next: Db, j: nat, a: Act)
    requires a.Claim? && Touched(db, next, j, a)
    ensures AttemptsOf(next.attempts, j) == AttemptsOf(db.attempts, j) + [a.row]
    ensures next.jobs[j] == ClaimedRow(db.jobs[j], a.row.workerId, a.row.pid, a.row.startedAt)
    ensures forall i <- db.jobs :: i != j ==>
      i in next.jobs && AttemptsOf(next.attempts, i) == AttemptsOf(db.attempts, i) && next.jobs[i] == db.jobs[i]
  {
    hide Tidy, AttemptsOf, LogOf, CanAct;
    assert CellOf(next, j) == Effect(CellOf(db, j), a);
    forall i <- db.jobs | i != j
      ensures i in next.jobs && AttemptsOf(next.attempts, i) == AttemptsOf(db.attempts, i) && next.jobs[i] == db.jobs[i]
    {
      assert i in next.jobs.Keys && CellOf(next, i) == CellOf(db, i);
    }
  }

  lemma ClaimNumber(db: Db, j: nat)
    requires DbInv(db) && j in db.jobs
    ensures MaxAttemptNo(AttemptsOf(db.attempts, j)) == |AttemptsOf(db.attempts, j)|
  {
    hide DbInv, AttemptsOf;
    OwnershipOf(db, j);
    NumberedMax(AttemptsOf(db.attempts, j));
  }

  lemma ClaimRows(s: Sys, t: Sys, pid: Pid, j: nat, now: Time)
    requires EpochsOk(s) && Claims(s, t, pid, j, now)
    ensures RowsOnRecord(t)
  {
    hide AttemptsOf, RecordsRetained;
    forall i <- t.db.jobs, k | 0 <= k < |Rows(t, i)|
      ensures Rows(t, i)[k].id in t.epochs
      ensures t.epochs[Rows(t, i)[k].id].job == i && t.epochs[Rows(t, i)[k].id].no == k + 1
    {
      assert i in s.db.jobs.Keys;
      assert (i == j && k == |Rows(s, j)|) || Rows(t, i)[k] == Rows(s, i)[k];
    }
  }

  lemma ClaimRetained(s: Sys, t: Sys, pid: Pid, j: nat, now: Time)
    requires EpochsOk(s) && Claims(s, t, pid, j, now)
    ensures RecordsRetained(t)
  {
    hide AttemptsOf, RowsOnRecord;
    forall a <- t.epochs | t.epochs[a].job in t.db.jobs
      ensures 0 < t.epochs[a].no <= |Rows(t, t.epochs[a].job)|
      ensures Rows(t, t.epochs[a].job)[t.epochs[a].no - 1].id == a
    {
      if a != s.db.nextAttempt {
        var i, k := s.epochs[a].job, s.epochs[a].no - 1;
        assert i in s.db.jobs.Keys && Rows(s, i)[k].id == a;
        assert Rows(t, i)[k] == Rows(s, i)[k];
      }
    }
  }

  lemma ClaimEpochs(s: Sys, t: Sys, pid: Pid, j: nat, now: Time)
    requires ProcsOk(s) && EpochsOk(s) && NumbersUnique(s) && Claims(s, t, pid, j, now)
    requires j < s.db.nextJob && 0 < s.db.nextAttempt
    ensures EpochsOk(t) && NumbersUnique(t)
  {
    ClaimRows(s, t, pid, j, now);
    ClaimRetained(s, t, pid, j, now);
    hide AttemptsOf, RowsOnRecord;
  }

  /** Except for the new one, the rows are those of before. */
  lemma ClaimOldRows(s: Sys, t: Sys, pid: Pid, j: nat, now: Time, i: nat, k: nat)
    requires EpochsOk(s) && Claims(s, t, pid, j, now) && i in t.db.jobs && k < |Rows(t, i)|
    ensures if i == j && k == |Rows(s, j)| then Rows(t, i)[k] == Last(Rows(t, j))
            else i in s.db.jobs && k < |Rows(s, i)| && Rows(t, i)[k] == Rows(s, i)[k] && Rows(s, i)[k].id in s.epochs
  {
    hide AttemptsOf, RecordsRetained;
    assert i in s.db.jobs.Keys;
  }

  lemma ClaimOthersMade(s: Sys, t: Sys, pid: Pid, j: nat, now: Time, q: Pid)
    requires ProcsOk(s) && EpochsOk(s) && HoldingsOk(s) && Claims(s, t, pid, j, now) && q in s.procs && q != pid
    ensures q in t.procs && MadeBy(t, q)
  {
    hide AttemptsOf, RowsOnRecord, RecordsRetained, BusyOk, HeldOk;
    assert MadeBy(s, q);
    assert s.procs[pid].inc != s.procs[q].inc;
    forall i <- t.db.jobs, k | 0 <= k < |Rows(t, i)|
      ensures if i == j && k == |Rows(s, j)| then Rows(t, i)[k] == Last(Rows(t, j))
              else i in s.db.jobs && k < |Rows(s, i)| && Rows(t, i)[k] == Rows(s, i)[k] && Rows(s, i)[k].id in s.epochs
    {
      ClaimOldRows(s, t, pid, j, now, i, k);
    }
  }

  /** A claim changes no other row's standing. */
  lemma ClaimOtherRuns(s: Sys, t: Sys, pid: Pid, j: nat, now: Time, i: nat)
    requires EpochsOk(s) && Claims(s, t, pid, j, now) && i != j && Runs(t, i)
    ensures Runs(s, i) && Claimant(s, i) == Claimant(t, i) && s.db.jobs[i] == t.db.jobs[i]
    ensures Last(Rows(t, i)) == Last(Rows(s, i))
  {
    hide AttemptsOf, RecordsRetained;
    assert i in s.db.jobs.Keys;
    assert Rows(s, i)[|Rows(s, i)| - 1].id in s.epochs;
  }

  lemma ClaimOthersHeld(s: Sys, t: Sys, pid: Pid, j: nat, now: Time, q: Pid)
    requires ProcsOk(s) && EpochsOk(s) && q in s.procs && HeldOk(s, q) && Claims(s, t, pid, j, now) && q != pid
    ensures q in t.procs && HeldOk(t, q)
  {
    hide AttemptsOf, RecordsRetained, RowsOnRecord;
    assert s.procs[pid].inc != s.procs[q].inc && Claimant(t, j) == s.procs[pid].inc;
    forall i <- t.db.jobs | Runs(t, i) && Claimant(t, i) == t.procs[q].inc
      ensures t.procs[q].phase.Busy? && t.procs[q].phase.job == i && t.procs[q].phase.attempt == Last(Rows(t, i)).id
      ensures t.db.jobs[i].startedAt == Some(t.procs[q].floor)
    {
      ClaimOtherRuns(s, t, pid, j, now, i);
    }
  }

  lemma ClaimOthersBusy(s: Sys, t: Sys, pid: Pid, j: nat, now: Time, q: Pid)
    requires ProcsOk(s) && EpochsOk(s) && q in s.procs && BusyOk(s, q) && Claims(s, t, pid, j, now) && q != pid
    ensures q in t.procs && BusyOk(t, q)
  {
    hide AttemptsOf, RecordsRetained, RowsOnRecord;
  }

  lemma ClaimOthers(s: Sys, t: Sys, pid: Pid, j: nat, now: Time, q: Pid)
    requires ProcsOk(s) && EpochsOk(s) && HoldingsOk(s) && Claims(s, t, pid, j, now) && q in s.procs && q != pid
    ensures q in t.procs && MadeBy(t, q) && BusyOk(t, q) && HeldOk(t, q)
  {
    hide AttemptsOf, MadeBy, RecordsRetained, BusyOk, HeldOk, ProcsOk, EpochsOk, Claims;
    ClaimOthersMade(s, t, pid, j, now, q);
    ClaimOthersBusy(s, t, pid, j, now, q);
    ClaimOthersHeld(s, t, pid, j, now, q);
  }

  lemma ClaimSelfMade(s: Sys, t: Sys, pid: Pid, j: nat, now: Time)
    requires ProcsOk(s) && EpochsOk(s) && pid in s.procs && MadeBy(s, pid) && Claims(s, t, pid, j, now)
    ensures pid in t.procs && MadeBy(t, pid)
  {
    hide AttemptsOf, RecordsRetained, RowsOnRecord;
    var p := t.procs[pid];
    forall i <- t.db.jobs, k | 0 <= k < |Rows(t, i)| && Rows(t, i)[k].id in t.epochs
      ensures Rows(t, i)[k].pid == pid && Rows(t, i)[k].id >= p.firstAttempt ==> t.epochs[Rows(t, i)[k].id].inc == p.inc
      ensures t.epochs[Rows(t, i)[k].id].inc == p.inc ==>
        Rows(t, i)[k].pid == pid && Rows(t, i)[k].workerId == p.workerId
    {
      ClaimSelfRow(s, t, pid, j, now, i, k);
    }
  }

  lemma ClaimSelfRow(s: Sys, t: Sys, pid: Pid, j: nat, now: Time, i: nat, k: nat)
    requires EpochsOk(s) && pid in s.procs && MadeBy(s, pid) && Claims(s, t, pid, j, now)
    requires i in t.db.jobs && k < |Rows(t, i)| && Rows(t, i)[k].id in t.epochs
    ensures var p, row := t.procs[pid], Rows(t, i)[k];
      && (row.pid == pid && row.id >= p.firstAttempt ==> t.epochs[row.id].inc == p.inc)
      && (t.epochs[row.id].inc == p.inc ==> row.pid == pid && row.workerId == p.workerId)
  {
    hide AttemptsOf, RecordsRetained, RowsOnRecord;
    ClaimOldRows(s, t, pid, j, now, i, k);
  }

  lemma ClaimSelfBusy(s: Sys, t: Sys, pid: Pid, j: nat, now: Time)
    requires pid in s.procs && Claims(s, t, pid, j, now)
    ensures pid in t.procs && BusyOk(t, pid)
  {
    hide AttemptsOf;
  }

  lemma ClaimSelfHeld(s: Sys, t: Sys, pid: Pid, j: nat, now: Time)
    requires ProcsOk(s) && EpochsOk(s) && pid in s.procs && HeldOk(s, pid) && Claims(s, t, pid, j, now)
    ensures pid in t.procs && HeldOk(t, pid)
  {
    hide AttemptsOf, RecordsRetained, RowsOnRecord;
    assert Claimant(t, j) == s.procs[pid].inc;
    forall i <- t.db.jobs | Runs(t, i) && i != j
      ensures Runs(s, i) && Claimant(s, i) == Claimant(t, i) && Claimant(t, i) != s.procs[pid].inc
      ensures s.db.jobs[i] == t.db.jobs[i]
    {
      ClaimOtherRuns(s, t, pid, j, now, i);
    }
  }

  lemma ClaimSelf(s: Sys, t: Sys, pid: Pid, j: nat, now: Time)
    requires ProcsOk(s) && EpochsOk(s) && HoldingsOk(s) && Claims(s, t, pid, j, now) && pid in s.procs
    ensures pid in t.procs && MadeBy(t, pid) && BusyOk(t, pid) && HeldOk(t, pid)
  {
    hide AttemptsOf, MadeBy, RecordsRetained, BusyOk, HeldOk, ProcsOk, EpochsOk, Claims;
    ClaimSelfMade(s, t, pid, j, now);
    ClaimSelfBusy(s, t, pid, j, now);
    ClaimSelfHeld(s, t, pid, j, now);
  }

  // ----- processes -----

  /** What a step does to the processes: one of them moves on, is born or dies, or none is concerned. */
  ghost predicate ProcsChange(s: Sys, t: Sys) {
    && s.births <= t.births
    && forall pid <- t.procs ::
         || (pid in s.procs && t.procs[pid].inc == s.procs[pid].inc
           && t.procs[pid].firstAttempt == s.procs[pid].firstAttempt)
         || (pid !in s.procs && t.births == s.births + [s.clock] && t.procs[pid].inc == |s.births|
             && t.procs[pid].firstAttempt == s.db.nextAttempt && t.procs.Keys == s.procs.Keys + {pid})
  }

  lemma StepChanges(s: Sys, st: Step)
    requires Enabled(s, st)
    ensures ProcsChange(s, Next(s, st))
  {
    hide ClaimNext, RecordOf, UpdateHeartbeat, AddJob, RetryJob, CancelJob, PruneDelete, Reap, ListsStale, AttemptsOf;
  }

  lemma StepProcs(s: Sys, st: Step)
    requires ProcsOk(s) && Enabled(s, st) && s.db.nextAttempt <= Next(s, st).db.nextAttempt
    ensures ProcsOk(Next(s, st))
  {
    hide Next, Enabled;
    StepChanges(s, st);
  }

  // ----- every step -----

  /** A step that makes no claim keeps what each process holds. */
  lemma StepHoldings(s: Sys, st: Step)
    requires Inv(s) && Enabled(s, st) && Quiet(s, Next(s, st))
    ensures HoldingsOk(Next(s, st))
  {
    hide DbInv, NumbersUnique, MadeBy, BusyOk, HeldOk, EpochsOk, Calm, ProcsOk, ListsStale;
    var t := Next(s, st);
    forall pid <- t.procs
      ensures MadeBy(t, pid) && BusyOk(t, pid) && HeldOk(t, pid)
    {
      StepHolder(s, st, pid);
    }
  }

  lemma StepHolder(s: Sys, st: Step, pid: Pid)
    requires Inv(s) && Enabled(s, st) && Quiet(s, Next(s, st)) && pid in Next(s, st).procs
    ensures MadeBy(Next(s, st), pid) && BusyOk(Next(s, st), pid) && HeldOk(Next(s, st), pid)
  {
    hide DbInv, NumbersUnique, MadeBy, BusyOk, HeldOk, EpochsOk, Calm, ProcsOk, ListsStale;
    hide RecordOf, Reap, PruneDelete, AddJob, RetryJob, CancelJob, AttemptsOf;
    var t := Next(s, st);
    if st.Spawn? && pid == st.pid {
      QuietBirth(s, t, pid);
    } else if t.procs[pid] == s.procs[pid] {
      QuietSame(s, t, pid);
    } else if st.SendBeat? {
      QuietBeat(s, t, pid, t.procs[pid].phase.lost);
    } else if st.RecordResult? {
      RecordEnds(s, st);
      QuietRecord(s, t, pid, t.procs[pid].floor);
    } else {
      if st.ClaimJob? {
        QuietClaim(s, st);
      }
      QuietIdle(s, t, pid, t.procs[pid].floor, t.procs[pid].phase);
    }
  }

  /** A claim that is quiet found nothing. */
  lemma QuietClaim(s: Sys, st: Step)
    requires Enabled(s, st) && Quiet(s, Next(s, st)) && st.ClaimJob?
    ensures Next(s, st).procs[st.pid].phase.Resting?
  {
    hide AttemptsOf, Pick;
  }

  /** After a record the row is not guarded by the recorder any more. */
  lemma RecordEnds(s: Sys, st: Step)
    requires Enabled(s, st) && st.RecordResult?
    ensures var p := s.procs[st.pid]; !Owns(Next(s, st).db, p.phase.job, p.workerId, st.pid)
  {
    hide CloseWhere, BackoffSeconds;
  }

  lemma StepQuiet(s: Sys, st: Step)
    requires Inv(s) && Enabled(s, st) && (DeedOf(s, st).On? ==> !DeedOf(s, st).act.Claim?)
    ensures Quiet(s, Next(s, st))
  {
    hide DbInv, Inv, Does, Calm;
    StepDeed(s, st);
    InvDb(s);
    DoesCalm(s.db, Next(s, st).db, DeedOf(s, st));
    hide RecordOf, Reap, PruneDelete, AddJob, RetryJob, CancelJob, AttemptsOf, UpdateHeartbeat, Pick;
  }

  /** The invariant holds after every enabled step. */
  lemma InvKept(s: Sys, st: Step)
    requires Inv(s) && Enabled(s, st)
    ensures Inv(Next(s, st))
  {
    hide DbInv, ProcsOk, EpochsOk, NumbersUnique, HoldingsOk, Does, Enabled, Next, DeedOf;
    var t, d := Next(s, st), DeedOf(s, st);
    StepDeed(s, st);
    StepCounters(s, st);
    StepProcs(s, st);
    if d.On? && d.act.Claim? {
      ClaimKept(s, st);
    } else {
      StepQuiet(s, st);
      QuietEpochs(s, t);
      StepHoldings(s, st);
    }
  }

  lemma StepCounters(s: Sys, st: Step)
    requires Enabled(s, st) && Performs(s, st)
    ensures s.db.nextAttempt <= Next(s, st).db.nextAttempt
    ensures DeedOf(s, st).On? && DeedOf(s, st).act.Claim? ==> st.ClaimJob?
  {
    hide RecordOf, Reap, PruneDelete, AddJob, RetryJob, CancelJob, AttemptsOf, UpdateHeartbeat, Pick, Tidy, CanAct;
    hide Effect;
  }

  lemma ClaimKept(s: Sys, st: Step)
    requires Inv(s) && Enabled(s, st) && st.ClaimJob? && DeedOf(s, st).On?
    ensures EpochsOk(Next(s, st)) && NumbersUnique(Next(s, st)) && HoldingsOk(Next(s, st))
  {
    hide CellInv, EpochsOk, NumbersUnique, ProcsOk, MadeBy, BusyOk, HeldOk, AttemptsOf;
    var t, j := Next(s, st), DeedOf(s, st).job;
    ClaimClaims(s, st.pid, st.now, st.lane, st.slots);
    ClaimEpochs(s, t, st.pid, j, st.now);
    ClaimSelf(s, t, st.pid, j, st.now);
    forall q <- t.procs
      ensures MadeBy(t, q) && BusyOk(t, q) && HeldOk(t, q)
    {
      if q != st.pid {
        ClaimOthers(s, t, st.pid, j, st.now, q);
      }
    }
  }

  // ----- every run -----

  lemma InitInv(root: string, clock: Time)
    ensures Inv(Init(root, clock))
  {
  }

  /** The invariant holds after every run. */
  lemma {:induction false} RunInv(s: Sys, steps: seq<Step>)
    requires Inv(s) && Legal(s, steps)
    ensures Inv(After(s, steps))
  {
    hide Inv, Next, Enabled;
    if steps != [] {
      RunInv(s, Front(steps));
      InvKept(After(s, Front(steps)), Last(steps));
    }
  }
}
