/** One reap pass without interference (spoolctl/worker.py). With interference it is the walk of a process
    through its phases in module Fleet. */
module Reaper {
  import opened Models
  import opened Tables
  import opened Transactions
  import opened JobCell
  import opened StoreSteps
  import opened Fleet
  import opened Store

  /** The row is stale and its owner is confirmed dead. */
  predicate Doomed(db: Db, j: nat, cutoff: Time, dead: set<Pid>) {
    Stale(db, j, cutoff) && db.jobs[j].lockedPid.Some? && db.jobs[j].lockedPid.value in dead
  }

  /** The pass has been through the suspects of `prefix`, starting from `db`. */
  ghost predicate Passed(db: Db, jobs: map<nat, Job>, reaped: seq<nat>, prefix: seq<Suspect>, cutoff: Time,
                         now: Time, dead: set<Pid>) {
    && jobs.Keys == db.jobs.Keys
    && (forall j :: j in reaped <==> Doomed(db, j, cutoff, dead) && Handled(prefix, j))
    && (forall j <- db.jobs :: jobs[j] == if j in reaped then ReapedRow(db.jobs[j], now) else db.jobs[j])
  }

  /** The transactions of a pass, one after the other, for the suspects whose death is confirmed. */
  function ReapAll(db: Db, found: seq<Suspect>, dead: set<Pid>, cutoff: Time, now: Time, reaper: string): Db {
    if found == [] then db
    else
      var before := ReapAll(db, Front(found), dead, cutoff, now, reaper);
      if Last(found).pid in dead then Reap(before, Last(found).job, Last(found).pid, cutoff, now, reaper).0 else before
  }

  /** Reaps every stale row whose owner the probe confirms dead, and no other; each such row goes through the crash
      path at the time the pass began. */
  method ReapPass(store: Store, now: Time, threshold: nat, found: seq<Suspect>, dead: set<Pid>, reaper: string)
    returns (reaped: seq<nat>)
    requires ListsStale(store.View(), now - threshold, found)
    requires forall i, k :: 0 <= i < k < |found| ==> found[i].job != found[k].job
    modifies store
    ensures store.jobs.Keys == old(store.jobs.Keys)
    ensures forall j <- old(store.jobs) ::
      store.jobs[j] == if old(Doomed(store.View(), j, now - threshold, dead)) then ReapedRow(old(store.jobs)[j], now)
                       else old(store.jobs)[j]
    ensures forall j :: j in reaped <==> old(Doomed(store.View(), j, now - threshold, dead))
    ensures store.View() == ReapAll(old(store.View()), found, dead, now - threshold, now, reaper)
  {
    hide ReapedRow, Reap, Handled, ListsStale;
    var cutoff := now - threshold;
    ghost var start := store.View();
    reaped := [];
    NobodyHandled(found);
    for i := 0 to |found|
      invariant Passed(start, store.jobs, reaped, found[..i], cutoff, now, dead)
      invariant store.View() == ReapAll(start, found[..i], dead, cutoff, now, reaper)
    {
      assert Front(found[..i + 1]) == found[..i];
      var x := found[i];
      ghost var before, was := store.jobs, reaped;
      ReapRow(store.View(), x.job, x.pid, cutoff, now, reaper);
      if x.pid in dead {
        var state := store.Reap(x.job, x.pid, cutoff, now, reaper);
        if state.Some? {
          reaped := reaped + [x.job];
        }
      }
      PassOne(start, before, was, found, i, cutoff, now, dead);
    }
    AllHandled(start, cutoff, found, dead);
    assert found[..|found|] == found;
  }

  /** What a pass does to one job, attempts and trail included: a doomed one goes through the crash path, every other
      one is left exactly as it was. */
  ghost predicate Reaped(db: Db, next: Db, j: nat, struck: bool, now: Time, reaper: string)
    requires j in db.jobs
  {
    && j in next.jobs
    && CellOf(next, j) == if struck && db.jobs[j].lockedPid.Some?
                          then Effect(CellOf(db, j), Crash(reaper, db.jobs[j].lockedPid.value, now)) else CellOf(db, j)
  }

  ghost predicate StruckBy(db: Db, j: nat, found: seq<Suspect>, cutoff: Time, dead: set<Pid>) {
    Doomed(db, j, cutoff, dead) && Handled(found, j)
  }

  /** A whole pass: the doomed jobs that are on the list crash, each once, and nothing else changes. */
  lemma {:induction false} PassReaps(db: Db, found: seq<Suspect>, dead: set<Pid>, cutoff: Time, now: Time,
                                     reaper: string)
    requires DbInv(db) && cutoff <= now
    requires forall x <- found :: Reapable(db, x.job, x.pid, cutoff)
    requires forall i, k :: 0 <= i < k < |found| ==> found[i].job != found[k].job
    ensures DbInv(ReapAll(db, found, dead, cutoff, now, reaper))
    ensures forall j <- db.jobs ::
      Reaped(db, ReapAll(db, found, dead, cutoff, now, reaper), j, StruckBy(db, j, found, cutoff, dead), now, reaper)
  {
    hide DbInv, Reap, Doomed, Effect, AttemptsOf, LogOf, Reaped, Handled;
    if found == [] {
      NobodyHandled(found);
      assert found[..0] == found;
      forall j <- db.jobs
        ensures Reaped(db, db, j, StruckBy(db, j, found, cutoff, dead), now, reaper)
      {
        UnstruckStays(db, j, now, reaper);
      }
    } else {
      var before := ReapAll(db, Front(found), dead, cutoff, now, reaper);
      assert forall x <- Front(found) :: x in found;
      PassReaps(db, Front(found), dead, cutoff, now, reaper);
      HandledOne(found, |found| - 1);
      assert found[..|found| - 1 + 1] == found;
      Distinct(found, |found| - 1);
      assert Last(found) in found;
      assert !StruckBy(db, Last(found).job, Front(found), cutoff, dead);
      forall j <- db.jobs
        ensures Reaped(db, ReapAll(db, found, dead, cutoff, now, reaper), j,
                       StruckBy(db, j, found, cutoff, dead), now, reaper)
      {
        ReapsOne(db, before, Last(found), dead, cutoff, now, reaper, j, StruckBy(db, j, Front(found), cutoff, dead));
      }
      ReapsOneInv(db, before, Last(found), dead, cutoff, now, reaper);
    }
  }

  lemma UnstruckStays(db: Db, j: nat, now: Time, reaper: string)
    requires j in db.jobs
    ensures Reaped(db, db, j, false, now, reaper)
  {
  }

  /** The next suspect's row is still as it was listed, so its reap commits; it touches that job alone. */
  lemma ReapsOne(db: Db, before: Db, x: Suspect, dead: set<Pid>, cutoff: Time, now: Time, reaper: string, j: nat,
                 struck: bool)
    requires DbInv(before) && cutoff <= now && Reapable(db, x.job, x.pid, cutoff) && j in db.jobs
    requires Reaped(db, before, x.job, false, now, reaper) && Reaped(db, before, j, struck, now, reaper)
    requires j == x.job ==> !struck
    ensures Reaped(db, if x.pid in dead then Reap(before, x.job, x.pid, cutoff, now, reaper).0 else before, j,
                   struck || (j == x.job && Doomed(db, j, cutoff, dead)), now, reaper)
  {
    hide DbInv, Reap, Effect, AttemptsOf, LogOf, Tidy, CanAct;
    if x.pid in dead {
      assert Reapable(before, x.job, x.pid, cutoff);
      ReapTouches(before, x.job, x.pid, cutoff, now, reaper);
      var next := Reap(before, x.job, x.pid, cutoff, now, reaper).0;
      assert j in next.jobs.Keys;
    }
  }

  lemma ReapsOneInv(db: Db, before: Db, x: Suspect, dead: set<Pid>, cutoff: Time, now: Time, reaper: string)
    requires DbInv(before) && cutoff <= now && Reapable(db, x.job, x.pid, cutoff)
    requires Reaped(db, before, x.job, false, now, reaper)
    ensures DbInv(if x.pid in dead then Reap(before, x.job, x.pid, cutoff, now, reaper).0 else before)
  {
    hide DbInv, Reap, Effect, AttemptsOf, LogOf, Touched;
    if x.pid in dead {
      assert Reapable(before, x.job, x.pid, cutoff);
      ReapTouches(before, x.job, x.pid, cutoff, now, reaper);
      TouchedKeepsInv(before, Reap(before, x.job, x.pid, cutoff, now, reaper).0, x.job, Crash(reaper, x.pid, now));
    }
  }

  lemma ReapRow(db: Db, j: nat, pid: Pid, cutoff: Time, now: Time, reaper: string)
    ensures var r := Reap(db, j, pid, cutoff, now, reaper);
      && (r.1.Some? <==> Reapable(db, j, pid, cutoff))
      && r.0.jobs == if r.1.Some? then db.jobs[j := ReapedRow(db.jobs[j], now)] else db.jobs
  {
    hide ReapedRow, CloseWhere;
  }

  lemma NobodyHandled(found: seq<Suspect>)
    ensures forall j :: !Handled(found[..0], j)
  {
  }

  /** Where the next suspect's row is still the one that was listed, the re-check passes. */
  lemma PassOne(db: Db, jobs: map<nat, Job>, reaped: seq<nat>, found: seq<Suspect>, i: nat, cutoff: Time,
                now: Time, dead: set<Pid>)
    requires i < |found| && Passed(db, jobs, reaped, found[..i], cutoff, now, dead) && ListsStale(db, cutoff, found)
    requires forall k, m :: 0 <= k < m < |found| ==> found[k].job != found[m].job
    ensures var x := found[i];
      && x.job in jobs && x.job in db.jobs && jobs[x.job] == db.jobs[x.job] && Reapable(db, x.job, x.pid, cutoff)
      && if x.pid in dead
         then Passed(db, jobs[x.job := ReapedRow(jobs[x.job], now)], reaped + [x.job], found[..i + 1],
                     cutoff, now, dead)
         else Passed(db, jobs, reaped, found[..i + 1], cutoff, now, dead)
  {
    hide ReapedRow, Handled;
    HandledOne(found, i);
    Distinct(found, i);
    assert found[i] in found;
  }

  lemma AllHandled(db: Db, cutoff: Time, found: seq<Suspect>, dead: set<Pid>)
    requires ListsStale(db, cutoff, found)
    ensures forall j :: Doomed(db, j, cutoff, dead) ==> Handled(found[..|found|], j)
  {
    forall j | Doomed(db, j, cutoff, dead)
      ensures Handled(found[..|found|], j)
    {
      assert Suspect(j, db.jobs[j].lockedPid.value) in found[..|found|];
    }
  }

  ghost predicate Handled(found: seq<Suspect>, j: nat) {
    exists x <- found :: x.job == j
  }

  lemma HandledOne(found: seq<Suspect>, i: nat)
    requires i < |found|
    ensures forall j :: Handled(found[..i + 1], j) <==> Handled(found[..i], j) || j == found[i].job
  {
    assert found[..i + 1] == found[..i] + [found[i]];
    forall j
      ensures Handled(found[..i + 1], j) <==> Handled(found[..i], j) || j == found[i].job
    {
      assert found[i] in found[..i + 1];
    }
  }

  lemma Distinct(found: seq<Suspect>, i: nat)
    requires i < |found| && forall k, m :: 0 <= k < m < |found| ==> found[k].job != found[m].job
    ensures !Handled(found[..i], found[i].job)
  {
  }
}
