/** Idempotent submission: what a keyed add answers, and how exclusive a key is over every run. */
module Submissions {
  import opened Models
  import opened Tables
  import opened Transactions
  import opened JobCell
  import opened StoreSteps
  import opened Fleet
  import opened FleetInv
  import opened FleetDeeds
  import opened FleetKeeps
  import opened FleetRuns
  import opened Scenarios
  import opened Lanes

  // ----- comparing payloads -----

  /** The loop over both dictionaries' keys, in any order. */
  method DiffPayloads(existing: map<string, Value>, submitted: map<string, Value>)
    returns (diff: map<string, (Value, Value)>)
    ensures diff == PayloadDiff(existing, submitted)
  {
    hide Get;
    diff := map[];
    var todo := existing.Keys + submitted.Keys;
    while todo != {}
      invariant todo <= existing.Keys + submitted.Keys
      invariant forall k :: k in diff <==>
        (k in existing.Keys || k in submitted.Keys) && k !in todo && Get(existing, k) != Get(submitted, k)
      invariant forall k <- diff :: diff[k] == (Get(existing, k), Get(submitted, k))
      decreases |todo|
    {
      var k :| k in todo;
      if Get(existing, k) != Get(submitted, k) {
        diff := diff[k := (Get(existing, k), Get(submitted, k))];
      }
      todo := todo - {k};
    }
  }

  /** Two submissions have no execution difference exactly when all eight execution fields agree. */
  lemma NoDifferenceMeansSame(a: Spec, b: Spec)
    ensures PayloadDiff(ExecutionPayload(a), ExecutionPayload(b)).Keys == {} <==> a == b
  {
    hide ExecutionPayload, PayloadDiff;
    Fields(a);
    Fields(b);
    SameMaps(ExecutionPayload(a), ExecutionPayload(b));
  }

  lemma Fields(s: Spec)
    ensures var x := ExecutionPayload(s);
      && x.Keys == {"argv", "timeout_seconds", "max_retries", "priority", "queue", "cwd", "env", "max_crashes"}
      && x["argv"] == Words(s.argv) && x["timeout_seconds"] == Number(s.timeoutSeconds)
      && x["max_retries"] == Number(s.maxRetries) && x["priority"] == Number(s.priority)
      && x["queue"] == Text(s.queue) && x["cwd"] == TextOrNull(s.cwd)
      && x["env"] == Dict(s.env) && x["max_crashes"] == NumberOrNull(s.maxCrashes)
  {
  }

  lemma SameMaps(x: map<string, Value>, y: map<string, Value>)
    requires x.Keys == y.Keys
    ensures PayloadDiff(x, y).Keys == {} <==> x == y
  {
    var diff := PayloadDiff(x, y);
    if diff.Keys == {} {
      forall k <- x
        ensures k in y && x[k] == y[k]
      {
        assert k in y.Keys && k !in diff;
      }
    }
  }

  /** A keyed add against an active key writes nothing; it answers for the oldest holder and calls it a duplicate
      exactly when the eight execution fields agree. Without an active holder it inserts. */
  lemma KeyedAdd(s: Sys, sub: Submission, now: Time)
    requires Reachable(s) && sub.key.Some?
    ensures var r := AddJob(s.db, sub, now);
      && (r.1.Inserted? <==> forall j <- s.db.jobs :: !HoldsKey(s.db, j, sub.key.value))
      && (!r.1.Inserted? ==>
            && r.0 == s.db
            && HoldsKey(s.db, r.1.id, sub.key.value)
            && (forall j <- s.db.jobs :: HoldsKey(s.db, j, sub.key.value) ==> r.1.id <= j)
            && (r.1.Duplicate? <==> s.db.jobs[r.1.id].spec == sub.spec))
  {
    hide Reachable, Inv, ExecutionPayload, MetadataPayload, PayloadDiff, CellInv, TidyAttempts, TidyEvents;
    ReachableInv(s);
    InvDb(s);
    assert Tidy(s.db);
    var holder := FirstHolder(s.db, sub.key.value, s.db.nextJob);
    if holder.Some? {
      NoDifferenceMeansSame(s.db.jobs[holder.value].spec, sub.spec);
    }
  }

  // ----- keys over runs -----

  /** At most one queued or running job holds the key. */
  ghost predicate Exclusive(db: Db, key: string) {
    forall a, b :: HoldsKey(db, a, key) && HoldsKey(db, b, key) ==> a == b
  }

  lemma ActKeepsKey(c: Cell, a: Act)
    requires CanAct(c, a) && (a.Retry? ==> a.force)
    ensures Effect(c, a).job.key == c.job.key
    ensures Active(Effect(c, a).job) ==> Active(c.job)
  {
  }

  /** Only a plain retry or a submission makes a job active. */
  lemma HolderStep(s: Sys, st: Step, key: string, j: nat)
    requires Inv(s) && Enabled(s, st) && (st.RetryOne? ==> st.force) && HoldsKey(Next(s, st).db, j, key)
    ensures HoldsKey(s.db, j, key) || (st.Submit? && st.sub.key == Some(key) && j == s.db.nextJob
      && DeedOf(s, st).Insert?)
  {
    hide Inv, DbInv, AttemptsOf, LogOf, Effect, CanAct, FreshCell, Active, Tidy, Next, Enabled, FateOf;
    if j in s.db.jobs {
      JobStep(s, st, j);
      FateSource(s, st, j);
      if FateOf(s, st, j).Acts? {
        ActKeepsKey(CellOf(s.db, j), FateOf(s, st, j).act);
      }
    } else {
      NewJobStep(s, st, j);
      FreshIsQueued(st.sub, st.now);
      InsertsNew(s, st, j);
    }
  }

  lemma InsertsNew(s: Sys, st: Step, j: nat)
    requires Inv(s) && Enabled(s, st) && st.Submit? && j !in s.db.jobs && j in Next(s, st).db.jobs
    ensures DeedOf(s, st).Insert?
  {
    hide Inv, DbInv, AddJob;
    InvDb(s);
    AddAdds(s.db, st.sub, st.now);
  }

  lemma ExclusiveStep(s: Sys, st: Step, key: string)
    requires Inv(s) && Enabled(s, st) && (st.RetryOne? ==> st.force) && Exclusive(s.db, key)
    ensures Exclusive(Next(s, st).db, key)
  {
    hide Inv, Next, HoldsKey, Enabled;
    var t := Next(s, st);
    forall a, b | HoldsKey(t.db, a, key) && HoldsKey(t.db, b, key)
      ensures a == b
    {
      HolderStep(s, st, key, a);
      HolderStep(s, st, key, b);
      if !HoldsKey(s.db, a, key) || !HoldsKey(s.db, b, key) {
        InsertFoundNone(s, st, key);
      }
    }
  }

  lemma InsertFoundNone(s: Sys, st: Step, key: string)
    requires Inv(s) && Enabled(s, st) && st.Submit? && st.sub.key == Some(key) && DeedOf(s, st).Insert?
    ensures forall j: nat :: !HoldsKey(s.db, j, key)
  {
    hide Inv, CellInv, TidyAttempts, TidyEvents;
    InvDb(s);
    assert Tidy(s.db);
  }

  /** In every run whose retries are all forced ones, each key has at most one queued or running job. */
  lemma {:induction false} KeysAreExclusive(root: string, clock: Time, steps: seq<Step>, key: string)
    requires Legal(Init(root, clock), steps)
    requires forall i :: 0 <= i < |steps| && steps[i].RetryOne? ==> steps[i].force
    ensures Exclusive(After(Init(root, clock), steps).db, key)
  {
    hide Inv, Next, Enabled;
    if steps != [] {
      var s := Init(root, clock);
      KeysAreExclusive(root, clock, Front(steps), key);
      InitInv(root, clock);
      RunInv(s, Front(steps));
      ExclusiveStep(After(s, Front(steps)), Last(steps), key);
    }
  }

  /** A plain retry keeps a key exclusive exactly when the retried job does not have the key or nobody holds it. */
  lemma PlainRetryExactly(s: Sys, j: nat, now: Time, key: string)
    requires Reachable(s) && Exclusive(s.db, key) && RetryRefusal(s.db, j, false).None?
    ensures Exclusive(RetryJob(s.db, j, false, now).0, key) <==>
      (s.db.jobs[j].key == Some(key) ==> forall i <- s.db.jobs :: !HoldsKey(s.db, i, key))
  {
    var next := RetryJob(s.db, j, false, now).0;
    assert next.jobs == s.db.jobs[j := RetriedRow(s.db.jobs[j], now)];
    assert forall i: nat :: i != j ==> (HoldsKey(next, i, key) <==> HoldsKey(s.db, i, key));
    assert !HoldsKey(s.db, j, key) && (HoldsKey(next, j, key) <==> s.db.jobs[j].key == Some(key));
  }

  /** A plain retry that is accepted for a job with the key while another job holds it. */
  ghost predicate Clashes(s: Sys, st: Step, key: string) {
    && st.RetryOne? && !st.force && RetryRefusal(s.db, st.job, false).None?
    && s.db.jobs[st.job].key == Some(key) && exists i <- s.db.jobs :: HoldsKey(s.db, i, key)
  }

  lemma RetryClashes(s: Sys, st: Step, key: string)
    requires Reachable(s) && Enabled(s, st) && Exclusive(s.db, key) && st.RetryOne? && !st.force
    ensures Exclusive(Next(s, st).db, key) <==> !Clashes(s, st, key)
  {
    hide Reachable, Exclusive, CloseWhere, AddEvent, HoldsKey;
    if RetryRefusal(s.db, st.job, false).None? {
      PlainRetryExactly(s, st.job, st.now, key);
    }
  }

  /** Step by step: a key stays exclusive if and only if the step is not such a retry. */
  lemma ExclusiveExactly(s: Sys, st: Step, key: string)
    requires Reachable(s) && Enabled(s, st) && Exclusive(s.db, key)
    ensures Exclusive(Next(s, st).db, key) <==> !Clashes(s, st, key)
  {
    hide Reachable, Exclusive, Next, Enabled, Inv, HoldsKey;
    if st.RetryOne? && !st.force {
      RetryClashes(s, st, key);
    } else {
      ReachableInv(s);
      ExclusiveStep(s, st, key);
    }
  }

  ghost predicate Unclashed(s: Sys, steps: seq<Step>, key: string)
    requires Legal(s, steps)
  {
    steps == [] || (Unclashed(s, Front(steps), key) && !Clashes(After(s, Front(steps)), Last(steps), key))
  }

  ghost predicate AlwaysExclusive(s: Sys, steps: seq<Step>, key: string)
    requires Legal(s, steps)
  {
    Exclusive(After(s, steps).db, key) && (steps == [] || AlwaysExclusive(s, Front(steps), key))
  }

  /** Over whole runs: in every state of the run at most one active job holds the key, if and only if no plain retry
      was accepted for a job with the key while another job held it. */
  lemma {:induction false} ExclusiveOverRun(root: string, clock: Time, steps: seq<Step>, key: string)
    requires Legal(Init(root, clock), steps)
    ensures AlwaysExclusive(Init(root, clock), steps, key) <==> Unclashed(Init(root, clock), steps, key)
  {
    hide Inv, Next, Enabled, Clashes, Exclusive, Reachable;
    var s := Init(root, clock);
    if steps == [] {
      NobodyHolds(key);
    } else {
      ExclusiveOverRun(root, clock, Front(steps), key);
      StartReachable(s, Front(steps));
      if AlwaysExclusive(s, Front(steps), key) {
        ExclusiveExactly(After(s, Front(steps)), Last(steps), key);
      }
    }
  }

  lemma NobodyHolds(key: string)
    ensures Exclusive(EMPTY, key)
  {
  }

  /** The exclusion of plain retries is needed: canceling a keyed job, submitting its key again and retrying the
      first job leaves two active jobs under one key. */
  lemma PlainRetrySharesTheKey(sub: Submission, key: string)
    requires sub.key == Some(key)
    ensures var db1 := AddJob(EMPTY, sub, 0).0;
      var db2 := CancelJob(db1, 1, false, 0).0;
      var db3 := AddJob(db2, sub, 0).0;
      var db4 := RetryJob(db3, 1, false, 0).0;
      HoldsKey(db4, 1, key) && HoldsKey(db4, 2, key) && !Exclusive(db4, key)
  {
    var db1 := AddJob(EMPTY, sub, 0).0;
    assert db1.jobs == map[1 := NewRow(sub, 0)] && db1.nextJob == 2;
    var db2 := CancelJob(db1, 1, false, 0).0;
    assert db2.jobs.Keys == {1} && db2.jobs[1].state.Canceled? && db2.jobs[1].key == Some(key) && db2.nextJob == 2;
    assert FirstHolder(db2, key, 2).None?;
    var db3 := AddJob(db2, sub, 0).0;
    assert db3.jobs[1] == db2.jobs[1] && db3.jobs[2] == NewRow(sub, 0);
    var db4 := RetryJob(db3, 1, false, 0).0;
    assert db4.jobs[1].state.Queued? && db4.jobs[2] == NewRow(sub, 0);
    assert HoldsKey(db4, 1, key) && HoldsKey(db4, 2, key);
  }
}
