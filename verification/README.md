# spoolctl, verified

spoolctl is a job queue without a daemon: any number of worker processes and operators share one SQLite
database and coordinate only through its transactions. This project models those transactions and the processes
that issue them, and proves what holds in every interleaving.

## How the model is built

- `Models`, `Tables`: the enumerations and the tables `jobs`, `attempts` and `job_events` with their
  AUTOINCREMENT counters. Time is integer seconds.
- `Transactions`: each `BEGIN IMMEDIATE ... COMMIT` is a function from database to database; a rollback returns the
  database it was given. `Store` is the object with these transactions as methods that rewrite its fields.
- `Answers`: what each transaction answers and writes, said on the columns of the rows before and after.
- `Ledger`, `JobCell`: one job's slice of the database (row, attempts, event trail), the acts a transaction can
  perform on it, and the per-job invariant with its proof.
- `StoreSteps`: every transaction is exactly one act on one slice and leaves every other slice untouched.
- `Fleet`: the protocol as a state machine. A worker process reads the clock, scans for stale rows, probes and
  reaps them one at a time, claims, beats, and records; it can die at any point, and its pid and worker id can be
  used again by a later process. Every transaction may use any clock reading whatever: clocks can be late, ahead, or set
  back. `FleetInv`, `FleetDeeds`, `FleetKeeps`, `FleetRuns` prove the invariant for every run.
- `Clocks`: a second invariant, for runs under a steady clock, one that is never set back and whose readings may be
  late as long as the same process took them. Only results that are about time itself, or that the code owes to
  comparing times, ask for it: the ones about reaping and double execution in `Custody`, `Budgets.DeathTakesItsTime`,
  `Lanes.PunctualDrain`, `Lanes.DrainedLaneStaysQuiet` and `Schedules.ClaimsKeepSchedule`.
- `Custody`, `Recovery`, `Budgets`, `Tightness`, `Lanes`, `Schedules`, `Settlement`, `Submissions`, `Outputs`, `Verdicts`: the promises
  over all runs.
- `Scenarios`: pieces of concrete runs, all under a steady clock, from which the runs that reach a bound or break a
  promise are put together.
- `EventFeed`, `FleetFeed`: readers of the event ledger. `Reaper`, `TailCut`, `Suggest`, `Brief`, `Decimal`:
  self-contained algorithms.

Assumptions, all visible in `Fleet.Enabled`: a probe never confirms the death of a pid that a live worker has; `prune` is
only asked for settled states. Retry budgets are natural numbers and crash budgets are natural numbers or absent.

The code differs from its documentation in three places, and the model follows the code. `docs/execution.md` gives 8
attempts for budgets of 3 retries and 2 crashes; the code allows 3 + 2 + 1 = 6, and that many are possible
(`Tightness.BudgetIsTight`). `docs/guarantees.md` says that a dead job is retried with `--force`; the code answers that
the forced retry raced, because force is for running jobs only. It also says that a hung worker is eventually reaped; the
code reaps only workers whose death is confirmed (`Custody.ReapSparesTheLiving`).

Several promises hold only under a condition. For each, the model has the exact condition and a run that breaks the
promise:

- Under a steady clock, everyone who executes a job owns it, in every state of a run, if and only if no operator took the
  job away (a forced retry, or a cancel of a running job) while a live worker was executing it
  (`Custody.EntitledOverRun`). Otherwise two live workers can end up executing it (`Custody.ForcedRetryCanDouble`,
  `Custody.CancelAndRetryCanDouble`). A clock that is set back can make a reap rob a live worker, so the steady clock
  is needed (`Custody.ClockSetBackRobs`).
- At most one active job holds an idempotency key, in every state of a run, if and only if no plain retry was accepted for
  a job with the key while another job held it (`Submissions.ExclusiveOverRun`, `Submissions.PlainRetrySharesTheKey`).
- `feedback` reads the row and the attempts with two SELECTs. Its verdict is one story with the row exactly when the
  job was not pruned in between and newer attempts, if any, tell the same (`Verdicts.FeedbackFromTwoReads`,
  `Verdicts.RetriedBetweenTheReads`, `Verdicts.PrunedBetweenTheReads`).
- `prune` reads the ids and each job's attempts with separate SELECTs. It unlinks exactly the output of attempts claimed
  before their matched job's attempts were read, which can include a running one (`Outputs.PruneUnlinksExactly`,
  `Outputs.PruneCanUnlinkRunning`).
- `wait` reads row by row. A poll breaks, on a row that is not there any more, exactly if a prune removed an awaited
  job between its first look and its read and the rows before it were settled (`Settlement.WaitBreaksExactly`,
  `Settlement.PruneBreaksWait`). A settled row is as it was read exactly as long as no retry of it is accepted and no prune
  removes it (`Settlement.VerdictHoldsExactly`, `Settlement.RetryFoolsWait`).
- A settled drain overlooks exactly the jobs whose newest event is a retry stamped after the drain's clock reading
  (`Lanes.DrainLeavesTheFuture`, `Lanes.LateDrainOverlooksRetry`).
- Under a steady clock no claim of a job reads a time before the start asked for, until a retry of it is accepted. Under
  any clock that holds for its first claim (`Schedules.ClaimsKeepSchedule`, `Schedules.FirstClaimKeepsSchedule`,
  `Schedules.ClockSetBackStartsEarly`).
- An event page whose two reads are apart skips an event exactly when its first read did not overfill the page and a
  wanted event was committed in between (`EventFeed.SplitPageSkips`, `FleetFeed.SubmissionSlipsThrough`).

## Model

| member | source | states |
|---|---|---|
| Models.BackoffClosedForm | spoolctl/models.py:277-279 | the n-th delay is min(60, 2^n) and the delays up to n add up to 2^(n+1)-2 for n <= 5 and to 62+60(n-5) beyond |
| Transactions.FirstHolder | spoolctl/store.py:614-622 | the row an add compares with is the lowest-numbered queued or running holder of the key, and there is none only if nobody holds it |
| Transactions.Pick | spoolctl/store.py:683-692 | the picked row is due in the lane and precedes every other due row; nothing is picked only if no row is due |
| Store.Store.constructor | spoolctl/store.py:119-142 | a new store is empty and numbers everything from 1 |
| Store.Store.AddEvent | spoolctl/store.py:1324-1335 | the ledger grows at its end by one event under the next id |
| Store.Store.AddJobChecked | spoolctl/store.py:592-655 | the method's writes and answer are those of the add transaction |
| Store.Store.ClaimNext | spoolctl/store.py:658-723 | the method's writes and answer are those of the claim transaction |
| Store.Store.RecordSuccess | spoolctl/store.py:731-762 | the method's writes and answer are those of the guarded success transaction |
| Store.Store.RecordFailure | spoolctl/store.py:768-855 | the method's writes and answer are those of the guarded failure transaction, rejected reasons included |
| Store.Store.UpdateHeartbeat | spoolctl/store.py:858-873 | one row is matched and beaten if the guard holds, otherwise none and nothing is written |
| Store.Store.Reap | spoolctl/store.py:887-938 | the method's writes and answer are those of the re-checked reap transaction |
| Store.Store.RetryJob | spoolctl/store.py:946-995 | the method's writes and answer are those of the retry transaction, with each refusal |
| Store.Store.CancelJob | spoolctl/store.py:1035-1094 | the method's writes and answer are those of the cancel transaction, with each refusal |
| Store.Store.PruneDelete | spoolctl/store.py:1130-1162 | deletes what the specification deletes, and each counter equals the number of rows its table lost |
| Store.Store.UnsettledCount | spoolctl/store.py:1165-1179 | the count is zero exactly when no row of the lane runs and every queued one is due later and has spent no attempt |
| Answers.AddAnswers | spoolctl/store.py:612-655 | an add inserts exactly if no active job holds the key; the new row has what was submitted, the start time asked for or the time of the add, and no history |
| Answers.AddCompares | spoolctl/store.py:514-589 | otherwise it answers with the state of the row it compares to; a conflict names exactly the execution fields that differ, a duplicate has none and reports exactly the metadata that differ, existing value first |
| Answers.ClaimWrites | spoolctl/store.py:693-723 | the claimed row is held and beaten by the worker since the claim and keeps its counters, schedule and last outcome; one open attempt and one event are added |
| Answers.SuccessAnswers | spoolctl/store.py:731-762 | a success is recorded exactly if the row runs for this worker; the answer is the row's new state, done with exit code 0 |
| Answers.FailureAnswers | spoolctl/store.py:768-855 | rejected exactly if the reason does not fit the kind, discarded exactly if the worker does not own the row, otherwise recorded with the row's new state: dead exactly if the failures that were not crashes exceed max_retries, else queued after min(60, 2^n) seconds |
| Answers.FailureEnds | spoolctl/store.py:818-830 | a recorded failure ends the named attempt with its kind, code, error and reason, changes no other, and logs one event, or two if the job is dead |
| Answers.HeartbeatAnswers | spoolctl/store.py:858-873 | a beat matches one row exactly if it runs for this worker, and rewrites its heartbeat and nothing else |
| Answers.ReapAnswers | spoolctl/store.py:900-938 | a reap commits exactly if the row runs under the pid with a heartbeat before the cutoff; the answer is the row's new state: dead exactly if this crash exceeds a bounded crash budget |
| Answers.ReapEnds | spoolctl/store.py:924-933 | it abandons the job's running attempt, changes no other, and logs one event, or two if the job is dead |
| Answers.RetryAnswers | spoolctl/store.py:956-995 | each answer to a retry, by the state before and the force flag; an accepted one clears counters, lock, finish, exit code and error and makes the job due at once |
| Answers.CancelAnswers | spoolctl/store.py:1050-1094 | each answer to a cancel, by the state before and the flag; an accepted one changes state and finish time and, for a running job, clears the lock |
| Answers.DrainAnswers | spoolctl/store.py:1165-1179 | the jobs that hold a drain open are exactly those of the lane that run, and those queued there that are due or have spent an attempt |
| JobCell.CellInvKept | spoolctl/store.py:704-717 | every act of every transaction, at whatever times, keeps the per-job invariant: ownership, budgets against the trail, delays, replay, one story, and what each attempt tells |
| JobCell.KeepsSourced | spoolctl/store.py:1324-1335 | after every act, replaying the job's trail is still legal and still shows the row and all attempts |
| StoreSteps.GrantTouches | spoolctl/store.py:691-717 | a claim is one act on the picked job, numbers its attempt one past the last, and leaves every other job's rows alone |
| StoreSteps.RecordSuccessTouches | spoolctl/store.py:742-757 | closing by attempt id closes the newest attempt of the guarded job and nothing else anywhere |
| StoreSteps.RecordFailureTouches | spoolctl/store.py:795-830 | the same for failures, with the requeue or the dead letter that the budget decides |
| StoreSteps.HeartbeatTouches | spoolctl/store.py:869-873 | a matched beat changes only the heartbeat of the guarded row |
| StoreSteps.ReapTouches | spoolctl/store.py:902-933 | a reap that passes its re-check is one crash act on that job alone |
| StoreSteps.RetryTouches | spoolctl/store.py:956-991 | an accepted retry is one act on that job alone and closes a running attempt if it was forced |
| StoreSteps.CancelTouches | spoolctl/store.py:1050-1089 | an accepted cancel is one act on that job alone and closes a running attempt if there is one |
| StoreSteps.AddAdds | spoolctl/store.py:612-655 | an insertion creates one fresh job under a number never used before; otherwise nothing is written |
| StoreSteps.PruneKeeps | spoolctl/store.py:1142-1158 | exactly the listed jobs that are in one of the states and finished before the cutoff disappear, with all their rows, and no other job changes |
| FleetDeeds.StepDeed | spoolctl/worker.py:212-261 | in every state that keeps the invariant, each step of any process or operator is one act on one job, one insertion, one deletion, or nothing |
| FleetKeeps.RunInv | spoolctl/worker.py:212-344 | every run of workers and operators, with deaths, recycled pids and arbitrary clocks, keeps the fleet invariant |
| Clocks.SteadyRunInv | spoolctl/worker.py:73-93 | every run under a steady clock keeps births, passes, starts, stamps and total delays in order as well |
| FleetRuns.JobStep | spoolctl/store.py:658-1162 | seen from one job, a step leaves it alone, performs one admissible act, or prunes it once it has settled |
| Custody.OwnershipOverRuns | spoolctl/store.py:658-762 | a job runs iff all four lock fields are set iff one attempt runs; that one is the newest, with the same worker and pid; attempts are numbered 1..n; no job is ever failed |
| Custody.RecordClosesOwnAttempt | spoolctl/worker.py:252-261 | a record that passes its guard closes the attempt which that very process incarnation claimed, and no other attempt changes (no ABA); one that does not writes nothing |
| Custody.ReapSparesTheLiving | spoolctl/worker.py:73-93 | under a steady clock a reap that commits hits an attempt whose claimant was born before the probe, had the probed pid, and is not alive |
| Custody.ClockSetBackRobs | spoolctl/store.py:902-910 | for every submission, a run with a clock set back in which a reap robs a live worker although no operator took its job away |
| Custody.EntitledExactly | spoolctl/store.py:965-989 | under a steady clock, step by step, everyone who executes a job keeps owning it if and only if the step does not take the job from a live worker that executes it |
| Custody.EntitledOverRun | spoolctl/store.py:1066-1087 | in every state of a run under a steady clock everyone who executes a job owns it, if and only if no step of the run took the job from a live worker |
| Custody.OneLiveExecutor | spoolctl/worker.py:43-54 | in a run under a steady clock that never takes a job from a live worker, no two live workers execute it at once; forced retries and cancels that displace nobody are allowed |
| Custody.ForcedRetryCanDouble | spoolctl/store.py:965-989 | for every submission, a run in which a forced retry leaves two live workers executing the job |
| Custody.CancelAndRetryCanDouble | spoolctl/store.py:1066-1087 | for every submission, a run without forced retries in which a cancel of the running job and a plain retry do the same |
| Custody.LostForGood | spoolctl/worker.py:125-140 | a beat matches zero rows, and raises the lost flag, exactly when its process does not own the row; then it writes nothing and in every continuation the attempt stays closed, its worker does not own it, and its record and beats write nothing |
| Custody.LossIsFinal | spoolctl/store.py:858-867 | the same from any state in which a busy process does not own its row, noticed or not |
| Recovery.DeadWorkersJobComesBack | spoolctl/worker.py:73-93 | from every reachable state in which a running job's claimant is dead, some continuation without an operator commits the reap of that job, once whoever has got the dead worker's pid has exited |
| Budgets.EventSourcing | spoolctl/store.py:1256-1267 | replaying a retained job's events reproduces its state, counters, owner, times, error, next run and every attempt's worker, times, outcome and error |
| Budgets.BudgetsOverRuns | spoolctl/store.py:806-813 | the row's counters are the counts of its trail since the last reset, both budgets hold while the job is active, and no round of the trail exceeds max_retries + max_crashes + 1 claims |
| Budgets.ClaimsArePaid | spoolctl/store.py:911-918 | without a retry a job is claimed at most as often as its budgets have left; with an unbounded crash budget, claims beyond the failure budget are matched by reaps |
| Budgets.ClaimsRunOut | spoolctl/store.py:984-989 | with bounded crash budgets, a run without retries claims the jobs it starts with no more often, in total, than the budgets have left |
| Budgets.ClaimsAddUp | spoolctl/store.py:674-717 | without submissions, the claims of a run are the claims on the jobs it starts with, added up |
| Budgets.RunClaimsAreBounded | spoolctl/store.py:806-813 | so a run without submissions and retries makes no more claims than the budgets have left at its start |
| Tightness.UnboundedCrashesNeverRunOut | spoolctl/store.py:911-918 | without a crash budget there is no such bound: for every n some run without a retry claims the job exactly n times |
| Tightness.BudgetIsTight | spoolctl/store.py:806-813 | for all budgets some run of worker processes that crash and fail, without a retry, makes exactly max_retries + max_crashes + 1 claims |
| Budgets.DelaysAreWaitedOut | spoolctl/store.py:683-689 | each claim in a trail that follows k non-successes of its round comes at least min(60, 2^k) after the newest of them |
| Budgets.DeathTakesItsTime | spoolctl/store.py:808-813 | under a steady clock a job dead of R+1 failures and no crash spent at least the closed-form sum of its delays since the round's first claim |
| Lanes.ClaimOrderIsTotal | spoolctl/store.py:684-689 | the claim order is a strict total order, so the first due row is unique |
| Lanes.ClaimTakesTheFirst | spoolctl/store.py:674-692 | a claim takes the queued row of the lane whose time has come with the highest priority, then the earliest time, then the lowest id; it takes nothing exactly when as many jobs of the lane run as there are slots or no such row exists |
| Lanes.FreeSlotIsUsed | spoolctl/store.py:674-717 | with a free slot and a due row, a claim makes exactly one more job of the lane run |
| Schedules.FirstClaimKeepsSchedule | spoolctl/store.py:639-645 | whatever the clocks show, the first claim of a job reads no time before the start asked for at its submission, until a retry is accepted |
| Schedules.ClaimsKeepSchedule | spoolctl/store.py:684-689 | under a steady clock the same holds for every claim |
| Schedules.ClockSetBackStartsEarly | spoolctl/store.py:808-813 | a run with a clock set back in which the second claim comes before the start asked for |
| Lanes.LaneCeiling | spoolctl/store.py:674-682 | if every claim on a lane passes at most K slots, at most K of its jobs are ever running |
| Lanes.DrainLeavesTheFuture | spoolctl/worker.py:327-339 | with whatever clock reading, a settled drain leaves only queued rows that are due later and have spent no attempt; such a row was attempted before if and only if its newest event is a retry stamped after that reading and an earlier one is a claim |
| Lanes.PunctualDrain | spoolctl/store.py:1165-1179 | under a steady clock, with a reading that is not late, such a row was never attempted |
| Lanes.LateDrainOverlooksRetry | spoolctl/store.py:1165-1179 | for every submission, a run in which a drain with a late clock reading settles over an attempted job |
| Lanes.DrainedLaneStaysQuiet | spoolctl/store.py:1165-1179 | under a steady clock, after a settled drain, without a submission to or retry in the lane, no claim there succeeds before the earliest start of the rows left |
| Settlement.SettledStays | spoolctl/store.py:965-983 | a settled job keeps its row, attempts and trail through every run that neither retries nor prunes it |
| Settlement.SettledExactly | spoolctl/store.py:965-983 | over any run, a settled job is as it was, row, attempts and trail, if and only if no retry of it was accepted and no prune removed it |
| Settlement.YoungerJobsSurvive | spoolctl/store.py:1146-1151 | a settled job outlives, with its attempts and trail, every prune whose cutoff is not later than its end |
| Settlement.SuccessIsFinal | spoolctl/store.py:976-978 | a done job never changes again in any run; if it is pruned its number is not used again |
| Settlement.SuccessIsUnique | spoolctl/store.py:742-757 | a job has a succeeded attempt if and only if it is done, and then only its newest one |
| Settlement.FindMissing | spoolctl/operations.py:997-1003 | reports exactly the ids that their own SELECT does not find |
| Settlement.PollOnce | spoolctl/operations.py:1006 | one SELECT per id, each on its own view; the last read of an id counts |
| Settlement.LookThrough | spoolctl/operations.py:1007-1008 | settled exactly if every row is there and terminal; broken exactly if a missing row comes before any unsettled one |
| Settlement.WaitOperation | spoolctl/operations.py:993-1019 | for any views whatever: the missing ids, or else the end at the first poll without an unsettled row before a missing one, with all rows settled and the right verdict or broken by the missing row, or a timeout after polls that all saw an unsettled row |
| Settlement.WaitBreaksExactly | spoolctl/operations.py:1006-1007 | once all jobs were found, a poll comes upon a missing row if and only if a prune removed an awaited job between its first look and its read and the rows before it were settled |
| Settlement.PruneBreaksWait | spoolctl/operations.py:1006-1007 | for every submission, a run in which a prune breaks a wait |
| Settlement.VerdictHoldsExactly | spoolctl/operations.py:1005-1019 | in every continuation of a wait a settled row is as it was read, attempts and trail included, if and only if no retry of it was accepted and no prune removed it since its read |
| Settlement.RetryFoolsWait | spoolctl/operations.py:1006-1008 | for every submission, a run in which a wait reports both of two jobs as settled while the first is queued again |
| Settlement.WaitIsStable | spoolctl/operations.py:1005-1019 | without a retry or prune of the awaited jobs a wait is not broken, and its verdict holds for all jobs together at return and ever after |
| Submissions.DiffPayloads | spoolctl/store.py:581-589 | the loop collects exactly the keys on which two payloads disagree, with both values |
| Submissions.NoDifferenceMeansSame | spoolctl/store.py:514-546 | two submissions have an empty execution difference exactly when all eight execution fields agree |
| Submissions.KeyedAdd | spoolctl/store.py:612-655 | an add against an active key writes nothing, answers for its oldest holder, and reports a duplicate exactly when the eight fields agree; otherwise it inserts |
| Submissions.ExclusiveOverRun | spoolctl/store.py:614-622 | in every state of a run at most one active job holds a key, if and only if no plain retry was accepted for a job with the key while another job held it |
| Submissions.KeysAreExclusive | spoolctl/store.py:614-622 | so in a run whose retries are all forced, each key has at most one queued or running job |
| Submissions.PlainRetryExactly | spoolctl/store.py:974-990 | a plain retry keeps a key exclusive exactly when the job does not have the key or nobody holds it |
| Submissions.PlainRetrySharesTheKey | spoolctl/store.py:984-990 | cancel, resubmit and retry leave two active jobs under one key |
| Outputs.PathsInjective | spoolctl/store.py:698-700 | job, attempt number and stream can be read off an output path |
| Outputs.OutputLayout | spoolctl/store.py:698-700 | in every reachable state an attempt's files stand under the output root in the directory of its job, and there in that of its number |
| Outputs.OutputsAreNeverShared | spoolctl/store.py:694-703 | no two attempts of any run, pruned ones included, have an output file in common |
| Outputs.PruneMatches | spoolctl/store.py:1097-1127 | the ids from the first read, in order, each with the output paths its own later read shows |
| Outputs.PruneUnlinksExactly | spoolctl/operations.py:546-567 | whatever happens between and after the reads, a retained attempt's output is unlinked if and only if its job matched in the first read and it was claimed before that job's attempts were read |
| Outputs.PruneSparesLaterOutput | spoolctl/operations.py:546-567 | no output of an attempt claimed after its job's attempts were read is unlinked |
| Outputs.PruneCanUnlinkRunning | spoolctl/store.py:1103-1116 | a run in which a retry and a claim between the two reads make a prune unlink the output of a running attempt |
| EventFeed.SnapshotPage | spoolctl/operations.py:383-401 | on one snapshot a page is exactly the wanted events up to its cursor, in id order, and the cursor does not rewind |
| EventFeed.SplitPageSkips | spoolctl/operations.py:389-396 | with its two reads apart, a page passes over an event exactly when its first read did not overfill it and a wanted event was committed between them |
| EventFeed.SkippedForGood | spoolctl/operations.py:383-401 | an event that a page passed over comes on no later page |
| FleetFeed.SubmissionSlipsThrough | spoolctl/operations.py:389-396 | for every submission and limit, a page that skips the submission's event |
| EventFeed.CursorsDeliverAll | spoolctl/operations.py:383-401 | following cursors with any limits, appends and prunes delivers in strictly ascending id order, loses no retained wanted event up to the cursor, and none at all once a page is not truncated |
| EventFeed.WriteRows | spoolctl/cli.py:1074-1085 | writes a poll's rows in order up to the event limit, with the cursor on the last one written; it stops early only at the limit |
| EventFeed.FollowEvents | spoolctl/cli.py:1057-1085 | the follow loop loses no wanted event up to its cursor and repeats none; if it is not cut short it has emitted every wanted event the last poll could see |
| FleetFeed.LedgerIsFollowable | spoolctl/store.py:1298-1335 | along every run the ledger only loses events to prunes and gains events with fresh ids |
| Verdicts.FeedbackFromOneSnapshot | spoolctl/operations.py:741-808 | with both reads on one snapshot, for dead jobs and jobs in backoff, exit code, reason and error come from the newest attempt and match the row; there is a reason, and it is a process exit exactly when there is an exit code; a done job's newest attempt succeeded with 0; a canceled job has a reason exactly if it was attempted |
| Verdicts.FeedbackSaysHowItEnded | spoolctl/operations.py:775-783 | success is reported exactly for done jobs, whose newest attempt succeeded; failure exactly for dead and canceled ones; nothing for queued and running ones |
| Verdicts.FeedbackFromTwoReads | spoolctl/operations.py:764-808 | with the attempts read later than the row, the verdict on a failing row is one story if and only if the job was not pruned in between, the last failure has an exit code exactly if the row has one, and, for a dead row, the newest attempt has the row's exit code |
| Verdicts.UnshakenReadsAgree | spoolctl/operations.py:764-771 | for a settled row, as long as no retry of it is accepted and no prune removes it between the reads, the verdict is the one a single snapshot gives |
| Verdicts.RetriedBetweenTheReads | spoolctl/operations.py:764-771 | a dead job retried and claimed between the reads: a process exit without an exit code |
| Verdicts.PrunedBetweenTheReads | spoolctl/operations.py:764-771 | a dead job pruned between the reads: no reason |
| Verdicts.HeartbeatLoop | spoolctl/worker.py:125-140 | the callback fires once, at the first beat that matches no row, after which no beat is sent; without such a beat it never fires, whatever was raised |
| Reaper.ReapPass | spoolctl/worker.py:73-93 | an uninterrupted pass reaps exactly the stale rows whose owner is confirmed dead, changes no other row, and writes what its reap transactions write, one after the other |
| Reaper.PassReaps | spoolctl/store.py:902-933 | over a whole pass each such job undergoes one crash act, attempts and trail included, and every other job is left exactly as it was |
| TailCut.Encode | spoolctl/operations.py:701-718 | a code point takes one to four bytes, of which all but the first are continuation bytes (section 3 of RFC 3629) |
| TailCut.ValueInvertsEncode | spoolctl/operations.py:701-718 | the encoding determines the code point |
| TailCut.CutTail | spoolctl/operations.py:712-718 | the loop keeps the tail without its leading continuation bytes, at most three of them |
| TailCut.DropsAtMostThree | spoolctl/operations.py:701-718 | for arbitrary bytes the result is a suffix that fits; at most three bytes of the tail are dropped, all of them continuation bytes |
| TailCut.KeepsLongestWholeSuffix | spoolctl/operations.py:701-718 | on valid UTF-8 the kept bytes encode the longest suffix of whole characters that fits |
| Suggest.CountDifferences | spoolctl/models.py:252-253 | the loop counts the positions at which two words of equal length differ |
| Suggest.OneInsertion | spoolctl/models.py:254-267 | the greedy two-pointer walk says yes exactly when the distance is at most one |
| Suggest.LevenshteinLeq1 | spoolctl/models.py:246-267 | for all pairs of words, true exactly when the Levenshtein distance is at most one |
| Suggest.SuggestFor | spoolctl/models.py:270-274 | the least candidate other than the word within distance one, or none exactly when there is none |
| Brief.RecountMonotone | spoolctl/schemas.py:628-629 | stating a larger count never shortens the text, and some count is at least the count of the text that states it |
| Brief.TokensCoverText | spoolctl/schemas.py:628-629 | the token count is the least number whose fourfold reaches the length of the text |
| Brief.BuildBrief | spoolctl/schemas.py:686-693 | the loop ends for every prefix, the text ends with exactly its own token count in readable digits, and that is the least count any text of this form can truthfully state |

## Left out

- SQLite itself: each write transaction is one atomic step and each SELECT one snapshot; WAL, locking, busy timeouts and JSON columns are not modelled.
- Schema migrations: runs start from an empty database at schema 6.
- Spawning, process groups, signals, timeouts and `ps`: only the result kinds of an execution and the soundness of a confirmed death are kept; whether a displaced child is killed is not claimed.
- A heartbeat that outlives its execution because the join timed out: beats are sent only while the process is busy.
- `work_loop`: its signal handling and its counter of executed jobs; what a settled drain means is modelled.
- `reap_pass`: a pass with interference is the walk of a process through its phases in `Fleet`; the contract of `Reaper.ReapPass` is about a pass without. The order in which stale rows are listed is left open.
- `cancel_job`: the answer for a row that changes state inside its own transaction, which cannot happen there.
- FollowEvents: does not model the stop signal and the idle timeout, which only end the loop between two events.
- WaitOperation: models the deadline as the number of reads it allows.
- `prune_operation`: directory removal, freed bytes and the dry run; the set of unlinked files is modelled.
- DiffPayloads: visits the keys in any order, since the result does not depend on it.
- `feedback` durations, stream tails and remediation texts; `show`, `list` and `status`; argument parsing, envelopes, configuration and doctor, which do not take part in the protocol.
