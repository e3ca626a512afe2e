/** Enumerations and tunables of the queue (spoolctl/models.py). Time is integer seconds. */
module Models {

  type Time = int
  type Pid = int

  datatype Option<+T> = None | Some(value: T)

  // `Failed` is declared by the schema; no transaction ever writes it.
  datatype JobState = Queued | Running | Done | Failed | Dead | Canceled

  datatype AttemptState =
    | AttRunning | AttSucceeded | AttFailed | AttTimedOut | AttAbandoned | AttCanceled

  datatype Reason =
    | ProcessExit | Timeout | SpawnFailed | WorkerCrash | ReasonCanceled | ReasonUnknown

  datatype EventKind =
    | Added | Claimed | Succeeded | FailedEvent | TimedOutEvent | Reaped | DeadLettered | Retried | CanceledEvent

  const BACKOFF_BASE := 2
  const BACKOFF_CAP := 60

  /** The states that `wait` and `feedback` call settled, and the only ones `prune` accepts. */
  predicate Terminal(s: JobState) {
    s.Canceled? || s.Dead? || s.Done?
  }

  function Min(a: int, b: int): int {
    if a <= b then a else b
  }

  function Max(a: int, b: int): int {
    if a <= b then b else a
  }

  function Pow2(n: nat): (p: nat)
    ensures p > 0
  {
    if n == 0 then 1 else 2 * Pow2(n - 1)
  }

  /** Delay before the next run after `attempts` non-successes. */
  function BackoffSeconds(attempts: nat): nat
    requires attempts >= 1
  {
    Min(BACKOFF_CAP, BACKOFF_BASE * Pow2(attempts - 1))
  }

  /** The delays after the first `n` non-successes, added up. */
  function TotalBackoff(n: nat): nat {
    if n == 0 then 0 else TotalBackoff(n - 1) + BackoffSeconds(n)
  }

  /** The delay is the capped power of two, and its running total has a closed form. */
  lemma {:induction false} BackoffClosedForm(n: nat)
    requires n >= 1
    ensures BackoffSeconds(n) == Min(60, Pow2(n))
    ensures TotalBackoff(n) == if n <= 5 then Pow2(n + 1) - 2 else 62 + 60 * (n - 5)
  {
    assert Pow2(n) == 2 * Pow2(n - 1);
    if n == 1 {
      assert Pow2(0) == 1 && Pow2(1) == 2 && Pow2(2) == 4;
    } else {
      BackoffClosedForm(n - 1);
      PowersOfTwo();
      if n > 6 {
        AtLeast64(n - 1);
      }
    }
  }

  lemma PowersOfTwo()
    ensures Pow2(1) == 2 && Pow2(2) == 4 && Pow2(3) == 8 && Pow2(4) == 16
    ensures Pow2(5) == 32 && Pow2(6) == 64
  {
    assert Pow2(0) == 1;
    assert Pow2(3) == 2 * Pow2(2);
    assert Pow2(6) == 2 * Pow2(5);
  }

  lemma AtLeast64(n: nat)
    requires n >= 6
    ensures Pow2(n) >= 64
  {
    PowersOfTwo();
    if n > 6 {
      AtLeast64(n - 1);
    }
  }
}
