/** What the append-only event trail of one job says on its own: a replay into a picture of the job,
    and counts over the current budget round, the entries since the job was added or last retried. */
module Ledger {
  import opened Models
  import opened Tables

  // ----- replay -----

  /** One attempt as the trail shows it. */
  datatype Outcome = Outcome(
    worker: string, startedAt: Time, state: AttemptState, finishedAt: Option<Time>, error: Option<string>)

  /** A job as the trail shows it. `nextRunAt` is known from the first rewrite on. */
  datatype Picture = Picture(
    state: JobState,
    attempts: nat,
    crashes: nat,
    owner: Option<string>,
    startedAt: Option<Time>,
    finishedAt: Option<Time>,
    lastError: Option<string>,
    nextRunAt: Option<Time>,
    outcomes: seq<Outcome>)

  datatype Replayed = Blank | Live(p: Picture) | Illegal

  function Seal(os: seq<Outcome>, state: AttemptState, at: Time, error: Option<string>): seq<Outcome> {
    if os == [] then os
    else Front(os) + [Last(os).(state := state, finishedAt := Some(at), error := error)]
  }

  /** The picture after a non-success that is retried. */
  function Missed(p: Picture, at: Time, state: AttemptState, crash: bool, error: string): Picture {
    p.(state := Queued, attempts := p.attempts + 1, crashes := p.crashes + (if crash then 1 else 0),
       owner := None, finishedAt := Some(at), lastError := Some(error),
       nextRunAt := Some(at + BackoffSeconds(p.attempts + 1)),
       outcomes := Seal(p.outcomes, state, at, Some(error)))
  }

  /** A step of the replay; entries that cannot follow the picture are illegal. */
  function Advance(p: Picture, e: Entry): Replayed {
    match e.kind
    case Added => Illegal
    case Claimed =>
      if !p.state.Queued? || e.workerId.None? then Illegal
      else Live(p.(state := Running, owner := e.workerId, startedAt := Some(e.at),
                   outcomes := p.outcomes + [Outcome(e.workerId.value, e.at, AttRunning, None, None)]))
    case Succeeded =>
      if !p.state.Running? || e.workerId != p.owner then Illegal
      else Live(p.(state := Done, owner := None, finishedAt := Some(e.at), lastError := None,
                   outcomes := Seal(p.outcomes, AttSucceeded, e.at, None)))
    case FailedEvent =>
      if !p.state.Running? || e.workerId != p.owner || !e.detail.ErrorText? then Illegal
      else Live(Missed(p, e.at, AttFailed, false, e.detail.text))
    case TimedOutEvent =>
      if !p.state.Running? || e.workerId != p.owner || !e.detail.ErrorText? then Illegal
      else Live(Missed(p, e.at, AttTimedOut, false, e.detail.text))
    case Reaped =>
      if !p.state.Running? then Illegal else Live(Missed(p, e.at, AttAbandoned, true, "worker died"))
    case DeadLettered =>
      if !p.state.Queued? || p.attempts == 0 || p.finishedAt != Some(e.at) then Illegal
      else Live(p.(state := Dead, nextRunAt := Some(e.at)))
    case Retried =>
      if p.state.Queued? || p.state.Done? || (p.state.Running? <==> !e.detail.Forced?) then Illegal
      else Live(p.(state := Queued, attempts := 0, crashes := 0, owner := None, finishedAt := None,
                   lastError := None, nextRunAt := Some(e.at),
                   outcomes := if p.state.Running?
                     then Seal(p.outcomes, AttAbandoned, e.at, Some("force-retried")) else p.outcomes))
    case CanceledEvent =>
      if !p.state.Queued? && !p.state.Running? then Illegal
      else Live(p.(state := Canceled, owner := None, finishedAt := Some(e.at),
                   outcomes := if p.state.Running?
                     then Seal(p.outcomes, AttCanceled, e.at, Some("canceled")) else p.outcomes))
  }

  /** Replays a whole trail, which must open with `added`. */
  function Replay(log: seq<Entry>): Replayed {
    if log == [] then Blank
    else Resume(Replay(Front(log)), Last(log))
  }

  // ----- budget rounds -----

  predicate Resets(e: Entry) {
    e.kind.Added? || e.kind.Retried?
  }

  predicate Miss(e: Entry) {
    e.kind.FailedEvent? || e.kind.TimedOutEvent? || e.kind.Reaped?
  }

  /** Counts over one budget round, with the times of its first claim and its newest miss. */
  datatype Tally = Tally(claims: nat, misses: nat, crashes: nat, firstClaim: Option<Time>, lastMiss: Option<Time>)

  const NO_TALLY := Tally(0, 0, 0, None, None)

  function Count(t: Tally, e: Entry): Tally {
    if Resets(e) then NO_TALLY
    else
      Tally(t.claims + (if e.kind.Claimed? then 1 else 0),
            t.misses + (if Miss(e) then 1 else 0),
            t.crashes + (if e.kind.Reaped? then 1 else 0),
            if e.kind.Claimed? && t.firstClaim.None? then Some(e.at) else t.firstClaim,
            if Miss(e) then Some(e.at) else t.lastMiss)
  }

  /** The tally of the current round: everything since the job was added or last retried. */
  function Round(log: seq<Entry>): Tally {
    if log == [] then NO_TALLY else Count(Round(Front(log)), Last(log))
  }

  /** A claim at `at` waits out the delay of the round's k-th miss. */
  predicate WaitedOut(t: Tally, at: Time) {
    t.lastMiss.Some? ==> at >= t.lastMiss.value + Min(60, Pow2(t.misses))
  }

  /** Every claim of the trail waits out the delay of the miss before it, if its round has one. */
  ghost predicate Spaced(log: seq<Entry>) {
    forall i :: 0 <= i < |log| && log[i].kind.Claimed? ==> WaitedOut(Round(log[..i]), log[i].at)
  }

  /** No budget round of the trail, finished or not, has more than `most` claims. */
  ghost predicate RoundsWithin(log: seq<Entry>, most: nat) {
    forall i :: 0 <= i <= |log| ==> Round(log[..i]).claims <= most
  }

  /** The entries one transaction writes: one, and the dead letter after a miss that spends a budget. */
  function Letters(e: Entry, dead: bool): (r: seq<Entry>)
    ensures r != []
  {
    if dead then [e, Entry(e.at, DeadLettered, e.workerId, NoDetail)] else [e]
  }

  /** One replay step from any point. */
  function Resume(r: Replayed, e: Entry): Replayed {
    match r
    case Illegal => Illegal
    case Live(p) => Advance(p, e)
    case Blank =>
      if e.kind.Added? then Live(Picture(Queued, 0, 0, None, None, None, None, None, [])) else Illegal
  }

  lemma AppendedOne(log: seq<Entry>, e: Entry)
    ensures Round(log + [e]) == Count(Round(log), e)
    ensures Replay(log + [e]) == Resume(Replay(log), e)
  {
    assert Front(log + [e]) == log && Last(log + [e]) == e;
  }

  /** What a transaction's entries do to the counts and to the replay. */
  lemma AppendedLetters(log: seq<Entry>, e: Entry, dead: bool)
    ensures Round(log + Letters(e, dead)) == Count(Round(log), e)
    ensures Replay(log + Letters(e, dead)) ==
      if dead then Resume(Resume(Replay(log), e), Entry(e.at, DeadLettered, e.workerId, NoDetail))
      else Resume(Replay(log), e)
  {
    AppendedOne(log, e);
    if dead {
      var letter := Entry(e.at, DeadLettered, e.workerId, NoDetail);
      AppendedOne(log + [e], letter);
      assert log + Letters(e, dead) == log + [e] + [letter];
    }
  }

  lemma PrefixesOf(log: seq<Entry>, e: Entry)
    ensures forall i :: 0 <= i <= |log| ==> (log + [e])[..i] == log[..i]
    ensures (log + [e])[..|log| + 1] == log + [e]
    ensures log[..|log|] == log
  {
  }

  lemma GrowsByOne(log: seq<Entry>, e: Entry, most: nat)
    ensures RoundsWithin(log, most) && Count(Round(log), e).claims <= most ==> RoundsWithin(log + [e], most)
    ensures Spaced(log) && (e.kind.Claimed? ==> WaitedOut(Round(log), e.at)) ==> Spaced(log + [e])
  {
    AppendedOne(log, e);
    PrefixesOf(log, e);
    hide Round, Count, WaitedOut;
    assert forall i :: 0 <= i < |log| ==> (log + [e])[i] == log[i];
  }

  /** The whole-trail properties survive a transaction that respects them. */
  lemma GrowsByLetters(log: seq<Entry>, e: Entry, dead: bool, most: nat)
    ensures RoundsWithin(log, most) && Count(Round(log), e).claims <= most ==>
      RoundsWithin(log + Letters(e, dead), most)
    ensures Spaced(log) && (e.kind.Claimed? ==> WaitedOut(Round(log), e.at)) ==> Spaced(log + Letters(e, dead))
  {
    GrowsByOne(log, e, most);
    if dead {
      var letter := Letters(e, dead)[1];
      AppendedOne(log, e);
      GrowsByOne(log + [e], letter, most);
      assert log + Letters(e, dead) == log + [e] + [letter];
    }
  }
}
