/** Readers of the event ledger: cursor pages (spoolctl/operations.py) and the follow loop (spoolctl/cli.py),
    over a ledger that grows and is pruned between reads. */
module EventFeed {
  import opened Models
  import opened Tables

  /** The retained events and the next id the table will hand out. */
  datatype Feed = Feed(rows: seq<Event>, next: nat)

  ghost predicate Ascending(rows: seq<Event>) {
    forall i, k :: 0 <= i < k < |rows| ==> rows[i].id < rows[k].id
  }

  ghost predicate Ordered(f: Feed) {
    Ascending(f.rows) && forall i :: 0 <= i < |f.rows| ==> 0 < f.rows[i].id < f.next
  }

  /** `g` is the ledger some time after `f`: events may have been deleted, and new ones have fresh ids. */
  ghost predicate Later(f: Feed, g: Feed) {
    Ordered(f) && Ordered(g) && f.next <= g.next && forall e <- g.rows :: e in f.rows || e.id >= f.next
  }

  lemma LaterTransitive(f: Feed, g: Feed, h: Feed)
    requires Later(f, g) && Later(g, h)
    ensures Later(f, h)
  {
    forall e <- h.rows
      ensures e in f.rows || e.id >= f.next
    {
      assert e in g.rows || e.id >= g.next;
    }
  }

  predicate Wanted(e: Event, job: Option<nat>, since: nat) {
    e.id > since && (job.Some? ==> e.jobId == job.value)
  }

  /** `WHERE id > ? [AND job_id = ?] ORDER BY id`. */
  function Matching(rows: seq<Event>, since: nat, job: Option<nat>): seq<Event> {
    if rows == [] then []
    else
      var rest := Matching(Front(rows), since, job);
      if Last(rows).id > since && (job.None? || job.value == Last(rows).jobId) then rest + [Last(rows)] else rest
  }

  function ListEvents(rows: seq<Event>, since: nat, job: Option<nat>, limit: nat): seq<Event> {
    var all := Matching(rows, since, job);
    if 0 < limit < |all| then all[..limit] else all
  }

  function HighWater(rows: seq<Event>): nat {
    if rows == [] then 0 else Max(HighWater(Front(rows)), Last(rows).id)
  }

  lemma {:induction false} MatchingHas(rows: seq<Event>, since: nat, job: Option<nat>)
    ensures forall e :: e in Matching(rows, since, job) <==> e in rows && Wanted(e, job, since)
  {
    if rows != [] {
      assert Wanted(Last(rows), job, since) <==> Last(rows).id > since && (job.None? || job.value == Last(rows).jobId);
      hide Wanted;
      MatchingHas(Front(rows), since, job);
      assert rows == Front(rows) + [Last(rows)];
    }
  }

  lemma {:induction false} MatchingIs(rows: seq<Event>, since: nat, job: Option<nat>)
    requires Ascending(rows)
    ensures Ascending(Matching(rows, since, job))
    ensures forall e :: e in Matching(rows, since, job) <==> e in rows && Wanted(e, job, since)
  {
    hide Wanted;
    MatchingHas(rows, since, job);
    if rows != [] {
      var rest := Matching(Front(rows), since, job);
      MatchingIs(Front(rows), since, job);
      forall i | 0 <= i < |rest|
        ensures rest[i].id < Last(rows).id
      {
        assert rest[i] in Front(rows);
      }
    }
  }

  lemma {:induction false} HighWaterIs(rows: seq<Event>)
    requires Ascending(rows)
    ensures forall e <- rows :: e.id <= HighWater(rows)
    ensures rows != [] ==> HighWater(rows) == Last(rows).id
  {
    if rows != [] {
      HighWaterIs(Front(rows));
      assert forall e :: e in rows <==> e in Front(rows) || e == Last(rows);
      assert Front(rows) != [] ==> Last(Front(rows)).id < Last(rows).id;
    }
  }

  // ----- one page -----

  datatype Page = Page(events: seq<Event>, cursor: nat, truncated: bool)

  /** A page takes two reads: the events from `listed`, the high-water mark from `measured`. */
  function EventPage(listed: seq<Event>, measured: seq<Event>, since: nat, job: Option<nat>, limit: nat): Page {
    var rows := ListEvents(listed, since, job, if limit == 0 then 0 else limit + 1);
    var truncated := 0 < limit < |rows|;
    var events := if truncated then rows[..limit] else rows;
    Page(events, if truncated then Last(events).id else Max(since, HighWater(measured)), truncated)
  }

  /** More wanted events are listed than the page can hold. */
  predicate Overfull(rows: seq<Event>, since: nat, job: Option<nat>, limit: nat) {
    0 < limit < |Matching(rows, since, job)|
  }

  /** The page holds a prefix of the wanted events, which is all of them unless they are too many. */
  lemma PageIsPrefix(listed: seq<Event>, measured: seq<Event>, since: nat, job: Option<nat>, limit: nat)
    ensures var p, all := EventPage(listed, measured, since, job, limit), Matching(listed, since, job);
      && (p.truncated <==> Overfull(listed, since, job, limit))
      && (if p.truncated then p.events == all[..limit] && p.cursor == all[limit - 1].id
          else p.events == all && p.cursor == Max(since, HighWater(measured)))
  {
    hide Matching, HighWater;
  }

  /** The first `limit` of too many wanted events are those up to the last one of them. */
  lemma CutLists(f: Feed, since: nat, job: Option<nat>, limit: nat)
    requires Ordered(f) && Overfull(f.rows, since, job, limit)
    ensures var all := Matching(f.rows, since, job); var events, cursor := all[..limit], all[limit - 1].id;
      && Ascending(events) && since < cursor < f.next
      && (forall e :: e in events <==> e in f.rows && Wanted(e, job, since) && e.id <= cursor)
  {
    MatchingIs(f.rows, since, job);
    var all := Matching(f.rows, since, job);
    hide Matching, Ordered;
    var events, cursor := all[..limit], all[limit - 1].id;
    assert all[limit - 1] in all;
    LastIsRetained(f, all[limit - 1]);
    forall e
      ensures e in events <==> e in all && e.id <= cursor
    {
      if e in all && e.id <= cursor {
        var i :| 0 <= i < |all| && all[i] == e;
        assert events[i] == e;
      }
    }
  }

  lemma LastIsRetained(f: Feed, e: Event)
    requires Ordered(f)
    ensures e in f.rows ==> e.id < f.next
  {
  }

  /** The page lists, in order, exactly the wanted events up to its cursor, or all of them if it is not truncated. */
  lemma PageLists(f: Feed, measured: seq<Event>, since: nat, job: Option<nat>, limit: nat)
    requires Ordered(f)
    ensures var p := EventPage(f.rows, measured, since, job, limit);
      && Ascending(p.events)
      && (p.truncated <==> Overfull(f.rows, since, job, limit))
      && (p.truncated ==> since < p.cursor < f.next)
      && (p.truncated ==> forall e :: e in p.events <==> e in f.rows && Wanted(e, job, since) && e.id <= p.cursor)
      && (!p.truncated ==> p.cursor == Max(since, HighWater(measured)))
      && (!p.truncated ==> forall e :: e in p.events <==> e in f.rows && Wanted(e, job, since))
  {
    hide EventPage, HighWater, Ascending, Wanted, Overfull, Matching;
    PageIsPrefix(f.rows, measured, since, job, limit);
    if Overfull(f.rows, since, job, limit) {
      CutLists(f, since, job, limit);
    } else {
      assert Ordered(f) ==> Ascending(f.rows);
      MatchingIs(f.rows, since, job);
    }
  }

  /** On one snapshot, the page lists exactly the wanted events up to its cursor, and the cursor never rewinds. */
  lemma SnapshotPage(f: Feed, since: nat, job: Option<nat>, limit: nat)
    requires Ordered(f)
    ensures var p := EventPage(f.rows, f.rows, since, job, limit);
      && Ascending(p.events)
      && since <= p.cursor && (p.cursor > since ==> p.cursor < f.next)
      && (forall e :: e in p.events <==> e in f.rows && Wanted(e, job, since) && e.id <= p.cursor)
      && (!p.truncated ==> forall e <- f.rows :: e.id <= p.cursor)
  {
    PageLists(f, f.rows, since, job, limit);
    HighWaterIs(f.rows);
    hide Matching, HighWater;
  }

  /** The page passes over the event: it lies up to the cursor, so no later page will have it, and is not listed. */
  ghost predicate Skips(p: Page, g: Feed, since: nat, job: Option<nat>, e: Event) {
    e in g.rows && Wanted(e, job, since) && e.id <= p.cursor && e !in p.events
  }

  /** With the two reads apart, a page can pass over an event for good: exactly when the first read did not find
      more than the page can hold and a wanted event was committed between the reads. */
  lemma SplitPageSkips(f: Feed, g: Feed, since: nat, job: Option<nat>, limit: nat)
    requires Later(f, g)
    ensures var p := EventPage(f.rows, g.rows, since, job, limit);
      (exists e :: Skips(p, g, since, job, e)) <==>
      (!Overfull(f.rows, since, job, limit) && exists e :: e in g.rows && Wanted(e, job, since) && e !in f.rows)
  {
    PageLists(f, g.rows, since, job, limit);
    HighWaterIs(g.rows);
    var p := EventPage(f.rows, g.rows, since, job, limit);
    hide Matching, HighWater, EventPage, Overfull;
    assert p.truncated ==> forall e <- g.rows :: e.id <= p.cursor ==> e in f.rows;
    assert !p.truncated ==> forall e <- g.rows :: e.id <= p.cursor;
    if e :| e in g.rows && Wanted(e, job, since) && e !in f.rows {
      assert e !in p.events;
      assert !p.truncated ==> Skips(p, g, since, job, e);
    }
  }

  // ----- following the cursors -----

  /** Pages of the given limits, each on its own snapshot, each from the cursor of the one before. */
  function Pages(feeds: seq<Feed>, limits: seq<nat>, start: nat, job: Option<nat>): (seq<Event>, nat)
    requires |limits| == |feeds|
  {
    if feeds == [] then ([], start)
    else
      var (seen, cursor) := Pages(Front(feeds), Front(limits), start, job);
      var p := EventPage(Last(feeds).rows, Last(feeds).rows, cursor, job, Last(limits));
      (seen + p.events, p.cursor)
  }

  ghost predicate History(feeds: seq<Feed>) {
    && (forall i :: 0 <= i < |feeds| ==> Ordered(feeds[i]))
    && (forall i :: 0 < i < |feeds| ==> Later(feeds[i - 1], feeds[i]))
  }

  /** What has been delivered by the time the cursor stands at `cursor`, given the newest snapshot. */
  ghost predicate Delivered(seen: seq<Event>, cursor: nat, start: nat, job: Option<nat>, f: Feed) {
    && Ascending(seen)
    && start <= cursor && (cursor > start ==> cursor < f.next)
    && (forall e <- seen :: Wanted(e, job, start) && e.id <= cursor)
    && (forall e <- f.rows :: Wanted(e, job, start) && e.id <= cursor ==> e in seen)
  }

  lemma DeliveredLater(seen: seq<Event>, cursor: nat, start: nat, job: Option<nat>, f: Feed, g: Feed)
    requires Delivered(seen, cursor, start, job, f) && Later(f, g)
    ensures Delivered(seen, cursor, start, job, g)
  {
    forall e <- g.rows | Wanted(e, job, start) && e.id <= cursor
      ensures e in seen
    {
      assert e in f.rows;
    }
  }

  /** Delivering the wanted events between two cursor positions, in order, keeps the record complete. */
  lemma DeliveredMore(seen: seq<Event>, cursor: nat, start: nat, job: Option<nat>, f: Feed, more: seq<Event>, to: nat)
    requires Delivered(seen, cursor, start, job, f)
    requires Ascending(more) && cursor <= to && (to > cursor ==> to < f.next)
    requires forall e :: e in more <==> e in f.rows && Wanted(e, job, cursor) && e.id <= to
    ensures Delivered(seen + more, to, start, job, f)
  {
    var all := seen + more;
    forall i, k | 0 <= i < k < |all|
      ensures all[i].id < all[k].id
    {
      if i < |seen| <= k {
        assert all[i] in seen && all[k] in more;
      } else if |seen| <= i {
        assert all[i] == more[i - |seen|] && all[k] == more[k - |seen|];
      }
    }
    assert forall e :: e in all <==> e in seen || e in more;
  }

  /** Following cursors, with any limits and any appends and prunes between pages: what is delivered is strictly
      ascending, so nothing comes twice; every wanted event that is still retained and lies up to the cursor was
      delivered; and once a page is not truncated that is every retained wanted event past the start. */
  lemma {:induction false} CursorsDeliverAll(feeds: seq<Feed>, limits: seq<nat>, start: nat, job: Option<nat>)
    requires |feeds| == |limits| > 0 && History(feeds)
    ensures var (seen, cursor) := Pages(feeds, limits, start, job);
      && Delivered(seen, cursor, start, job, Last(feeds))
      && Pages(Front(feeds), Front(limits), start, job).1 <= cursor
      && (!EventPage(Last(feeds).rows, Last(feeds).rows, Pages(Front(feeds), Front(limits), start, job).1, job,
                     Last(limits)).truncated ==>
            forall e <- Last(feeds).rows :: Wanted(e, job, start) ==> e in seen)
  {
    hide EventPage, Matching;
    var f := Last(feeds);
    var (seen, cursor) := Pages(Front(feeds), Front(limits), start, job);
    if |feeds| == 1 {
      assert Delivered(seen, cursor, start, job, f);
    } else {
      assert History(Front(feeds));
      CursorsDeliverAll(Front(feeds), Front(limits), start, job);
      assert Later(feeds[|feeds| - 2], feeds[|feeds| - 1]);
      DeliveredLater(seen, cursor, start, job, feeds[|feeds| - 2], f);
    }
    SnapshotPage(f, cursor, job, Last(limits));
    var p := EventPage(f.rows, f.rows, cursor, job, Last(limits));
    DeliveredMore(seen, cursor, start, job, f, p.events, p.cursor);
  }

  /** What a page skipped comes on no later page, however the ledger develops and whatever the limits are. */
  lemma SkippedForGood(p: Page, g: Feed, since: nat, job: Option<nat>, e: Event, feeds: seq<Feed>, limits: seq<nat>)
    requires Skips(p, g, since, job, e) && |feeds| == |limits| && History(feeds)
    ensures e !in Pages(feeds, limits, p.cursor, job).0
  {
    hide EventPage, Matching;
    if feeds != [] {
      CursorsDeliverAll(feeds, limits, p.cursor, job);
    }
  }

  // ----- the follow loop -----

  /** Every wanted event the ledger retains was emitted. */
  ghost predicate CaughtUp(emitted: seq<Event>, f: Feed, start: nat, job: Option<nat>) {
    forall e <- f.rows :: Wanted(e, job, start) ==> e in emitted
  }

  /** The loop stops for its limit exactly at the limit, with at least one event written. */
  predicate Within(count: nat, maxEvents: Option<nat>, enough: bool) {
    if enough then maxEvents.Some? && count == Max(1, maxEvents.value)
    else maxEvents.Some? ==> count == 0 || count < maxEvents.value
  }

  predicate CursorAt(emitted: seq<Event>, start: nat, cursor: nat) {
    cursor == if emitted == [] then start else Last(emitted).id
  }

  /** Writes the rows of one poll until the limit, and moves the cursor with each. */
  method WriteRows(rows: seq<Event>, before: seq<Event>, from: nat, maxEvents: Option<nat>)
    returns (emitted: seq<Event>, cursor: nat, enough: bool, i: nat)
    requires Within(|before|, maxEvents, false)
    ensures i <= |rows| && emitted == before + rows[..i]
    ensures cursor == if i == 0 then from else rows[i - 1].id
    ensures Within(|emitted|, maxEvents, enough) && (!enough ==> i == |rows|)
  {
    emitted, cursor, enough, i := before, from, false, 0;
    while i < |rows| && !enough
      invariant 0 <= i <= |rows| && emitted == before + rows[..i]
      invariant cursor == if i == 0 then from else rows[i - 1].id
      invariant Within(|emitted|, maxEvents, enough)
      decreases |rows| - i, !enough
    {
      emitted := emitted + [rows[i]];
      cursor := rows[i].id;
      i := i + 1;
      enough := maxEvents.Some? && |emitted| >= maxEvents.value;
    }
  }

  /** The follow loop: each poll is one read of everything past the cursor, and the cursor moves with each event
      written. `feeds` are the ledgers the polls see; the loop ends when they run out or enough was emitted. Whatever
      is appended or pruned between polls, no wanted event up to the cursor is lost and none comes twice; and if
      the loop was not cut short, that holds for every wanted event the last poll could see. */
  method FollowEvents(feeds: seq<Feed>, start: nat, job: Option<nat>, maxEvents: Option<nat>)
    returns (emitted: seq<Event>, cursor: nat, polled: nat, enough: bool)
    requires History(feeds)
    ensures polled <= |feeds| && (feeds != [] ==> polled > 0)
    ensures polled > 0 ==> Delivered(emitted, cursor, start, job, feeds[polled - 1])
    ensures CursorAt(emitted, start, cursor)
    ensures polled > 0 && !enough ==> polled == |feeds| && CaughtUp(emitted, feeds[polled - 1], start, job)
    ensures Within(|emitted|, maxEvents, enough)
  {
    hide Matching, Delivered, Later, History, CaughtUp, Ordered, Ascending, Wanted;
    emitted, cursor, polled, enough := [], start, 0, false;
    while polled < |feeds| && !enough
      invariant 0 <= polled <= |feeds|
      invariant polled > 0 ==> Delivered(emitted, cursor, start, job, feeds[polled - 1])
      invariant polled == 0 ==> emitted == [] && !enough
      invariant CursorAt(emitted, start, cursor)
      invariant polled > 0 && !enough ==> CaughtUp(emitted, feeds[polled - 1], start, job)
      invariant Within(|emitted|, maxEvents, enough)
      decreases |feeds| - polled
    {
      var f := feeds[polled];
      var rows := ListEvents(f.rows, cursor, job, 0);
      Resumes(feeds, polled, emitted, cursor, start, job);
      ghost var base, from := emitted, cursor;
      var i;
      emitted, cursor, enough, i := WriteRows(rows, emitted, cursor, maxEvents);
      EmittedSome(f, base, from, start, job, rows, i, cursor);
      polled := polled + 1;
    }
  }

  /** At the start of a poll the record is complete up to the cursor, for the new ledger too. */
  lemma Resumes(feeds: seq<Feed>, k: nat, seen: seq<Event>, cursor: nat, start: nat, job: Option<nat>)
    requires History(feeds) && k < |feeds|
    requires if k == 0 then seen == [] && cursor == start else Delivered(seen, cursor, start, job, feeds[k - 1])
    ensures Ordered(feeds[k]) && Delivered(seen, cursor, start, job, feeds[k])
  {
    if k > 0 {
      assert Later(feeds[k - 1], feeds[k]);
      DeliveredLater(seen, cursor, start, job, feeds[k - 1], feeds[k]);
    }
  }

  lemma ListedAll(f: Feed, since: nat, job: Option<nat>, rows: seq<Event>)
    requires Ordered(f) && rows == ListEvents(f.rows, since, job, 0)
    ensures Ascending(rows) && forall e :: e in rows <==> e in f.rows && Wanted(e, job, since)
  {
    MatchingIs(f.rows, since, job);
  }

  /** After part of a poll's rows were written, the record is complete up to the last one written. */
  lemma EmittedSome(f: Feed, base: seq<Event>, from: nat, start: nat, job: Option<nat>, rows: seq<Event>, i: nat,
                    cursor: nat)
    requires Ordered(f) && Delivered(base, from, start, job, f) && i <= |rows|
    requires rows == ListEvents(f.rows, from, job, 0)
    requires cursor == if i == 0 then from else rows[i - 1].id
    ensures Delivered(base + rows[..i], cursor, start, job, f)
    ensures i == |rows| ==> CaughtUp(base + rows[..i], f, start, job)
  {
    ListedAll(f, from, job, rows);
    hide ListEvents;
    PrefixIs(f, from, job, rows, i, cursor);
    assert from <= cursor && (cursor > from ==> cursor < f.next) by {
      if i > 0 {
        assert rows[i - 1] in rows;
      }
    }
    assert Ascending(rows[..i]);
    DeliveredMore(base, from, start, job, f, rows[..i], cursor);
    if i == |rows| {
      assert rows[..i] == rows;
      hide Ascending;
      forall e <- f.rows | Wanted(e, job, start)
        ensures e in base + rows
      {
        assert e in base || e in rows;
      }
    }
  }

  /** The rows written so far are the wanted ones up to the last one written. */
  lemma PrefixIs(f: Feed, from: nat, job: Option<nat>, rows: seq<Event>, i: nat, cursor: nat)
    requires Ascending(rows) && i <= |rows|
    requires forall e :: e in rows <==> e in f.rows && Wanted(e, job, from)
    requires cursor == if i == 0 then from else rows[i - 1].id
    ensures forall e :: e in rows[..i] <==> e in f.rows && Wanted(e, job, from) && e.id <= cursor
  {
    forall e
      ensures e in rows[..i] <==> e in rows && e.id <= cursor
    {
      if e in rows && e.id <= cursor {
        var k :| 0 <= k < |rows| && rows[k] == e;
        assert rows[..i][k] == e;
      }
    }
  }
}
