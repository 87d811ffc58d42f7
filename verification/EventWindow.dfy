/**
 Durable recovery of a run's events: the server cuts a window out of an append-only log
 (trip_run_store.py, trip_runs.py), the client consumes windows behind a cursor
 (useDeliveryEventRecovery.ts).
 */
module EventWindow {
  import opened Options

  datatype Event = Event(sequence: int, eventType: string, payload: string)

  datatype Window = Window(
    runId: string, requestedAfter: int, replayFloor: int, latest: int, nextAfter: int, expired: bool,
    events: seq<Event>)

  ghost predicate Increasing(es: seq<Event>) {
    forall i, j | 0 <= i < j < |es| :: es[i].sequence < es[j].sequence
  }

  /** A log of positive, strictly increasing sequence numbers. */
  ghost predicate IsLog(log: seq<Event>) {
    Increasing(log) && forall e | e in log :: e.sequence > 0
  }

  function Max(a: int, b: int): int {
    if a < b then b else a
  }

  function Clamp(lo: int, x: int, hi: int): int
    requires lo <= hi
  {
    if x < lo then lo else if x > hi then hi else x
  }

  /* ----- The server's window ----- */

  function Latest(log: seq<Event>): int {
    if log == [] then 0 else log[|log| - 1].sequence
  }

  /** The lowest sequence number still replayed. */
  function Floor(log: seq<Event>, retention: int): int {
    if log == [] || Latest(log) == 0 then 0
    else Max(log[0].sequence, Latest(log) - Clamp(1, retention, 5000) + 1)
  }

  predicate IsExpired(log: seq<Event>, after: int, retention: int) {
    after > 0 && Floor(log, retention) > 0 && after < Floor(log, retention) - 1
  }

  function From(log: seq<Event>, after: int, floor: int): seq<Event> {
    if log == [] then []
    else if log[0].sequence > after && log[0].sequence >= floor then [log[0]] + From(log[1..], after, floor)
    else From(log[1..], after, floor)
  }

  function Take(es: seq<Event>, n: int): seq<Event>
    requires n >= 0
  {
    if n < |es| then es[..n] else es
  }

  function ReadWindow(runId: string, log: seq<Event>, afterSequence: int, limit: int, retention: int): Window {
    var after := Max(0, afterSequence);
    var expired := IsExpired(log, after, retention);
    var events := if expired then [] else Take(From(log, after, Floor(log, retention)), Clamp(1, limit, 500));
    var next :=
      if events != [] then events[|events| - 1].sequence
      else Max(after, if expired then Latest(log) else after);
    Window(runId, after, Floor(log, retention), Latest(log), next, expired, events)
  }

  lemma {:induction false} FromIsFilter(log: seq<Event>, after: int, floor: int)
    requires Increasing(log)
    ensures Increasing(From(log, after, floor))
    ensures forall e :: e in From(log, after, floor) <==> e in log && e.sequence > after && e.sequence >= floor
  {
    if log != [] {
      var rest := From(log[1..], after, floor);
      FromIsFilter(log[1..], after, floor);
      assert forall e :: e in log <==> e == log[0] || e in log[1..];
      assert forall e | e in rest :: e.sequence > log[0].sequence;
      hide From;
      assert Increasing([log[0]] + rest);
    }
  }

  /** A prefix of an increasing list is what lies up to its last element. */
  lemma TakeIsBounded(all: seq<Event>, n: int)
    requires Increasing(all) && n > 0
    ensures Increasing(Take(all, n)) && (all != [] ==> Take(all, n) != [])
    ensures var t := Take(all, n);
            t != [] ==> forall e :: e in t <==> e in all && e.sequence <= t[|t| - 1].sequence
  {
    var t := Take(all, n);
    forall e | e in t
      ensures e in all && e.sequence <= t[|t| - 1].sequence
    {
      var i :| 0 <= i < |t| && t[i] == e;
      assert all[i] == e;
    }
    forall e | e in all && t != [] && e.sequence <= t[|t| - 1].sequence
      ensures e in t
    {
      var i :| 0 <= i < |all| && all[i] == e;
      assert all[|t| - 1] == t[|t| - 1];
      if i < |t| { assert t[i] == e; }
    }
  }

  /** A window that is not expired holds exactly the replayable events in (after, next]. */
  lemma WindowIsExact(runId: string, log: seq<Event>, after: int, limit: int, retention: int)
    requires IsLog(log) && after >= 0 && !ReadWindow(runId, log, after, limit, retention).expired
    ensures var w := ReadWindow(runId, log, after, limit, retention);
            && Increasing(w.events) && after <= w.nextAfter <= Max(after, Latest(log))
            && (forall e :: e in w.events <==>
                  e in log && after < e.sequence <= w.nextAfter && e.sequence >= w.replayFloor)
            && (after < w.replayFloor ==> w.nextAfter >= w.replayFloor)
  {
    var floor := Floor(log, retention);
    var all := From(log, after, floor);
    var n := Clamp(1, limit, 500);
    var w := ReadWindow(runId, log, after, limit, retention);
    assert w.events == Take(all, n);
    FromIsFilter(log, after, floor);
    TakeIsBounded(all, n);
    LatestIsLast(log);
    hide From, Take, Increasing;
    if all == [] {
      assert w.events == [];
      assert log != [] ==> log[|log| - 1] !in all;
    } else {
      assert w.events[|w.events| - 1] in w.events;
    }
  }

  lemma LatestIsLast(log: seq<Event>)
    requires IsLog(log)
    ensures Latest(log) >= 0
    ensures forall e | e in log :: e.sequence <= Latest(log)
    ensures log != [] ==> log[|log| - 1] in log && Latest(log) == log[|log| - 1].sequence > 0
  {
  }

  /** The number of retained events asked for, between 1 and 5000. */
  function Retained(retention: int): int {
    if retention < 1 then 1 else if 5000 < retention then 5000 else retention
  }

  /** The log still replays the event: it is one of the retained sequence numbers. */
  predicate Replayed(log: seq<Event>, retention: int, e: Event) {
    e in log && log[|log| - 1].sequence - Retained(retention) < e.sequence
  }

  /**
   Between the cursor and what is still replayed a sequence number is missing, so a cursor above zero comes too late.
   */
  predicate TooLate(log: seq<Event>, after: int, retention: int) {
    && after > 0 && log != []
    && (after + 1 < log[0].sequence || after + Retained(retention) < log[|log| - 1].sequence)
  }

  lemma ExpiredMeansTooLate(log: seq<Event>, after: int, retention: int)
    requires IsLog(log) && after >= 0
    ensures IsExpired(log, after, retention) <==> TooLate(log, after, retention)
    ensures forall e | e in log :: e.sequence >= Floor(log, retention) <==> Replayed(log, retention, e)
    ensures log == [] ==> Floor(log, retention) == 0
  {
    LatestIsLast(log);
    forall e | e in log
      ensures log[0].sequence <= e.sequence
    {
    }
  }

  /** The first items of an increasing list leave out only later ones, and none unless the list is cut. */
  lemma TakeLeavesLater(all: seq<Event>, n: int)
    requires Increasing(all) && n > 0
    ensures var t := Take(all, n);
            && |t| <= n
            && forall e | e in all && e !in t :: |t| == n && t[n - 1].sequence < e.sequence
  {
    var t := Take(all, n);
    forall e | e in all && e !in t
      ensures |t| == n && t[n - 1].sequence < e.sequence
    {
      var i :| 0 <= i < |all| && all[i] == e;
      assert forall j | 0 <= j < |t| :: t[j] == all[j] && all[j] in t;
    }
  }

  /** The window holds the first replayed events after the cursor, as many as asked for. */
  ghost predicate HoldsTheFirst(w: Window, log: seq<Event>, after: int, limit: int, retention: int) {
    && Increasing(w.events) && |w.events| <= limit
    && (forall e | e in w.events :: Replayed(log, retention, e) && after < e.sequence)
    && (forall e | Replayed(log, retention, e) && after < e.sequence && e !in w.events ::
          |w.events| == limit > 0 && w.events[limit - 1].sequence < e.sequence)
  }

  /**
   The whole window, for any cursor, limit and retention asked for: it is flagged as expired exactly when the cursor
   comes too late, and then it is empty and ends at the last event; otherwise it holds the first replayed events after
   the cursor, up to the limit, and ends at the last of them.
   */
  lemma WindowMeans(runId: string, log: seq<Event>, asked: int, limit: int, retention: int)
    requires IsLog(log)
    ensures var w, after := ReadWindow(runId, log, asked, limit, retention), if asked < 0 then 0 else asked;
            && w.runId == runId && w.requestedAfter == after
            && (w.expired <==> TooLate(log, after, retention))
            && (w.expired ==> w.events == [] && w.nextAfter == log[|log| - 1].sequence)
            && (!w.expired ==>
                  HoldsTheFirst(w, log, after, if limit < 1 then 1 else if 500 < limit then 500 else limit, retention))
            && (!w.expired ==>
                  w.nextAfter == if w.events == [] then after else w.events[|w.events| - 1].sequence)
            && w.latest == (if log == [] then 0 else log[|log| - 1].sequence)
            && (log == [] ==> w.replayFloor == 0)
            && forall e | e in log :: w.replayFloor <= e.sequence <==> Replayed(log, retention, e)
  {
    hide HoldsTheFirst, TooLate, Replayed, IsExpired, Floor, From, Take;
    var after := if asked < 0 then 0 else asked;
    LatestIsLast(log);
    ExpiredMeansTooLate(log, after, retention);
    TooLateHasLog(log, after, retention);
    FirstHeld(runId, log, asked, limit, retention);
  }

  lemma TooLateHasLog(log: seq<Event>, after: int, retention: int)
    requires IsLog(log)
    ensures TooLate(log, after, retention) ==> log != [] && after < log[|log| - 1].sequence
  {
    LatestIsLast(log);
  }

  lemma FirstHeld(runId: string, log: seq<Event>, asked: int, limit: int, retention: int)
    requires IsLog(log)
    ensures var w, after := ReadWindow(runId, log, asked, limit, retention), if asked < 0 then 0 else asked;
            var n := if limit < 1 then 1 else if 500 < limit then 500 else limit;
            !w.expired ==> HoldsTheFirst(w, log, after, n, retention)
  {
    hide HoldsTheFirst, From, Take, Increasing, IsExpired, Floor, Replayed, TooLate, Retained;
    var w, after := ReadWindow(runId, log, asked, limit, retention), if asked < 0 then 0 else asked;
    var floor, n := Floor(log, retention), Clamp(1, limit, 500);
    ExpiredMeansTooLate(log, after, retention);
    FromIsFilter(log, after, floor);
    ReplayedInLog(log, retention);
    if !w.expired { FirstOf(w, From(log, after, floor), log, after, n, retention); }
  }

  lemma FirstOf(w: Window, all: seq<Event>, log: seq<Event>, after: int, n: int, retention: int)
    requires n > 0 && w.events == Take(all, n) && Increasing(all)
    requires forall e :: e in all <==> Replayed(log, retention, e) && after < e.sequence
    ensures HoldsTheFirst(w, log, after, n, retention)
  {
    TakeIsBounded(all, n);
    TakeLeavesLater(all, n);
    hide Take, Increasing, Replayed;
  }

  lemma ReplayedInLog(log: seq<Event>, retention: int)
    ensures forall e | Replayed(log, retention, e) :: e in log
  {
  }

  /* ----- The client's reading of a window ----- */

  predicate HasSequence(es: seq<Event>, n: int) {
    exists e | e in es :: e.sequence == n
  }

  /** First event of each new sequence number, in order of arrival. */
  function FreshEvents(es: seq<Event>, after: int): seq<Event> {
    if es == [] then []
    else
      var before, e := FreshEvents(es[..|es| - 1], after), es[|es| - 1];
      if e.sequence <= after || HasSequence(before, e.sequence) then before else before + [e]
  }

  function InsertBySequence(e: Event, sorted: seq<Event>): seq<Event> {
    if sorted == [] || e.sequence < sorted[0].sequence then [e] + sorted
    else [sorted[0]] + InsertBySequence(e, sorted[1..])
  }

  function SortBySequence(es: seq<Event>): seq<Event> {
    if es == [] then [] else InsertBySequence(es[|es| - 1], SortBySequence(es[..|es| - 1]))
  }

  function OrderedNewEvents(es: seq<Event>, after: int): seq<Event> {
    SortBySequence(FreshEvents(es, after))
  }

  /** The map of new events, filled in arrival order, then sorted. */
  method CollectNewEvents(events: seq<Event>, after: int) returns (ordered: seq<Event>)
    ensures ordered == OrderedNewEvents(events, after)
  {
    var bySequence: seq<Event> := [];
    var seen: set<int> := {};
    for i := 0 to |events|
      invariant bySequence == FreshEvents(events[..i], after)
      invariant forall n :: n in seen <==> HasSequence(bySequence, n)
    {
      var e := events[i];
      assert events[..i + 1][..i] == events[..i];
      if e.sequence > after && e.sequence !in seen {
        ghost var before := bySequence;
        bySequence := bySequence + [e];
        seen := seen + {e.sequence};
        assert forall x :: x in bySequence <==> x in before || x == e;
        assert forall n :: HasSequence(bySequence, n) <==> HasSequence(before, n) || n == e.sequence;
      }
    }
    assert events[..|events|] == events;
    ordered := SortBySequence(bySequence);
  }

  /** The first event of its sequence number to arrive. */
  ghost predicate ArrivesFirst(es: seq<Event>, e: Event) {
    exists i | 0 <= i < |es| :: es[i] == e && forall j | 0 <= j < i :: es[j].sequence != e.sequence
  }

  /** kept holds, for each sequence number above after that occurs in es, the first event to arrive with it. */
  ghost predicate Firsts(es: seq<Event>, after: int, kept: seq<Event>) {
    && (forall e | e in kept :: ArrivesFirst(es, e) && e.sequence > after)
    && (forall e | e in es && e.sequence > after :: HasSequence(kept, e.sequence))
    && (forall i, j | 0 <= i < j < |kept| :: kept[i].sequence != kept[j].sequence)
  }

  lemma StillFirst(es: seq<Event>, later: Event, e: Event)
    requires ArrivesFirst(es, e)
    ensures ArrivesFirst(es + [later], e)
  {
    var i :| 0 <= i < |es| && es[i] == e && forall j | 0 <= j < i :: es[j].sequence != e.sequence;
    assert (es + [later])[i] == e && forall j | 0 <= j < i :: (es + [later])[j] == es[j];
  }

  /** A new sequence number that no kept event has, occurs in no earlier event either. */
  lemma NewIsFirst(es: seq<Event>, after: int, kept: seq<Event>, e: Event)
    requires Firsts(es, after, kept) && e.sequence > after && !HasSequence(kept, e.sequence)
    ensures ArrivesFirst(es + [e], e)
  {
    forall j | 0 <= j < |es|
      ensures (es + [e])[j].sequence != e.sequence
    {
      assert es[j] in es;
    }
    assert (es + [e])[|es|] == e;
    hide HasSequence;
  }

  lemma FirstsStep(es: seq<Event>, after: int, kept: seq<Event>, e: Event)
    requires Firsts(es, after, kept)
    ensures e.sequence <= after || HasSequence(kept, e.sequence) ==> Firsts(es + [e], after, kept)
    ensures e.sequence > after && !HasSequence(kept, e.sequence) ==> Firsts(es + [e], after, kept + [e])
  {
    forall x | x in kept
      ensures ArrivesFirst(es + [e], x)
    {
      StillFirst(es, e, x);
    }
    if e.sequence > after && !HasSequence(kept, e.sequence) {
      NewIsFirst(es, after, kept, e);
      var more := kept + [e];
      assert forall x | x in kept :: x in more && x.sequence != e.sequence;
      assert e in more;
      forall x | x in es + [e] && x.sequence > after
        ensures HasSequence(more, x.sequence)
      {
        if x in es {
          var y :| y in kept && y.sequence == x.sequence;
          assert y in more;
        }
      }
      assert forall i | 0 <= i < |kept| :: kept[i] in kept;
    }
    hide ArrivesFirst;
  }

  lemma {:induction false} FreshAreFirsts(es: seq<Event>, after: int)
    ensures Firsts(es, after, FreshEvents(es, after))
  {
    hide Firsts, HasSequence;
    if es == [] {
      NoFirsts(after);
    } else {
      var n := |es| - 1;
      FreshAreFirsts(es[..n], after);
      FirstsStep(es[..n], after, FreshEvents(es[..n], after), es[n]);
      assert es == es[..n] + [es[n]];
    }
  }

  lemma NoFirsts(after: int)
    ensures Firsts([], after, [])
  {
  }

  lemma {:induction false} InsertKeepsOrder(e: Event, sorted: seq<Event>)
    requires Increasing(sorted) && forall x | x in sorted :: x.sequence != e.sequence
    ensures Increasing(InsertBySequence(e, sorted))
    ensures forall x :: x in InsertBySequence(e, sorted) <==> x in sorted || x == e
  {
    if sorted != [] && e.sequence >= sorted[0].sequence {
      assert sorted[0] in sorted;
      InsertKeepsOrder(e, sorted[1..]);
      assert forall x :: x in sorted <==> x == sorted[0] || x in sorted[1..];
      assert forall x | x in sorted[1..] :: sorted[0].sequence < x.sequence;
    }
  }

  lemma {:induction false} SortSorts(es: seq<Event>)
    requires forall i, j | 0 <= i < j < |es| :: es[i].sequence != es[j].sequence
    ensures Increasing(SortBySequence(es))
    ensures forall x :: x in SortBySequence(es) <==> x in es
  {
    if es != [] {
      var n := |es| - 1;
      SortSorts(es[..n]);
      assert es == es[..n] + [es[n]];
      InsertKeepsOrder(es[n], SortBySequence(es[..n]));
    }
  }

  /** New events come out strictly increasing: of each new sequence number the first to arrive, and no other. */
  lemma OrderedNewEventsCorrect(es: seq<Event>, after: int)
    ensures Increasing(OrderedNewEvents(es, after))
    ensures forall e | e in OrderedNewEvents(es, after) :: ArrivesFirst(es, e) && e in es && e.sequence > after
    ensures forall e | e in es && e.sequence > after :: HasSequence(OrderedNewEvents(es, after), e.sequence)
  {
    FreshAreFirsts(es, after);
    SortSorts(FreshEvents(es, after));
    forall e | e in es && e.sequence > after
      ensures HasSequence(OrderedNewEvents(es, after), e.sequence)
    {
      var x :| x in FreshEvents(es, after) && x.sequence == e.sequence;
      assert x in OrderedNewEvents(es, after);
    }
  }

  /* ----- Polling ----- */

  predicate ValidWindow(w: Window, runId: string, requestedAfter: int) {
    && w.runId == runId && w.requestedAfter == requestedAfter
    && 0 <= w.latest && requestedAfter <= w.nextAfter <= Max(requestedAfter, w.latest)
    && !(w.expired && |w.events| > 0)
  }

  datatype Read = Read(cursor: int, events: seq<Event>)

  /** One answer, or none, read at a cursor. */
  function Consumed(cursor: int, runId: string, answer: Option<Window>): Read {
    if answer.None? || !ValidWindow(answer.value, runId, cursor) then Read(cursor, [])
    else
      var w := answer.value;
      var events := if w.expired then [] else OrderedNewEvents(w.events, cursor);
      Read(Max(if events == [] then cursor else events[|events| - 1].sequence, w.nextAfter), events)
  }

  /**
   The client refuses exactly the answers of another run or another request, those whose numbers do not fit, and an
   expired window with events; a refused answer changes nothing, and any other moves the cursor to the end of the window
   or to the last new event, whichever is later.
   */
  lemma RefusedAnswers(cursor: int, runId: string, w: Window)
    ensures var refused :=
              || w.runId != runId || w.requestedAfter != cursor || w.latest < 0 || w.nextAfter < cursor
              || (cursor < w.nextAfter && w.latest < w.nextAfter) || (w.expired && w.events != []);
            var r := Consumed(cursor, runId, Some(w));
            && (refused ==> r == Read(cursor, []))
            && (!refused ==> w.nextAfter <= r.cursor && forall e | e in r.events :: e.sequence <= r.cursor)
            && (!refused && r.cursor != w.nextAfter ==> exists e :: e in r.events && e.sequence == r.cursor)
            && (!refused ==> forall e | e in w.events && cursor < e.sequence :: HasSequence(r.events, e.sequence))
  {
    hide OrderedNewEvents, HasSequence, Increasing;
    OrderedNewEventsCorrect(w.events, cursor);
    var events := OrderedNewEvents(w.events, cursor);
    if events != [] { LastIsLargest(events); }
  }

  lemma LastIsLargest(es: seq<Event>)
    requires Increasing(es) && es != []
    ensures es[|es| - 1] in es && forall e | e in es :: e.sequence <= es[|es| - 1].sequence
  {
  }

  /** The monitor's cursors, one per run. */
  class Monitor {
    var cursorByRun: map<string, int>

    constructor ()
      ensures cursorByRun == map[] && forall runId :: Cursor(runId) == 0
    {
      cursorByRun := map[];
    }

    function Cursor(runId: string): int
      reads this
    {
      if runId in cursorByRun then cursorByRun[runId] else 0
    }

    /** A failed or ill-formed answer leaves the cursor where it was. */
    method Poll(runId: string, answer: Option<Window>) returns (events: seq<Event>)
      modifies this
      ensures Read(Cursor(runId), events) == Consumed(old(Cursor(runId)), runId, answer)
      ensures forall other | other != runId :: Cursor(other) == old(Cursor(other))
    {
      events := [];
      var requestedAfter := Cursor(runId);
      if answer.None? || !ValidWindow(answer.value, runId, requestedAfter) {
        return;
      }
      var window := answer.value;
      if !window.expired {
        events := CollectNewEvents(window.events, requestedAfter);
      }
      var eventCursor := if events == [] then requestedAfter else events[|events| - 1].sequence;
      cursorByRun := cursorByRun[runId := Max(eventCursor, window.nextAfter)];
    }
  }

  /** A run of polls: the final cursor and everything handed on. */
  function ConsumedAll(runId: string, answers: seq<Option<Window>>): Read {
    if answers == [] then Read(0, [])
    else
      var before := ConsumedAll(runId, answers[..|answers| - 1]);
      var now := Consumed(before.cursor, runId, answers[|answers| - 1]);
      Read(now.cursor, before.events + now.events)
  }

  lemma ConsumedMovesOn(cursor: int, runId: string, answer: Option<Window>)
    ensures var r := Consumed(cursor, runId, answer);
            cursor <= r.cursor && Increasing(r.events) && forall e | e in r.events :: cursor < e.sequence <= r.cursor
  {
    hide OrderedNewEvents, Increasing;
    NoEventsIncreasing();
    if answer.Some? {
      var events := OrderedNewEvents(answer.value.events, cursor);
      OrderedNewEventsCorrect(answer.value.events, cursor);
      if events != [] { LastIsLargest(events); }
    }
  }

  /** Whatever the server answers, the cursor never goes back and no event is handed on twice or out of order. */
  lemma {:induction false} PollingIsMonotone(runId: string, answers: seq<Option<Window>>)
    ensures var r := ConsumedAll(runId, answers);
            Increasing(r.events) && r.cursor >= 0 && forall e | e in r.events :: 0 < e.sequence <= r.cursor
    ensures forall n | 0 <= n <= |answers| ::
              ConsumedAll(runId, answers[..n]).cursor <= ConsumedAll(runId, answers).cursor
  {
    hide Consumed, Increasing;
    if answers == [] {
      assert forall n | 0 <= n <= |answers| :: answers[..n] == [];
      NoEventsIncreasing();
    } else {
      var k := |answers| - 1;
      PollingIsMonotone(runId, answers[..k]);
      var before := ConsumedAll(runId, answers[..k]);
      ConsumedMovesOn(before.cursor, runId, answers[k]);
      IncreasingAppend(before.events, Consumed(before.cursor, runId, answers[k]).events, before.cursor);
      forall n | 0 <= n <= |answers|
        ensures ConsumedAll(runId, answers[..n]).cursor <= ConsumedAll(runId, answers).cursor
      {
        if n <= k { assert answers[..n] == answers[..k][..n]; } else { assert answers[..n] == answers; }
      }
    }
  }

  lemma NoEventsIncreasing()
    ensures Increasing([])
  {
  }

  /* ----- Polling the server ----- */

  /** One poll: the log at that moment, the window parameters, and whether the answer came back. */
  datatype Poll = Poll(log: seq<Event>, limit: int, retention: int, answered: bool)

  /** The log only grows between polls. */
  ghost predicate Growing(polls: seq<Poll>) {
    && (forall p | p in polls :: IsLog(p.log))
    && forall i, j | 0 <= i <= j < |polls| :: polls[i].log <= polls[j].log
  }

  function AnswerOf(runId: string, p: Poll, cursor: int): Option<Window> {
    if p.answered then Some(ReadWindow(runId, p.log, cursor, p.limit, p.retention)) else None
  }

  function PolledAll(runId: string, polls: seq<Poll>): Read {
    if polls == [] then Read(0, [])
    else
      var before := PolledAll(runId, polls[..|polls| - 1]);
      var now := Consumed(before.cursor, runId, AnswerOf(runId, polls[|polls| - 1], before.cursor));
      Read(now.cursor, before.events + now.events)
  }

  /** What the server answers to each of the polls. */
  function AnswersTo(runId: string, polls: seq<Poll>): (answers: seq<Option<Window>>)
    ensures |answers| == |polls|
  {
    if polls == [] then []
    else
      var init, last := polls[..|polls| - 1], polls[|polls| - 1];
      AnswersTo(runId, init) + [AnswerOf(runId, last, PolledAll(runId, init).cursor)]
  }

  /** Polling the server is reading its answers. */
  lemma {:induction false} PolledIsConsumed(runId: string, polls: seq<Poll>)
    ensures PolledAll(runId, polls) == ConsumedAll(runId, AnswersTo(runId, polls))
  {
    hide Consumed, AnswerOf;
    if polls != [] {
      var n := |polls| - 1;
      PolledIsConsumed(runId, polls[..n]);
      assert AnswersTo(runId, polls)[..n] == AnswersTo(runId, polls[..n]);
    }
  }

  /** Did a poll at this cursor pass over an event without handing it on? */
  ghost predicate PassesOver(p: Poll, cursor: int, e: Event) {
    && p.answered && e in p.log && e.sequence > cursor
    && (TooLate(p.log, cursor, p.retention) || !Replayed(p.log, p.retention, e))
  }

  ghost predicate Skipped(runId: string, polls: seq<Poll>, e: Event) {
    exists i | 0 <= i < |polls| :: PassesOver(polls[i], PolledAll(runId, polls[..i]).cursor, e)
  }

  /** The server's own windows always pass the client's checks. */
  lemma ServerWindowIsValid(runId: string, p: Poll, cursor: int)
    requires IsLog(p.log) && cursor >= 0
    ensures ValidWindow(ReadWindow(runId, p.log, cursor, p.limit, p.retention), runId, cursor)
  {
    LatestIsLast(p.log);
    if !ReadWindow(runId, p.log, cursor, p.limit, p.retention).expired {
      WindowIsExact(runId, p.log, cursor, p.limit, p.retention);
    }
  }

  /** One answered poll hands on exactly the events it moves the cursor over, except those it passes over. */
  lemma PollStep(runId: string, p: Poll, cursor: int)
    requires IsLog(p.log) && cursor >= 0
    ensures var r := Consumed(cursor, runId, AnswerOf(runId, p, cursor));
            && cursor <= r.cursor && (p.answered ==> r.cursor <= Max(cursor, Latest(p.log)))
            && (!p.answered ==> r == Read(cursor, []))
            && Increasing(r.events)
            && (forall e :: e in r.events <==>
                  e in p.log && cursor < e.sequence <= r.cursor && !PassesOver(p, cursor, e))
            && (forall e | PassesOver(p, cursor, e) :: e.sequence <= r.cursor)
  {
    LatestIsLast(p.log);
    ExpiredMeansTooLate(p.log, cursor, p.retention);
    hide TooLate, Replayed, Floor, IsExpired;
    if p.answered {
      var w := ReadWindow(runId, p.log, cursor, p.limit, p.retention);
      ServerWindowIsValid(runId, p, cursor);
      if w.expired {
        assert Consumed(cursor, runId, Some(w)) == Read(w.nextAfter, []);
      } else {
        WindowIsExact(runId, p.log, cursor, p.limit, p.retention);
        OrderedNewEventsCorrect(w.events, cursor);
        AlreadyOrdered(w.events, cursor);
      }
    }
  }

  /** A window that is already increasing and new is handed on unchanged. */
  lemma AlreadyOrdered(es: seq<Event>, after: int)
    requires Increasing(es) && forall e | e in es :: e.sequence > after
    ensures forall e :: e in OrderedNewEvents(es, after) <==> e in es
  {
    OrderedNewEventsCorrect(es, after);
    forall e | e in es
      ensures e in OrderedNewEvents(es, after)
    {
      var x :| x in OrderedNewEvents(es, after) && x.sequence == e.sequence;
      assert x in es;
      var i :| 0 <= i < |es| && es[i] == x;
      var j :| 0 <= j < |es| && es[j] == e;
      assert i == j;
    }
  }

  /** Of a log, exactly the events up to the cursor that were not passed over have been read, in order. */
  ghost predicate Faithful(runId: string, polls: seq<Poll>, log: seq<Event>) {
    var r := PolledAll(runId, polls);
    && 0 <= r.cursor <= Latest(log) && Increasing(r.events)
    && (forall e :: e in r.events <==> e in log && e.sequence <= r.cursor && !Skipped(runId, polls, e))
    && (forall e | Skipped(runId, polls, e) :: e.sequence <= r.cursor)
  }

  lemma FaithfulStep(runId: string, polls: seq<Poll>, log: seq<Event>)
    requires polls != [] && IsLog(log) && IsLog(polls[|polls| - 1].log) && polls[|polls| - 1].log <= log
    requires Faithful(runId, polls[..|polls| - 1], polls[|polls| - 1].log)
    ensures Faithful(runId, polls, log)
  {
    hide Consumed, PassesOver, Skipped, Increasing, IsLog;
    var n := |polls| - 1;
    var p := polls[n];
    var before := PolledAll(runId, polls[..n]);
    var now := Consumed(before.cursor, runId, AnswerOf(runId, p, before.cursor));
    PollStep(runId, p, before.cursor);
    LogPrefix(p.log, log);
    SkippedOneMore(runId, polls);
    IncreasingAppend(before.events, now.events, before.cursor);
    var r := PolledAll(runId, polls);
    assert r == Read(now.cursor, before.events + now.events);
    forall e
      ensures e in r.events <==> e in log && e.sequence <= r.cursor && !Skipped(runId, polls, e)
      ensures Skipped(runId, polls, e) ==> e.sequence <= r.cursor
    {
      PassedIsAhead(p, before.cursor, e);
      OnceMore(before, now, p.log, log, Skipped(runId, polls[..n], e), PassesOver(p, before.cursor, e), e);
    }
  }

  /**
   Over any run of polls of the growing log, every event up to the cursor that was not
   passed over has been handed on exactly once, in increasing sequence.
   */
  lemma {:induction false} EachEventOnce(runId: string, polls: seq<Poll>, log: seq<Event>)
    requires Growing(polls) && IsLog(log) && forall p | p in polls :: p.log <= log
    ensures var r := PolledAll(runId, polls);
            && 0 <= r.cursor <= Latest(log) && Increasing(r.events)
            && (forall e :: e in r.events <==> e in log && e.sequence <= r.cursor && !Skipped(runId, polls, e))
            && (forall e | Skipped(runId, polls, e) :: e.sequence <= r.cursor)
  {
    hide Skipped, PolledAll;
    FaithfulRun(runId, polls, log);
  }

  lemma GrowingPrefix(polls: seq<Poll>)
    requires Growing(polls) && polls != []
    ensures var n := |polls| - 1;
            && Growing(polls[..n]) && IsLog(polls[n].log) && polls[n] in polls
            && forall p | p in polls[..n] :: p.log <= polls[n].log
  {
    var n := |polls| - 1;
    assert forall p | p in polls[..n] :: p in polls;
  }

  lemma NothingRead(runId: string, log: seq<Event>)
    requires IsLog(log)
    ensures Faithful(runId, [], log)
  {
    LatestIsLast(log);
  }

  lemma {:induction false} FaithfulRun(runId: string, polls: seq<Poll>, log: seq<Event>)
    requires Growing(polls) && IsLog(log) && forall p | p in polls :: p.log <= log
    ensures Faithful(runId, polls, log)
  {
    hide Faithful, Growing, IsLog;
    if polls == [] {
      NothingRead(runId, log);
    } else {
      var n := |polls| - 1;
      GrowingPrefix(polls);
      FaithfulRun(runId, polls[..n], polls[n].log);
      FaithfulStep(runId, polls, log);
    }
  }

  lemma IncreasingAppend(a: seq<Event>, b: seq<Event>, cursor: int)
    requires Increasing(a) && Increasing(b)
    requires (forall e | e in a :: e.sequence <= cursor) && forall e | e in b :: cursor < e.sequence
    ensures Increasing(a + b)
  {
  }

  lemma PassedIsAhead(p: Poll, cursor: int, e: Event)
    ensures PassesOver(p, cursor, e) ==> e in p.log && e.sequence > cursor
  {
  }

  lemma OnceMore(before: Read, now: Read, early: seq<Event>, log: seq<Event>, skipped: bool, passed: bool, e: Event)
    requires before.cursor <= now.cursor <= Max(before.cursor, Latest(early)) && before.cursor <= Latest(early)
    requires (e in early ==> e in log) && (e in log && e.sequence <= Latest(early) ==> e in early)
    requires e in before.events <==> e in early && e.sequence <= before.cursor && !skipped
    requires e in now.events <==> e in early && before.cursor < e.sequence <= now.cursor && !passed
    requires (skipped ==> e.sequence <= before.cursor) && (passed ==> e.sequence > before.cursor)
    ensures e in before.events + now.events <==> e in log && e.sequence <= now.cursor && !(skipped || passed)
  {
  }

  lemma LogPrefix(early: seq<Event>, log: seq<Event>)
    requires IsLog(log) && early <= log
    ensures Latest(early) <= Latest(log)
    ensures forall e | e in log && e.sequence <= Latest(early) :: e in early
    ensures forall e | e in early :: e in log
  {
    forall e | e in log && e.sequence <= Latest(early)
      ensures e in early
    {
      var i :| 0 <= i < |log| && log[i] == e;
      if i < |early| {
        assert early[i] == e;
      }
    }
  }

  lemma SkippedOneMore(runId: string, polls: seq<Poll>)
    requires polls != []
    ensures var n := |polls| - 1;
            forall e :: Skipped(runId, polls, e) <==>
              Skipped(runId, polls[..n], e) || PassesOver(polls[n], PolledAll(runId, polls[..n]).cursor, e)
  {
    hide PassesOver, PolledAll;
    var n := |polls| - 1;
    forall e
      ensures Skipped(runId, polls, e) <==>
              Skipped(runId, polls[..n], e) || PassesOver(polls[n], PolledAll(runId, polls[..n]).cursor, e)
    {
      assert forall i | 0 <= i < n :: polls[..n][i] == polls[i] && polls[..n][..i] == polls[..i];
    }
  }

  /** Nothing was passed over: no poll came too late for an event it had not yet read. */
  ghost predicate NothingPassedOver(runId: string, polls: seq<Poll>) {
    forall e :: !Skipped(runId, polls, e)
  }

  /** So the client has read the whole log up to its cursor exactly when no poll passed over an event. */
  lemma CompleteIffNothingPassedOver(runId: string, polls: seq<Poll>, log: seq<Event>)
    requires Growing(polls) && IsLog(log) && forall p | p in polls :: p.log <= log
    ensures (forall e :: e in log && e.sequence <= PolledAll(runId, polls).cursor ==>
              e in PolledAll(runId, polls).events)
            <==> NothingPassedOver(runId, polls)
  {
    hide Skipped, PolledAll;
    EachEventOnce(runId, polls, log);
    forall e | Skipped(runId, polls, e)
      ensures e in log
    {
      SkippedInLog(runId, polls, e);
      var p :| p in polls && e in p.log;
      LogPrefix(p.log, log);
    }
  }

  lemma SkippedInLog(runId: string, polls: seq<Poll>, e: Event)
    requires Skipped(runId, polls, e)
    ensures exists p :: p in polls && e in p.log
  {
  }

  /* ----- Windows that hide events without saying so ----- */

  /** The client asks for 200 events and leaves the retained window to the route's default. */
  const CLIENT_LIMIT := 200
  const DEFAULT_RETENTION := 500

  /** A window not flagged as expired moves the cursor over an event it does not hand on. */
  ghost predicate HidesSilently(w: Window, log: seq<Event>, after: int) {
    !w.expired && exists e | e in log :: after < e.sequence <= w.nextAfter && e !in w.events
  }

  /** That happens exactly when the cursor is still at zero and the log starts below the replay floor. */
  lemma UnflaggedLossIff(runId: string, log: seq<Event>, after: int, limit: int, retention: int)
    requires IsLog(log) && after >= 0
    ensures HidesSilently(ReadWindow(runId, log, after, limit, retention), log, after)
            <==> after == 0 && log != [] && !Replayed(log, retention, log[0])
  {
    var w := ReadWindow(runId, log, after, limit, retention);
    ExpiredMeansTooLate(log, after, retention);
    LatestIsLast(log);
    if !w.expired {
      WindowIsExact(runId, log, after, limit, retention);
      if after == 0 && log != [] && !Replayed(log, retention, log[0]) {
        assert log[0] in log && log[0] !in w.events;
      }
      if HidesSilently(w, log, after) {
        var e :| e in log && after < e.sequence <= w.nextAfter && e !in w.events;
        LowestFirst(log, e);
      }
    }
  }

  lemma LowestFirst(log: seq<Event>, e: Event)
    requires Increasing(log) && e in log
    ensures log[0].sequence <= e.sequence
  {
  }

  /** A first poll of a log that starts below the floor hands on nothing below it, and moves past it unflagged. */
  lemma FirstPollPassesOver(runId: string, log: seq<Event>)
    requires IsLog(log) && log != [] && !Replayed(log, DEFAULT_RETENTION, log[0])
    ensures var r := PolledAll(runId, [Poll(log, CLIENT_LIMIT, DEFAULT_RETENTION, true)]);
            && !ReadWindow(runId, log, 0, CLIENT_LIMIT, DEFAULT_RETENTION).expired
            && log[0] !in r.events && log[0].sequence <= r.cursor
  {
    var p := Poll(log, CLIENT_LIMIT, DEFAULT_RETENTION, true);
    assert [p][..0] == [] && [p][0] == p;
    assert PolledAll(runId, []) == Read(0, []);
    PollStep(runId, p, 0);
    assert log[0] in log && PassesOver(p, 0, log[0]);
    var r := Consumed(0, runId, AnswerOf(runId, p, 0));
    assert PolledAll(runId, [p]) == Read(r.cursor, [] + r.events);
    hide Consumed, AnswerOf;
  }

  /** One event more than the retained window is enough: the first is passed over, and nothing says so. */
  lemma FirstPollMayPassOverSilently(runId: string, payload: string)
    ensures var log := seq(501, i => Event(i + 1, "step", payload));
            var r := PolledAll(runId, [Poll(log, CLIENT_LIMIT, DEFAULT_RETENTION, true)]);
            && IsLog(log) && !ReadWindow(runId, log, 0, CLIENT_LIMIT, DEFAULT_RETENTION).expired
            && log[0] !in r.events && log[0].sequence <= r.cursor
  {
    var log := seq(501, i => Event(i + 1, "step", payload));
    assert log[0].sequence == 1 && log[500].sequence == 501 && log[0] in log;
    hide PolledAll, ReadWindow;
    FirstPollPassesOver(runId, log);
  }
}
