/**
 createPlaceSearchRunner (lib/placeSearch.ts): only the newest request may write the field.

 Requests settle in any order, at any time, with any result; the clock of a request may fire before it settles.
 */
module PlaceSearch {
  import opened Options

  datatype Candidate = Candidate(placeId: string, confidence: real)

  /** How a fetch comes back: its candidates, an abort, or another rejection. */
  datatype Reply = Found(candidates: seq<Candidate>) | Aborted | Rejected(reason: string)

  datatype Error = NoError | EmptyResult | TimedOut | RequestFailed(reason: string)

  /** What the component shows. */
  datatype Field = Field(loading: bool, error: Error, candidates: seq<Candidate>)

  datatype Phase = Waiting(timedOut: bool) | Settled

  /** A timer set for a request; it has fired or is still live. */
  datatype Clock = Clock(ticket: nat, fired: bool)

  /**
   The runner: its closure variables, what became of each request, and the field; `shown` is the ticket behind the
   candidates.
   */
  datatype Runner = Runner(
    latest: nat, inflight: Option<nat>, clock: Option<Clock>, requests: map<nat, Phase>, field: Field, shown: nat)

  datatype Event = Run | Cancel | ClockFires | Settle(ticket: nat, reply: Reply)

  function Fresh(field: Field): Runner {
    Runner(0, None, None, map[], field, 0)
  }

  /* ----- One step ----- */

  function Started(r: Runner): Runner {
    var ticket := r.latest + 1;
    Runner(ticket, Some(ticket), Some(Clock(ticket, false)), r.requests[ticket := Waiting(false)],
           Field(true, NoError, r.field.candidates), r.shown)
  }

  function Cancelled(r: Runner): Runner {
    r.(latest := r.latest + 1, inflight := None, clock := None)
  }

  function Fired(r: Runner): Runner {
    if r.clock.Some? && !r.clock.value.fired then
      var ticket := r.clock.value.ticket;
      r.(clock := Some(Clock(ticket, true)),
         requests := if ticket in r.requests && r.requests[ticket].Waiting? then r.requests[ticket := Waiting(true)]
                     else r.requests)
    else r
  }

  /** What a reply to the current request puts in the error slot. */
  function ErrorFor(reply: Reply, timedOut: bool, before: Error): Error {
    match reply
    case Found(candidates) => if candidates == [] then EmptyResult else before
    case Aborted => if timedOut then TimedOut else before
    case Rejected(reason) => if timedOut then TimedOut else RequestFailed(reason)
  }

  function Replied(r: Runner, ticket: nat, reply: Reply): Runner {
    if ticket !in r.requests || r.requests[ticket].Settled? then r
    else
      var settled := r.(requests := r.requests[ticket := Settled]);
      if ticket != r.latest then settled
      else settled.(
          clock := None, inflight := None, shown := if reply.Found? then ticket else r.shown,
          field := Field(false, ErrorFor(reply, r.requests[ticket].timedOut, r.field.error),
                         if reply.Found? then reply.candidates else r.field.candidates))
  }

  function Step(r: Runner, e: Event): Runner {
    match e
    case Run => Started(r)
    case Cancel => Cancelled(r)
    case ClockFires => Fired(r)
    case Settle(ticket, reply) => Replied(r, ticket, reply)
  }

  function After(r: Runner, events: seq<Event>): Runner {
    if events == [] then r else Step(After(r, events[..|events| - 1]), events[|events| - 1])
  }

  /* ----- The closure as the source keeps it ----- */

  class SearchRunner {
    var latest: nat
    var inflight: Option<nat>
    var clock: Option<Clock>
    var requests: map<nat, Phase>
    var loading: bool
    var error: Error
    var candidates: seq<Candidate>
    ghost var shown: nat

    ghost function State(): Runner
      reads this
    {
      Runner(latest, inflight, clock, requests, Field(loading, error, candidates), shown)
    }

    constructor (shownLoading: bool, shownError: Error, shownCandidates: seq<Candidate>)
      ensures State() == Fresh(Field(shownLoading, shownError, shownCandidates))
    {
      latest, inflight, clock, requests := 0, None, None, map[];
      loading, error, candidates, shown := shownLoading, shownError, shownCandidates, 0;
    }

    method StopClock()
      modifies this`clock
      ensures clock == None
    {
      if clock.Some? {
        clock := None;
      }
    }

    /** The synchronous part of run, up to the fetch. */
    method Run() returns (ticket: nat)
      modifies this
      ensures State() == Step(old(State()), Event.Run) && ticket == latest
    {
      StopClock();
      latest := latest + 1;
      ticket := latest;
      inflight := Some(ticket);
      requests := requests[ticket := Waiting(false)];
      clock := Some(Clock(ticket, false));
      loading := true;
      error := NoError;
    }

    method Cancel()
      modifies this
      ensures State() == Step(old(State()), Event.Cancel)
    {
      inflight := None;
      StopClock();
      latest := latest + 1;
    }

    method ClockFires()
      modifies this
      ensures State() == Step(old(State()), Event.ClockFires)
    {
      if clock.Some? && !clock.value.fired {
        var ticket := clock.value.ticket;
        if ticket in requests && requests[ticket].Waiting? {
          requests := requests[ticket := Waiting(true)];
        }
        clock := Some(Clock(ticket, true));
      }
    }

    /** The rest of run, once the fetch of `ticket` comes back. */
    method Settle(ticket: nat, reply: Reply)
      requires ticket in requests && requests[ticket].Waiting?
      modifies this
      ensures State() == Step(old(State()), Event.Settle(ticket, reply))
    {
      var timedOut := requests[ticket].timedOut;
      requests := requests[ticket := Settled];
      if ticket == latest {
        match reply {
          case Found(found) =>
            candidates := found;
            shown := ticket;
            if |found| == 0 { error := EmptyResult; }
          case Aborted =>
            if timedOut { error := TimedOut; }
          case Rejected(reason) =>
            error := if timedOut then TimedOut else RequestFailed(reason);
        }
        StopClock();
        inflight := None;
        loading := false;
      }
    }
  }

  /* ----- What holds in every run ----- */

  /**
   A live clock and the request in flight belong to the newest ticket, which is still waiting; when the newest ticket
   is a run's (no cancel came after it), the field is loading exactly while that run waits.
   */
  ghost predicate Sound(r: Runner) {
    && (forall t | t in r.requests :: 0 < t <= r.latest) && r.shown <= r.latest
    && (r.inflight.Some? ==> r.inflight == Some(r.latest) && r.latest in r.requests && r.requests[r.latest].Waiting?)
    && (r.clock.Some? ==>
          && r.clock.value.ticket == r.latest && r.latest in r.requests
          && r.requests[r.latest] == Waiting(r.clock.value.fired))
    && (r.latest in r.requests ==>
          && (r.field.loading <==> r.requests[r.latest].Waiting?)
          && (r.requests[r.latest].Waiting? <==> r.inflight.Some?) && (r.inflight.Some? <==> r.clock.Some?))
  }

  lemma StepSound(r: Runner, e: Event)
    requires Sound(r)
    ensures Sound(Step(r, e))
  {
  }

  lemma {:induction false} EveryRunIsSound(field: Field, events: seq<Event>)
    ensures Sound(After(Fresh(field), events))
  {
    if events != [] {
      EveryRunIsSound(field, events[..|events| - 1]);
      StepSound(After(Fresh(field), events[..|events| - 1]), events[|events| - 1]);
    }
  }

  /**
   Only a new run and the reply to the newest ticket write the field; the ticket behind the candidates never goes back.
   */
  lemma OnlyTheNewestWrites(r: Runner, e: Event)
    requires Sound(r)
    ensures !e.Run? && !(e.Settle? && e.ticket == r.latest) ==>
              Step(r, e).field == r.field && Step(r, e).shown == r.shown
    ensures Step(r, e).field.candidates != r.field.candidates ==> Step(r, e).shown == r.latest
    ensures r.shown <= Step(r, e).shown && r.latest <= Step(r, e).latest
  {
  }

  lemma {:induction false} ShownNeverGoesBack(r: Runner, before: seq<Event>, after: seq<Event>)
    requires Sound(r)
    ensures Sound(After(r, before)) && After(r, before).shown <= After(r, before + after).shown
  {
    if after == [] {
      assert before + after == before;
      SoundAfter(r, before);
    } else {
      var init, last := after[..|after| - 1], after[|after| - 1];
      ShownNeverGoesBack(r, before, init);
      assert (before + after)[..|before + after| - 1] == before + init;
      SoundAfter(r, before + init);
      OnlyTheNewestWrites(After(r, before + init), last);
    }
  }

  lemma {:induction false} SoundAfter(r: Runner, events: seq<Event>)
    requires Sound(r)
    ensures Sound(After(r, events))
  {
    if events != [] {
      SoundAfter(r, events[..|events| - 1]);
      StepSound(After(r, events[..|events| - 1]), events[|events| - 1]);
    }
  }

  /* ----- The newest request decides ----- */

  /** Neither a new run nor a cancel. */
  predicate Undisturbed(events: seq<Event>) {
    forall i | 0 <= i < |events| :: !events[i].Run? && !events[i].Cancel?
  }

  predicate Settles(events: seq<Event>, ticket: nat) {
    exists i | 0 <= i < |events| :: events[i].Settle? && events[i].ticket == ticket
  }

  lemma SettlesMore(a: seq<Event>, b: seq<Event>, ticket: nat)
    ensures Settles(a, ticket) ==> Settles(a + b, ticket)
  {
    if Settles(a, ticket) {
      var i :| 0 <= i < |a| && a[i].Settle? && a[i].ticket == ticket;
      assert (a + b)[i] == a[i];
    }
  }

  /** While the newest run waits, nothing else gets through, and its clock remembers whether it fired. */
  lemma {:induction false} WaitingRunIsShielded(r: Runner, events: seq<Event>)
    requires Sound(r) && Undisturbed(events) && !Settles(events, r.latest + 1)
    ensures var s := After(Started(r), events);
            && s.latest == r.latest + 1 && s.latest in s.requests
            && s.requests[s.latest] == Waiting(ClockFires in events)
            && s.field == Started(r).field && Sound(s)
  {
    StepSound(r, Run);
    if events != [] {
      var init, last := events[..|events| - 1], events[|events| - 1];
      assert events == init + [last];
      SettlesMore(init, [last], r.latest + 1);
      WaitingRunIsShielded(r, init);
      StepSound(After(Started(r), init), last);
    }
  }

  /** Once the newest run has settled, late replies change nothing the user sees. */
  lemma {:induction false} SettledRunIsFinal(r: Runner, events: seq<Event>)
    requires Sound(r) && r.latest in r.requests && r.requests[r.latest].Settled? && Undisturbed(events)
    ensures var s := After(r, events);
            && Sound(s) && s.field == r.field && s.latest == r.latest && s.latest in s.requests
            && s.requests[s.latest].Settled?
  {
    if events != [] {
      var init, last := events[..|events| - 1], events[|events| - 1];
      assert events == init + [last];
      SettledRunIsFinal(r, init);
      StepSound(After(r, init), last);
    }
  }

  lemma {:induction false} AfterAppend(r: Runner, a: seq<Event>, b: seq<Event>)
    ensures After(r, a + b) == After(After(r, a), b)
  {
    if b == [] {
      assert a + b == a;
    } else {
      assert (a + b)[..|a + b| - 1] == a + b[..|b| - 1];
      AfterAppend(r, a, b[..|b| - 1]);
    }
  }

  /**
   Whatever else is in flight and in whatever order it comes back, the field ends as the newest run's own reply makes
   it: loading over, its candidates if it found any, and an error that is its own.  A reply that found something shows
   no error even if the clock has fired; any other is a time-out once it has.
   */
  lemma NewestDecides(field: Field, before: seq<Event>, between: seq<Event>, reply: Reply, after: seq<Event>)
    requires Undisturbed(between) && Undisturbed(after)
    requires var ticket := After(Fresh(field), before).latest + 1; !Settles(between, ticket)
    ensures var r := After(Fresh(field), before);
            var end := After(Fresh(field), before + ([Run] + (between + ([Settle(r.latest + 1, reply)] + after))));
            && !end.field.loading
            && end.field.candidates == (if reply.Found? then reply.candidates else r.field.candidates)
            && (end.field.error == EmptyResult <==> reply == Found([]))
            && (end.field.error == TimedOut <==> !reply.Found? && ClockFires in between)
            && (forall reason :: end.field.error == RequestFailed(reason) <==>
                  reply == Rejected(reason) && ClockFires !in between)
  {
    hide Step;
    var r := After(Fresh(field), before);
    var settle := Settle(r.latest + 1, reply);
    EveryRunIsSound(field, before);
    var tail := between + ([settle] + after);
    AfterAppend(Fresh(field), before, [Run] + tail);
    AfterAppend(r, [Run], tail);
    OneStep(r, Run);
    AfterAppend(Started(r), between, [settle] + after);
    WaitingRunIsShielded(r, between);
    var waiting := After(Started(r), between);
    AfterAppend(waiting, [settle], after);
    OneStep(waiting, settle);
    StepSound(waiting, settle);
    ReplyLands(waiting, reply);
    SettledRunIsFinal(Replied(waiting, r.latest + 1, reply), after);
  }

  /** After a cancel, until the next run, nothing that settles or fires changes what is shown. */
  lemma CancelSilences(field: Field, before: seq<Event>, after: seq<Event>)
    requires Undisturbed(after)
    ensures After(Fresh(field), before + ([Cancel] + after)).field == After(Fresh(field), before).field
  {
    var r := After(Fresh(field), before);
    EveryRunIsSound(field, before);
    AfterAppend(Fresh(field), before, [Cancel] + after);
    AfterAppend(r, [Cancel], after);
    OneStep(r, Cancel);
    StepSound(r, Cancel);
    RetiredIsFinal(Step(r, Cancel), after);
  }

  lemma {:induction false} RetiredIsFinal(r: Runner, events: seq<Event>)
    requires Sound(r) && r.latest !in r.requests && Undisturbed(events)
    ensures var s := After(r, events);
            Sound(s) && s.field == r.field && s.latest == r.latest && s.latest !in s.requests
  {
    if events != [] {
      var init, last := events[..|events| - 1], events[|events| - 1];
      assert events == init + [last];
      RetiredIsFinal(r, init);
      StepSound(After(r, init), last);
    }
  }

  lemma OneStep(r: Runner, e: Event)
    ensures After(r, [e]) == Step(r, e)
    ensures e.Run? ==> Step(r, e) == Started(r)
    ensures e.Settle? ==> Step(r, e) == Replied(r, e.ticket, e.reply)
  {
    assert [e][..0] == [];
  }

  lemma ReplyLands(r: Runner, reply: Reply)
    requires r.latest in r.requests && r.requests[r.latest].Waiting?
    ensures var s := Replied(r, r.latest, reply);
            && s.latest == r.latest && s.latest in s.requests && s.requests[s.latest].Settled?
            && s.field == Field(false, ErrorFor(reply, r.requests[r.latest].timedOut, r.field.error),
                                if reply.Found? then reply.candidates else r.field.candidates)
  {
  }
}
