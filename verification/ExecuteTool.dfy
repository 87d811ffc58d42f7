/**
 execute_tool (agents/utils.py): preflight, bounded retries, one fallback.

 The registry, the gateway, the budget ledger and the clock are an adversary: a script
 answers every question they are asked.  A log records what was asked of them, in order.
 ToolGateway.after_call is taken to return, as it does for every audit store.
 */
module ExecuteTool {
  import opened Options
  import opened RunClock

  /* ----- The adversary's answers ----- */

  datatype Outcome = NoResult | EmptySuccess | Content

  /** ledger.reserve_tool_call: granted, or RunBudgetExhausted on a dimension. */
  datatype Reservation = Granted | Refused(dimension: string)

  /** What a provider call comes back with. */
  datatype Answer =
    | Returned(outcome: Outcome, payload: string, transient: bool)
    | Raised(transient: bool)
    | RaisedBudget(dimension: string)
    | TimedOut
    | RaisedOther

  datatype AttemptScript = AttemptScript(
    clock: Clock, reservation: Reservation, callClock: Clock, answer: Answer, backoff: Clock)

  /** The registry lookup and the gateway before a call: it goes ahead, is decided, or breaks with an exception. */
  datatype BeforeAnswer = Allows | Decides(verdict: string) | Breaks

  datatype FallbackScript = FallbackScript(
    mapped: bool, lookupBreaks: bool, offlineAllowed: bool, registered: bool, listed: bool, argsBreak: bool,
    before: BeforeAnswer, reservation: Reservation, clock: Clock, answer: Answer)

  datatype Snapshot = NoSnapshot | Hit(payload: string)

  datatype Script = Script(
    before: BeforeAnswer, clock: Clock, budget: Option<string>, retriesExhausted: bool, snapshot: Snapshot,
    attempts: nat -> AttemptScript, fallback: FallbackScript)

  datatype Config = Config(maxRetries: int, ledger: bool, allowFallback: bool)

  /* ----- What is done ----- */

  datatype Event =
    | MainReserved
    | FallbackReserved
    | RetryRecorded
    | MainCalled(answer: Answer)
    | FallbackCalled(answer: Answer)
    | RetryScheduled
    | Audited
    | WindowShut
    | BudgetShut(dimension: string)
    | FallbackAsked

  datatype Kind = KMainReserved | KFallbackReserved | KRetry | KMainCalled | KFallbackCalled | KScheduled | KAudited

  predicate Is(e: Event, k: Kind) {
    match k
    case KMainReserved => e.MainReserved?
    case KFallbackReserved => e.FallbackReserved?
    case KRetry => e.RetryRecorded?
    case KMainCalled => e.MainCalled?
    case KFallbackCalled => e.FallbackCalled?
    case KScheduled => e.RetryScheduled?
    case KAudited => e.Audited?
  }

  datatype Status = Success | Degraded | Failed

  datatype Envelope = Envelope(
    status: Status, payload: Option<string>, empty: bool, retryCount: nat, windowClosed: bool,
    budgetExhausted: Option<string>, retriesExhausted: bool, blockedFallback: bool)

  datatype Result =
    | FromGateway(verdict: string)
    | FromFallbackGateway(fallbackVerdict: string)
    | Preflight(refusal: Envelope)
    | Answered(envelope: Envelope)
    | Propagated

  const FAILED := Envelope(Failed, None, false, 0, false, None, false, false)

  /** An answer that counts as the provider's own: content, or an explicit empty result. */
  predicate Succeeds(a: Answer) {
    a.Returned? && !a.outcome.NoResult?
  }

  /** A failure worth another attempt. */
  predicate Transient(a: Answer) {
    (a.Returned? && a.outcome.NoResult? && a.transient) || (a.Raised? && a.transient)
  }

  /* ----- One attempt ----- */

  datatype Verdict = Done(answer: Answer) | Again | GiveUp | ShutWindow | ShutBudget(dimension: string) | Throw

  datatype Tried = Tried(events: seq<Event>, verdict: Verdict)

  /** What follows a provider answer: success, another attempt after a backoff, or the end. */
  function AfterCall(a: Answer, last: bool, backoff: Clock): Tried {
    if Succeeds(a) then Tried([Audited], Done(a))
    else if a.RaisedOther? then Tried([], Throw)
    else if a.TimedOut? then Tried([], ShutWindow)
    else if a.RaisedBudget? then Tried([], ShutBudget(a.dimension))
    else if Transient(a) && !last then
      Tried([RetryScheduled, Audited],
            match backoff case Open => Again case Closed => ShutWindow case Cancelled => Throw)
    else Tried([], GiveUp)
  }

  /** What the ledger is told before a call: a reservation, and a retry on every attempt but the first. */
  function Reserved(ledger: bool, retry: bool): seq<Event> {
    if !ledger then [] else if retry then [MainReserved, RetryRecorded] else [MainReserved]
  }

  function Attempted(cfg: Config, k: nat, s: AttemptScript): Tried {
    if s.clock.Cancelled? then Tried([], Throw)
    else if s.clock.Closed? then Tried([], ShutWindow)
    else if cfg.ledger && s.reservation.Refused? then Tried([], ShutBudget(s.reservation.dimension))
    else
      var reserved := Reserved(cfg.ledger, k > 0);
      if s.callClock.Cancelled? then Tried(reserved, Throw)
      else if s.callClock.Closed? then Tried(reserved, ShutWindow)
      else
        var after := AfterCall(s.answer, k == cfg.maxRetries, s.backoff);
        Tried(reserved + ([MainCalled(s.answer)] + after.events), after.verdict)
  }

  /* ----- The fallback ----- */

  datatype FallbackVerdict =
    | Replaced(answer: Answer) | GatewayDecided(verdict: string) | Unavailable(blocked: bool) | FallbackWindowClosed

  datatype FellBack = FellBack(events: seq<Event>, verdict: FallbackVerdict)

  predicate FallbackPossible(cfg: Config, f: FallbackScript) {
    cfg.allowFallback && !f.lookupBreaks && f.mapped && f.offlineAllowed && f.registered && f.listed && !f.argsBreak
  }

  function CalledFallback(f: FallbackScript): FellBack {
    if f.clock.Closed? then FellBack([WindowShut], FallbackWindowClosed)
    else if f.clock.Cancelled? then FellBack([], Unavailable(false))
    else if Succeeds(f.answer) then FellBack([FallbackCalled(f.answer), Audited], Replaced(f.answer))
    else if f.answer.TimedOut? then FellBack([FallbackCalled(f.answer), WindowShut], FallbackWindowClosed)
    else FellBack([FallbackCalled(f.answer)], Unavailable(false))
  }

  function AskedFallback(ledger: bool, f: FallbackScript): FellBack {
    if f.before.Breaks? then FellBack([], Unavailable(false))
    else if f.before.Decides? then FellBack([], GatewayDecided(f.before.verdict))
    else if !ledger then CalledFallback(f)
    else if f.reservation.Refused? then FellBack([], Unavailable(false))
    else
      var called := CalledFallback(f);
      FellBack([FallbackReserved] + called.events, called.verdict)
  }

  function FallbackTried(cfg: Config, f: FallbackScript): FellBack {
    if f.lookupBreaks || !cfg.allowFallback || !f.mapped || !f.offlineAllowed || !f.registered then
        FellBack([], Unavailable(false))
    else if !f.listed then FellBack([], Unavailable(true))
    else if f.argsBreak then FellBack([], Unavailable(false))
    else
      var asked := AskedFallback(cfg.ledger, f);
      FellBack([FallbackAsked] + asked.events, asked.verdict)
  }

  /* ----- Counting in logs ----- */

  function Count(log: seq<Event>, k: Kind): nat {
    if log == [] then 0 else Count(log[..|log| - 1], k) + (if Is(log[|log| - 1], k) then 1 else 0)
  }

  lemma {:induction false} CountAppend(a: seq<Event>, b: seq<Event>, k: Kind)
    ensures Count(a + b, k) == Count(a, k) + Count(b, k)
  {
    if b == [] {
      assert a + b == a;
    } else {
      assert (a + b)[..|a + b| - 1] == a + b[..|b| - 1];
      CountAppend(a, b[..|b| - 1], k);
    }
  }

  lemma CountOne(e: Event, k: Kind)
    ensures Count([e], k) == if Is(e, k) then 1 else 0
  {
    assert [e][..0] == [];
  }

  /** In every prefix, no more calls than granted reservations. */
  ghost predicate CallsFollowReservations(log: seq<Event>) {
    forall n | 0 <= n <= |log| ::
      && Count(log[..n], KMainCalled) <= Count(log[..n], KMainReserved)
      && Count(log[..n], KFallbackCalled) <= Count(log[..n], KFallbackReserved)
  }

  lemma CallsFollowAppend(a: seq<Event>, b: seq<Event>)
    requires CallsFollowReservations(a) && CallsFollowReservations(b)
    ensures CallsFollowReservations(a + b)
  {
    assert a[..|a|] == a;
    forall n | 0 <= n <= |a + b|
      ensures Count((a + b)[..n], KMainCalled) <= Count((a + b)[..n], KMainReserved)
      ensures Count((a + b)[..n], KFallbackCalled) <= Count((a + b)[..n], KFallbackReserved)
    {
      if n <= |a| {
        assert (a + b)[..n] == a[..n];
      } else {
        assert (a + b)[..n] == a + b[..n - |a|];
        CountAppend(a, b[..n - |a|], KMainCalled);
        CountAppend(a, b[..n - |a|], KMainReserved);
        CountAppend(a, b[..n - |a|], KFallbackCalled);
        CountAppend(a, b[..n - |a|], KFallbackReserved);
      }
    }
  }

  function B(b: bool): nat {
    if b then 1 else 0
  }

  lemma CountsAppend(a: seq<Event>, b: seq<Event>)
    ensures forall k :: Count(a + b, k) == Count(a, k) + Count(b, k)
  {
    forall k
      ensures Count(a + b, k) == Count(a, k) + Count(b, k)
    {
      CountAppend(a, b, k);
    }
  }

  lemma CountsCons(e: Event, rest: seq<Event>)
    ensures forall k :: Count([e] + rest, k) == (if Is(e, k) then Count(rest, k) + 1 else Count(rest, k))
  {
    forall k
      ensures Count([e] + rest, k) == (if Is(e, k) then Count(rest, k) + 1 else Count(rest, k))
    {
      CountAppend([e], rest, k);
      CountOne(e, k);
    }
  }

  /* ----- What one attempt does ----- */

  /** The events of attempts that failed and were tried again. */
  predicate Routine(e: Event) {
    e.MainReserved? || e.RetryRecorded? || (e.MainCalled? && Transient(e.answer)) || e.RetryScheduled? || e.Audited?
  }

  /** The counts one attempt adds, by how it ended. */
  ghost predicate AttemptTally(cfg: Config, k: nat, t: Tried) {
    var reserved, calls := Count(t.events, KMainReserved), Count(t.events, KMainCalled);
    var scheduled := Count(t.events, KScheduled);
    && Count(t.events, KFallbackReserved) == Count(t.events, KFallbackCalled) == 0 && reserved <= 1 && calls <= 1
    && Count(t.events, KRetry) == (if k > 0 then reserved else 0)
    && (cfg.ledger ==> calls <= reserved) && (!cfg.ledger ==> reserved == 0)
    && Count(t.events, KAudited) == scheduled + B(t.verdict.Done?)
    && (t.verdict.Again? ==> calls == scheduled == 1 && (cfg.ledger ==> reserved == 1))
    && (t.verdict.Done? ==> calls == 1 && scheduled == 0)
  }

  ghost predicate Counted(log: seq<Event>, mainReserved: nat, retries: nat, mainCalls: nat, scheduled: nat,
                          audits: nat) {
    && Count(log, KMainReserved) == mainReserved && Count(log, KRetry) == retries
    && Count(log, KMainCalled) == mainCalls
    && Count(log, KScheduled) == scheduled && Count(log, KAudited) == audits
    && Count(log, KFallbackReserved) == 0 && Count(log, KFallbackCalled) == 0
  }

  lemma NothingYet(log: seq<Event>)
    requires log == []
    ensures Counted(log, 0, 0, 0, 0, 0)
  {
  }

  lemma Just(e: Event)
    ensures forall k :: Count([e], k) == if Is(e, k) then 1 else 0
  {
    forall k
      ensures Count([e], k) == if Is(e, k) then 1 else 0
    {
      CountOne(e, k);
    }
  }

  lemma Pair(e: Event, f: Event)
    ensures forall k :: Count([e, f], k) == if Is(e, k) then (if Is(f, k) then 2 else 1) else if Is(f, k) then 1 else 0
  {
    hide Count;
    assert [e, f] == [e] + [f];
    CountsCons(e, [f]);
    Just(f);
  }

  lemma ReservedCounts(ledger: bool, retry: bool)
    ensures Counted(Reserved(ledger, retry), B(ledger), B(ledger && retry), 0, 0, 0)
  {
    hide Count;
    if !ledger {
      NothingYet(Reserved(ledger, retry));
    } else if retry {
      Pair(MainReserved, RetryRecorded);
    } else {
      Just(MainReserved);
    }
  }

  lemma AfterCallCounts(a: Answer, last: bool, backoff: Clock)
    ensures var t := AfterCall(a, last, backoff);
            && |t.events| <= 2 && Counted(t.events, 0, 0, 0, B(|t.events| == 2), B(|t.events| > 0))
            && (t.verdict.Done? <==> |t.events| == 1) && (t.verdict.Again? ==> |t.events| == 2)
  {
    hide Count;
    var events := AfterCall(a, last, backoff).events;
    if |events| == 0 {
      NothingYet(events);
    } else if |events| == 1 {
      Just(Audited);
    } else {
      Pair(RetryScheduled, Audited);
    }
  }

  lemma AttemptCounts(cfg: Config, k: nat, s: AttemptScript)
    ensures AttemptTally(cfg, k, Attempted(cfg, k, s))
    ensures cfg.ledger ==> CallsFollowReservations(Attempted(cfg, k, s).events)
  {
    hide AfterCall, CallsFollowReservations, Count, Reserved;
    if s.clock.Open? && !(cfg.ledger && s.reservation.Refused?) {
      ReservedCounts(cfg.ledger, k > 0);
      ReservedStart(k > 0);
      var reserved := Reserved(cfg.ledger, k > 0);
      if s.callClock.Open? {
        var after := AfterCall(s.answer, k == cfg.maxRetries, s.backoff);
        AfterCallCounts(s.answer, k == cfg.maxRetries, s.backoff);
        CountsCons(MainCalled(s.answer), after.events);
        CountsAppend(reserved, [MainCalled(s.answer)] + after.events);
        if cfg.ledger {
          ReservedSegment(reserved + ([MainCalled(s.answer)] + after.events));
        }
      } else if cfg.ledger {
        ReservedSegment(reserved);
      }
    } else {
      var events := Attempted(cfg, k, s).events;
      NothingYet(events);
      ReservedSegment(events);
    }
  }

  lemma ReservedStart(retry: bool)
    ensures var r := Reserved(true, retry); |r| > 0 && r[0] == MainReserved
  {
  }

  /** A log that starts by reserving a main call and makes at most one call follows its reservation. */
  lemma ReservedSegment(events: seq<Event>)
    requires events != [] ==> events[0] == MainReserved
    requires Count(events, KMainCalled) <= 1 && Count(events, KFallbackCalled) == 0
    ensures CallsFollowReservations(events)
  {
    forall n | 0 <= n <= |events|
      ensures Count(events[..n], KMainCalled) <= Count(events[..n], KMainReserved)
      ensures Count(events[..n], KFallbackCalled) <= Count(events[..n], KFallbackReserved)
    {
      assert events == events[..n] + events[n..];
      CountAppend(events[..n], events[n..], KMainCalled);
      CountAppend(events[..n], events[n..], KFallbackCalled);
      if n > 0 {
        assert events[..n] == [MainReserved] + events[1..n];
        CountAppend([MainReserved], events[1..n], KMainReserved);
        CountOne(MainReserved, KMainReserved);
      }
    }
  }

  /* ----- Order of events ----- */

  predicate IsCall(e: Event) {
    e.MainCalled? || e.FallbackCalled?
  }

  predicate Good(e: Event) {
    IsCall(e) && Succeeds(e.answer)
  }

  predicate Shut(e: Event) {
    e.WindowShut? || e.BudgetShut?
  }

  predicate OfFallback(e: Event) {
    e.FallbackReserved? || e.FallbackCalled? || e.FallbackAsked?
  }

  /**
   A call is only ever made after failures, never after the window or the budget was recorded shut, and a second
   call to the main tool only after failures worth retrying.
   */
  ghost predicate Orderly(log: seq<Event>) {
    forall i, j | 0 <= i < j < |log| && IsCall(log[j]) ::
      !Shut(log[i]) && !Good(log[i]) && (log[j].MainCalled? ==> Routine(log[i]))
  }

  ghost predicate AllRoutine(log: seq<Event>) {
    forall i | 0 <= i < |log| :: Routine(log[i])
  }

  /** Nothing in the log belongs to the fallback or records a shut window or budget. */
  ghost predicate MainOnly(log: seq<Event>) {
    forall i | 0 <= i < |log| :: !Shut(log[i]) && !OfFallback(log[i])
  }

  ghost predicate NoCall(log: seq<Event>) {
    forall i | 0 <= i < |log| :: !IsCall(log[i])
  }

  ghost predicate NoneGood(log: seq<Event>) {
    forall i | 0 <= i < |log| :: !Good(log[i])
  }

  ghost predicate AttemptShape(t: Tried) {
    && Orderly(t.events) && MainOnly(t.events)
    && (t.verdict.Again? ==> AllRoutine(t.events))
    && (if t.verdict.Done? then Succeeds(t.verdict.answer) && MainCalled(t.verdict.answer) in t.events
          else NoneGood(t.events))
  }

  predicate Quiet(e: Event) {
    e.MainReserved? || e.RetryRecorded? || e.RetryScheduled? || e.Audited?
  }

  ghost predicate AllQuiet(log: seq<Event>) {
    forall i | 0 <= i < |log| :: Quiet(log[i])
  }

  lemma OneCallShape(before: seq<Event>, a: Answer, after: seq<Event>)
    requires AllQuiet(before) && AllQuiet(after)
    ensures var log := before + ([MainCalled(a)] + after);
            && Orderly(log) && MainOnly(log) && MainCalled(a) in log
            && (Transient(a) ==> AllRoutine(log)) && (!Succeeds(a) ==> NoneGood(log))
  {
    var log := before + ([MainCalled(a)] + after);
    assert log[|before|] == MainCalled(a);
    assert forall i | 0 <= i < |log| && i != |before| :: Quiet(log[i]);
  }

  lemma QuietShape(log: seq<Event>)
    requires AllQuiet(log)
    ensures Orderly(log) && MainOnly(log) && AllRoutine(log) && NoneGood(log)
  {
  }

  lemma AfterCallVerdict(a: Answer, last: bool, backoff: Clock)
    ensures var t := AfterCall(a, last, backoff);
            && AllQuiet(t.events) && (t.verdict.Again? ==> Transient(a)) && (t.verdict.Done? <==> Succeeds(a))
            && (t.verdict.Done? ==> t.verdict.answer == a)
  {
  }

  lemma AttemptIsShaped(cfg: Config, k: nat, s: AttemptScript)
    ensures AttemptShape(Attempted(cfg, k, s))
  {
    hide AfterCall, Transient, Succeeds, Orderly, MainOnly, NoneGood, AllRoutine;
    var t := Attempted(cfg, k, s);
    var reserved := Reserved(cfg.ledger, k > 0);
    if s.clock.Open? && !(cfg.ledger && s.reservation.Refused?) && s.callClock.Open? {
      var after := AfterCall(s.answer, k == cfg.maxRetries, s.backoff);
      AfterCallVerdict(s.answer, k == cfg.maxRetries, s.backoff);
      OneCallShape(reserved, s.answer, after.events);
    } else {
      QuietShape(t.events);
    }
  }

  lemma OrderlyAfterRoutine(a: seq<Event>, b: seq<Event>)
    requires AllRoutine(a) && Orderly(b)
    ensures Orderly(a + b)
  {
  }

  lemma OrderlyAppend(a: seq<Event>, b: seq<Event>)
    requires Orderly(a) && Orderly(b) && (NoCall(b) || (MainOnly(a) && NoneGood(a)))
    requires forall i | 0 <= i < |b| :: !b[i].MainCalled?
    ensures Orderly(a + b)
  {
  }

  /* ----- The attempt loop ----- */

  /** What the loop leaves behind, for any script: order, counts, and what its verdict means. */
  ghost predicate LoopDone(cfg: Config, log: seq<Event>, end: Verdict, retries: nat) {
    && Orderly(log) && MainOnly(log) && !end.Again?
    && (if end.Done? then
          && Succeeds(end.answer) && MainCalled(end.answer) in log
          && retries == Count(log, KScheduled) == Count(log, KMainCalled) - 1
        else NoneGood(log))
    && LoopCounts(cfg, log, end) && Tenacious(cfg, log, end)
    && (cfg.ledger ==> CallsFollowReservations(log))
  }

  /** Giving up means every allowed attempt was made, or one failed in a way not worth retrying. */
  ghost predicate Tenacious(cfg: Config, log: seq<Event>, end: Verdict) {
    end.GiveUp? ==>
      || Count(log, KMainCalled) == (if cfg.maxRetries < 0 then 0 else cfg.maxRetries + 1)
      || exists a :: MainCalled(a) in log && !Transient(a)
  }

  ghost predicate LoopCounts(cfg: Config, log: seq<Event>, end: Verdict) {
    var reserved := Count(log, KMainReserved);
    && Count(log, KMainCalled) <= (if cfg.maxRetries < 0 then 0 else cfg.maxRetries + 1)
    && Count(log, KRetry) == (if reserved > 0 then reserved - 1 else 0) && (!cfg.ledger ==> reserved == 0)
    && Count(log, KFallbackReserved) == Count(log, KFallbackCalled) == 0
    && Count(log, KAudited) == Count(log, KScheduled) + B(end.Done?)
  }

  /** The loop's state at the top of attempt `k`: every attempt so far failed and was scheduled again. */
  ghost predicate Retrying(cfg: Config, log: seq<Event>, k: nat) {
    && AllRoutine(log) && Counted(log, if cfg.ledger then k else 0, if cfg.ledger && k > 0 then k - 1 else 0, k, k, k)
    && (cfg.ledger ==> CallsFollowReservations(log))
  }

  lemma RetryStep(cfg: Config, k: nat, s: AttemptScript, log: seq<Event>)
    requires Retrying(cfg, log, k) && k <= cfg.maxRetries
    ensures var t := Attempted(cfg, k, s);
            if t.verdict.Again? then Retrying(cfg, log + t.events, k + 1) && k < cfg.maxRetries
            else LoopDone(cfg, log + t.events, t.verdict, k)
  {
    WhyGivenUp(cfg, k, s);
    hide Attempted, CallsFollowReservations, Count;
    var t := Attempted(cfg, k, s);
    AttemptCounts(cfg, k, s);
    AttemptIsShaped(cfg, k, s);
    CountsAppend(log, t.events);
    if cfg.ledger {
      CallsFollowAppend(log, t.events);
    }
    OrderlyAfterRoutine(log, t.events);
    if t.verdict.Done? {
      InAppend(MainCalled(t.verdict.answer), log, t.events);
    }
    if t.verdict.GiveUp? {
      InAppend(MainCalled(s.answer), log, t.events);
      Called(MainCalled(s.answer), t.events);
    }
  }

  lemma WhyGivenUp(cfg: Config, k: nat, s: AttemptScript)
    ensures var t := Attempted(cfg, k, s);
            && (t.verdict.Again? ==> k != cfg.maxRetries)
            && (t.verdict.GiveUp? ==> MainCalled(s.answer) in t.events && (Transient(s.answer) ==> k == cfg.maxRetries))
  {
    hide Succeeds, Transient;
    var n := |Reserved(cfg.ledger, k > 0)|;
    var t := Attempted(cfg, k, s);
    if t.verdict.GiveUp? {
      assert t.events[n] == MainCalled(s.answer);
    }
  }

  lemma InAppend(e: Event, a: seq<Event>, b: seq<Event>)
    requires e in b
    ensures e in a + b
  {
  }

  lemma Called(e: Event, log: seq<Event>)
    requires e in log && e.MainCalled?
    ensures Count(log, KMainCalled) > 0
  {
  }

  /** The log, verdict and last attempt's number the script leads to, from attempt `k` on. */
  function Attempts(cfg: Config, attempts: nat -> AttemptScript, k: nat,
                    log: seq<Event>): (r: (seq<Event>, Verdict, nat))
    ensures !r.1.Again? && (r.1.Done? ==> Succeeds(r.1.answer))
    decreases cfg.maxRetries - k
  {
    if k > cfg.maxRetries then (log, GiveUp, k)
    else
      var t := Attempted(cfg, k, attempts(k));
      if t.verdict.Again? then Attempts(cfg, attempts, k + 1, log + t.events) else (log + t.events, t.verdict, k)
  }

  lemma LoopStart(cfg: Config, log: seq<Event>)
    requires log == []
    ensures Retrying(cfg, log, 0) && (cfg.maxRetries < 0 ==> LoopDone(cfg, log, GiveUp, 0))
  {
    NothingYet(log);
    ReservedSegment(log);
  }

  /** The attempt loop of execute_tool. */
  method AttemptLoop(cfg: Config, attempts: nat -> AttemptScript) returns (log: seq<Event>, end: Verdict, retries: nat)
    ensures LoopDone(cfg, log, end, retries)
    ensures (log, end, retries) == Attempts(cfg, attempts, 0, [])
  {
    log, end, retries := [], GiveUp, 0;
    LoopStart(cfg, log);
    while retries <= cfg.maxRetries
      invariant retries <= cfg.maxRetries || (retries == 0 && cfg.maxRetries < 0)
      invariant Retrying(cfg, log, retries) && end == GiveUp
      invariant cfg.maxRetries < 0 ==> LoopDone(cfg, log, end, retries)
      invariant Attempts(cfg, attempts, retries, log) == Attempts(cfg, attempts, 0, [])
    {
      hide Attempted, LoopDone, Retrying;
      var tried := Attempted(cfg, retries, attempts(retries));
      RetryStep(cfg, retries, attempts(retries), log);
      log := log + tried.events;
      if !tried.verdict.Again? {
        end := tried.verdict;
        return;
      }
      retries := retries + 1;
    }
  }

  /* ----- The fallback's part of a log ----- */

  ghost predicate FallbackShape(cfg: Config, f: FallbackScript, b: FellBack) {
    && Orderly(b.events) && (forall i | 0 <= i < |b.events| :: !b.events[i].MainCalled? && !b.events[i].BudgetShut?)
    && (FallbackAsked in b.events <==> FallbackPossible(cfg, f))
    && (WindowShut in b.events <==> b.verdict.FallbackWindowClosed?)
    && (b.verdict == Unavailable(true) ==> !f.listed && b.events == [])
    && (b.verdict.GatewayDecided? ==> FallbackAsked in b.events)
    && (if b.verdict.Replaced? then Succeeds(b.verdict.answer) && FallbackCalled(b.verdict.answer) in b.events
          else NoneGood(b.events))
  }

  ghost predicate FallbackCounts(cfg: Config, b: FellBack) {
    && Count(b.events, KMainReserved) == Count(b.events, KMainCalled) == Count(b.events, KRetry)
          == Count(b.events, KScheduled) == 0
    && Count(b.events, KFallbackCalled) <= 1 && Count(b.events, KFallbackReserved) <= 1
    && (cfg.ledger ==> Count(b.events, KFallbackCalled) <= Count(b.events, KFallbackReserved))
    && Count(b.events, KAudited) == B(b.verdict.Replaced?)
  }

  ghost predicate AskedShape(b: FellBack) {
    && Orderly(b.events)
    && (forall i | 0 <= i < |b.events| :: !b.events[i].MainCalled? && !b.events[i].BudgetShut?
          && !b.events[i].FallbackAsked?)
    && (WindowShut in b.events <==> b.verdict.FallbackWindowClosed?) && b.verdict != Unavailable(true)
    && (if b.verdict.Replaced? then Succeeds(b.verdict.answer) && FallbackCalled(b.verdict.answer) in b.events
          else NoneGood(b.events))
  }

  lemma CalledFallbackShape(f: FallbackScript)
    ensures AskedShape(CalledFallback(f))
  {
  }

  lemma OneMoreShape(e: Event, b: FellBack)
    requires AskedShape(b) && (e.FallbackReserved? || e.FallbackAsked?)
    ensures var c := FellBack([e] + b.events, b.verdict);
            if e.FallbackReserved? then AskedShape(c) else Orderly(c.events) && FallbackAsked in c.events
  {
    var events := [e] + b.events;
    assert forall i | 0 < i < |events| :: events[i] == b.events[i - 1];
    assert forall x :: x in b.events ==> x in events;
    assert events[0] == e;
  }

  lemma OrderlyEmpty(log: seq<Event>)
    ensures log == [] ==> Orderly(log)
  {
  }

  lemma EmptyShape(b: FellBack)
    requires b.events == [] && (b.verdict == Unavailable(false) || b.verdict.GatewayDecided?)
    ensures AskedShape(b)
  {
  }

  lemma AskedFallbackShape(ledger: bool, f: FallbackScript)
    ensures AskedShape(AskedFallback(ledger, f))
  {
    var asked := AskedFallback(ledger, f);
    if |asked.events| == 0 && !asked.verdict.Replaced? && !asked.verdict.FallbackWindowClosed?
        && asked.verdict != Unavailable(true) {
      EmptyShape(asked);
    }
    hide AskedShape, CalledFallback;
    CalledFallbackShape(f);
    OneMoreShape(FallbackReserved, CalledFallback(f));
  }

  lemma FallbackIsShaped(cfg: Config, f: FallbackScript)
    ensures FallbackShape(cfg, f, FallbackTried(cfg, f))
  {
    var asked := AskedFallback(cfg.ledger, f);
    AskedFallbackShape(cfg.ledger, f);
    OneMoreShape(FallbackAsked, asked);
    OrderlyEmpty(FallbackTried(cfg, f).events);
    hide AskedFallback, Succeeds, Orderly;
    if FallbackPossible(cfg, f) {
      var events := [FallbackAsked] + asked.events;
      assert forall i | 0 < i < |events| :: events[i] == asked.events[i - 1];
      assert forall x :: x in asked.events ==> x in events;
    }
  }

  lemma CalledFallbackCounts(f: FallbackScript)
    ensures var b := CalledFallback(f);
            && Count(b.events, KMainReserved) == Count(b.events, KMainCalled) == Count(b.events, KRetry) == 0
            && Count(b.events, KScheduled) == Count(b.events, KFallbackReserved) == 0
            && Count(b.events, KFallbackCalled) <= 1
            && Count(b.events, KAudited) == B(b.verdict.Replaced?)
  {
    hide Count, Succeeds;
    var events := CalledFallback(f).events;
    if |events| == 0 {
      NoneOfAny(events);
    } else if |events| == 1 {
      Just(events[0]);
      assert events == [events[0]];
    } else {
      Pair(events[0], events[1]);
      assert events == [events[0], events[1]];
    }
  }

  lemma NoneOfAny(log: seq<Event>)
    requires log == []
    ensures forall k :: Count(log, k) == 0
  {
  }

  lemma FallbackIsCounted(cfg: Config, f: FallbackScript)
    ensures FallbackCounts(cfg, FallbackTried(cfg, f))
    ensures cfg.ledger ==> CallsFollowReservations(FallbackTried(cfg, f).events)
  {
    hide Count, CalledFallback, CallsFollowReservations;
    var b := FallbackTried(cfg, f);
    if |b.events| == 0 {
      NoneOfAny(b.events);
      FallbackSegment(b.events);
    } else {
      var asked := AskedFallback(cfg.ledger, f);
      CountsCons(FallbackAsked, asked.events);
      CalledFallbackCounts(f);
      if |asked.events| == 0 {
        NoneOfAny(asked.events);
      } else {
        CountsCons(FallbackReserved, CalledFallback(f).events);
      }
      if cfg.ledger {
        FallbackSegment(b.events);
      }
    }
  }

  /** A log that reserves a fallback call before anything else follows its reservation. */
  lemma FallbackSegment(events: seq<Event>)
    requires |events| > 1 ==> events[0] == FallbackAsked && events[1] == FallbackReserved
    requires |events| == 1 ==> events[0] == FallbackAsked
    requires Count(events, KMainCalled) == 0 && Count(events, KFallbackCalled) <= 1
    ensures CallsFollowReservations(events)
  {
    hide Count;
    forall n | 0 <= n <= |events|
      ensures Count(events[..n], KMainCalled) <= Count(events[..n], KMainReserved)
      ensures Count(events[..n], KFallbackCalled) <= Count(events[..n], KFallbackReserved)
    {
      assert events == events[..n] + events[n..];
      CountAppend(events[..n], events[n..], KMainCalled);
      CountAppend(events[..n], events[n..], KFallbackCalled);
      if n > 1 {
        AtLeastOne(events[..n], 1, KFallbackReserved);
      } else if n == 1 {
        assert events[..1] == [FallbackAsked];
        Just(FallbackAsked);
      } else {
        NoneOfAny(events[..0]);
      }
    }
  }

  lemma AtLeastOne(log: seq<Event>, i: nat, k: Kind)
    requires i < |log| && Is(log[i], k)
    ensures Count(log, k) > 0
  {
    if i < |log| - 1 {
      AtLeastOne(log[..|log| - 1], i, k);
    }
  }

  /* ----- The whole call ----- */

  /** Nothing was turned away before the first attempt or the provider snapshot. */
  predicate PastPreflight(cfg: Config, s: Script) {
    s.before.Allows? && s.clock.Open? && (cfg.ledger ==> s.budget.None? && !s.retriesExhausted)
  }

  /** What a call turned away before any attempt comes back with. */
  function Refusal(cfg: Config, s: Script): Result
    requires !PastPreflight(cfg, s)
  {
    if s.before.Breaks? then Propagated
    else if s.before.Decides? then FromGateway(s.before.verdict)
    else if s.clock.Cancelled? then Propagated
    else if s.clock.Closed? then Preflight(FAILED.(windowClosed := true))
    else if s.budget.Some? then Preflight(FAILED.(budgetExhausted := s.budget))
    else Preflight(FAILED.(retriesExhausted := true))
  }

  /** Calls in order, each after its own reservation, within the bounds. */
  ghost predicate Disciplined(cfg: Config, log: seq<Event>) {
    var reserved := Count(log, KMainReserved);
    && Orderly(log) && (cfg.ledger ==> CallsFollowReservations(log))
    && Count(log, KMainCalled) <= (if cfg.maxRetries < 0 then 0 else cfg.maxRetries + 1)
    && Count(log, KFallbackCalled) <= 1
    && Count(log, KRetry) == (if reserved > 0 then reserved - 1 else 0)
    && Count(log, KFallbackReserved) <= 1 && (!cfg.ledger ==> reserved == 0)
  }

  /** The envelope says what the log shows. */
  ghost predicate TellsHistory(s: Script, log: seq<Event>, e: Envelope) {
    && (e.status.Success? <==> s.snapshot.Hit? || exists a :: MainCalled(a) in log && Succeeds(a))
    && (e.status.Degraded? <==> exists a :: FallbackCalled(a) in log && Succeeds(a))
    && (e.status.Success? && !s.snapshot.Hit? ==>
          && (exists a :: MainCalled(a) in log && Succeeds(a) && e.payload == Some(a.payload)
                && (e.empty <==> a.outcome.EmptySuccess?))
          && e.retryCount == Count(log, KScheduled) == Count(log, KMainCalled) - 1)
    && (e.status.Degraded? ==>
          exists a :: FallbackCalled(a) in log && Succeeds(a) && e.payload == Some(a.payload)
              && (e.empty <==> a.outcome.EmptySuccess?))
    && (s.snapshot.Hit? ==> e.payload == Some(s.snapshot.payload) && NoCall(log))
    && (e.status.Failed? ==> e.payload.None?)
    && (e.windowClosed <==> WindowShut in log)
    && (forall d :: e.budgetExhausted == Some(d) <==> BudgetShut(d) in log)
  }

  ghost predicate AuditsMatch(log: seq<Event>, result: Result) {
    && (result.Answered? ==> Count(log, KAudited) == Count(log, KScheduled) + 1)
    && (result.FromFallbackGateway? ==> Count(log, KAudited) == Count(log, KScheduled))
  }

  /** The gateway is asked about the fallback exactly when it may stand in: possible, main failed, nothing shut. */
  ghost predicate FallbackAskedWhenDue(cfg: Config, s: Script, log: seq<Event>, result: Result) {
    && (FallbackAsked in log ==> FallbackPossible(cfg, s.fallback))
    && (result.FromFallbackGateway? ==> FallbackAsked in log)
    && (result.Answered? && result.envelope.blockedFallback ==> !s.fallback.listed && FallbackAsked !in log)
    && (result.Answered? && result.envelope.status.Failed? && FallbackPossible(cfg, s.fallback) ==>
          FallbackAsked in log || (exists i | 0 <= i < |log| :: Shut(log[i])))
  }

  ghost predicate Honest(cfg: Config, s: Script, log: seq<Event>, result: Result) {
    && Disciplined(cfg, log) && AuditsMatch(log, result) && FallbackAskedWhenDue(cfg, s, log, result)
    && (result.Answered? ==> TellsHistory(s, log, result.envelope))
    && !result.FromGateway? && !result.Preflight?
  }

  function Winning(status: Status, a: Answer, retries: nat): Envelope
    requires Succeeds(a)
  {
    Envelope(status, Some(a.payload), a.outcome.EmptySuccess?, retries, false, None, false, false)
  }

  lemma SnapshotIsHonest(cfg: Config, s: Script, e: Envelope)
    requires s.snapshot.Hit? && e == Envelope(Success, Some(s.snapshot.payload), false, 0, false, None, false, false)
    ensures Honest(cfg, s, [Audited], Answered(e))
  {
    Just(Audited);
    FollowsQuietly([Audited]);
  }

  lemma DoneIsHonest(cfg: Config, s: Script, main: seq<Event>, end: Verdict, retries: nat)
    requires LoopDone(cfg, main, end, retries) && s.snapshot.NoSnapshot?
    requires end.Done?
    ensures Honest(cfg, s, main, Answered(Winning(Success, end.answer, retries)))
  {
    hide Count, CallsFollowReservations;
  }

  lemma ThrowIsHonest(cfg: Config, s: Script, main: seq<Event>, end: Verdict, retries: nat)
    requires LoopDone(cfg, main, end, retries) && end.Throw?
    ensures Honest(cfg, s, main, Propagated)
  {
    hide Count, CallsFollowReservations;
  }

  /** After a shut window or an exhausted budget: recorded, audited, and no fallback. */
  lemma ShutIsHonest(cfg: Config, s: Script, main: seq<Event>, end: Verdict, retries: nat, shut: Event, e: Envelope)
    requires LoopDone(cfg, main, end, retries) && s.snapshot.NoSnapshot?
    requires end.ShutWindow? || end.ShutBudget?
    requires shut == (if end.ShutWindow? then WindowShut else BudgetShut(end.dimension))
    requires e == (if end.ShutWindow? then FAILED.(windowClosed := true)
                   else FAILED.(budgetExhausted := Some(end.dimension)))
    ensures Honest(cfg, s, main + [shut, Audited], Answered(e))
  {
    hide Count, CallsFollowReservations;
    var tail := [shut, Audited];
    Pair(shut, Audited);
    CountsAppend(main, tail);
    FollowsQuietly(tail);
    if cfg.ledger { CallsFollowAppend(main, tail); }
    assert (main + tail)[|main|] == shut;
  }

  lemma FollowsQuietly(log: seq<Event>)
    requires Count(log, KMainCalled) == 0 && Count(log, KFallbackCalled) == 0
    ensures CallsFollowReservations(log)
  {
    forall n | 0 <= n <= |log|
      ensures Count(log[..n], KMainCalled) == 0 && Count(log[..n], KFallbackCalled) == 0
    {
      assert log == log[..n] + log[n..];
      CountAppend(log[..n], log[n..], KMainCalled);
      CountAppend(log[..n], log[n..], KFallbackCalled);
    }
  }

  /** What the fallback stage makes of a main call that gave up. */
  function Fallen(main: seq<Event>, b: FellBack): (seq<Event>, Result)
    requires b.verdict.Replaced? ==> Succeeds(b.verdict.answer)
  {
    match b.verdict
    case Replaced(a) => (main + b.events, Answered(Winning(Degraded, a, 0)))
    case GatewayDecided(v) => (main + b.events, FromFallbackGateway(v))
    case Unavailable(blocked) => (main + (b.events + [Audited]), Answered(FAILED.(blockedFallback := blocked)))
    case FallbackWindowClosed => (main + (b.events + [Audited]), Answered(FAILED.(windowClosed := true)))
  }

  /** The counts of what follows the attempts: at most one fallback call, and nothing of the main tool's. */
  ghost predicate TailCounts(cfg: Config, tail: seq<Event>, audits: nat) {
    && Count(tail, KMainReserved) == Count(tail, KMainCalled) == Count(tail, KRetry) == Count(tail, KScheduled) == 0
    && Count(tail, KFallbackCalled) <= 1 && Count(tail, KFallbackReserved) <= 1 && Count(tail, KAudited) == audits
  }

  lemma TailIsDisciplined(cfg: Config, main: seq<Event>, end: Verdict, retries: nat, tail: seq<Event>, audits: nat)
    requires LoopDone(cfg, main, end, retries) && end.GiveUp?
    requires Orderly(tail) && (forall i | 0 <= i < |tail| :: !tail[i].MainCalled?)
    requires TailCounts(cfg, tail, audits) && (cfg.ledger ==> CallsFollowReservations(tail))
    ensures Disciplined(cfg, main + tail) && Count(main + tail, KAudited) == Count(main + tail, KScheduled) + audits
  {
    hide Count, CallsFollowReservations, Orderly;
    CountsAppend(main, tail);
    if cfg.ledger { CallsFollowAppend(main, tail); }
    OrderlyAppend(main, tail);
  }

  lemma AuditedTail(cfg: Config, b: FellBack)
    requires FallbackCounts(cfg, b) && Orderly(b.events) && (cfg.ledger ==> CallsFollowReservations(b.events))
              && !b.verdict.Replaced?
    ensures TailCounts(cfg, b.events + [Audited], 1) && Orderly(b.events + [Audited])
    ensures cfg.ledger ==> CallsFollowReservations(b.events + [Audited])
  {
    hide Count, CallsFollowReservations;
    Just(Audited);
    CountsAppend(b.events, [Audited]);
    FollowsQuietly([Audited]);
    if cfg.ledger { CallsFollowAppend(b.events, [Audited]); }
  }

  lemma FallenIsDisciplined(cfg: Config, main: seq<Event>, end: Verdict, retries: nat, b: FellBack, f: FallbackScript)
    requires LoopDone(cfg, main, end, retries) && end.GiveUp?
    requires FallbackShape(cfg, f, b) && FallbackCounts(cfg, b) && (cfg.ledger ==> CallsFollowReservations(b.events))
    ensures var (log, result) := Fallen(main, b); Disciplined(cfg, log) && AuditsMatch(log, result)
  {
    hide Count, CallsFollowReservations, Orderly, LoopDone, Disciplined;
    if b.verdict.Replaced? || b.verdict.GatewayDecided? {
      TailIsDisciplined(cfg, main, end, retries, b.events, B(b.verdict.Replaced?));
    } else {
      AuditedTail(cfg, b);
      TailIsDisciplined(cfg, main, end, retries, b.events + [Audited], 1);
    }
  }

  lemma FallenTells(cfg: Config, s: Script, main: seq<Event>, end: Verdict, retries: nat, b: FellBack)
    requires LoopDone(cfg, main, end, retries) && s.snapshot.NoSnapshot? && end.GiveUp?
              && FallbackShape(cfg, s.fallback, b)
    ensures var (log, result) := Fallen(main, b);
            FallbackAskedWhenDue(cfg, s, log, result) && (result.Answered? ==> TellsHistory(s, log, result.envelope))
  {
    hide Count, CallsFollowReservations, Orderly, LoopCounts, Succeeds, FallbackPossible;
    var (log, result) := Fallen(main, b);
    assert forall e :: e in log ==> e in main || e in b.events || e == Audited;
    assert forall e :: e in b.events ==> e in log;
  }

  lemma FallenIsHonest(cfg: Config, s: Script, main: seq<Event>, end: Verdict, retries: nat, b: FellBack)
    requires LoopDone(cfg, main, end, retries) && s.snapshot.NoSnapshot? && end.GiveUp?
    requires FallbackShape(cfg, s.fallback, b) && FallbackCounts(cfg, b)
              && (cfg.ledger ==> CallsFollowReservations(b.events))
    ensures var (log, result) := Fallen(main, b); Honest(cfg, s, log, result)
  {
    hide LoopDone, FallbackShape, FallbackCounts, CallsFollowReservations, Disciplined, AuditsMatch,
      FallbackAskedWhenDue, TellsHistory;
    FallenIsDisciplined(cfg, main, end, retries, b, s.fallback);
    FallenTells(cfg, s, main, end, retries, b);
  }

  /* ----- What the caller gets, for every script ----- */

  /** The log and the result a script leads to. */
  function Executed(cfg: Config, s: Script): (seq<Event>, Result) {
    if !PastPreflight(cfg, s) then ([], Refusal(cfg, s))
    else if s.snapshot.Hit? then ([Audited], Answered(FromSnapshot(s.snapshot.payload)))
    else
      var (main, end, retries) := Attempts(cfg, s.attempts, 0, []);
      match end
      case Done(a) => (main, Answered(Winning(Success, a, retries)))
      case Throw => (main, Propagated)
      case ShutWindow => (main + [WindowShut, Audited], Answered(FAILED.(windowClosed := true)))
      case ShutBudget(d) => (main + [BudgetShut(d), Audited], Answered(FAILED.(budgetExhausted := Some(d))))
      case GiveUp =>
        FallbackWins(cfg, s.fallback);
        Fallen(main, FallbackTried(cfg, s.fallback))
  }

  function FromSnapshot(payload: string): Envelope {
    Envelope(Success, Some(payload), false, 0, false, None, false, false)
  }

  lemma FallbackWins(cfg: Config, f: FallbackScript)
    ensures FallbackTried(cfg, f).verdict.Replaced? ==> Succeeds(FallbackTried(cfg, f).verdict.answer)
  {
  }

  /**
   An exception before any attempt: out of the registry or the gateway, or a cancellation once the gateway allowed the
   call.
   */
  predicate BreaksEarly(s: Script) {
    s.before.Breaks? || (s.before.Allows? && s.clock.Cancelled?)
  }

  /** How the attempts end, whatever they log. */
  function End(cfg: Config, s: Script): Verdict {
    Attempts(cfg, s.attempts, 0, []).1
  }

  /** The call reaches the attempts. */
  predicate GoesLive(cfg: Config, s: Script) {
    PastPreflight(cfg, s) && s.snapshot.NoSnapshot?
  }

  lemma FallbackDecides(cfg: Config, f: FallbackScript, v: string)
    ensures FallbackTried(cfg, f).verdict == GatewayDecided(v) <==> FallbackPossible(cfg, f) && f.before == Decides(v)
  {
    hide Succeeds;
  }

  /**
   Which kind of result comes back: the gateway's verdicts, a refusal before any attempt, an exception, or an envelope
   in every other case.
   */
  lemma ResultKinds(cfg: Config, s: Script)
    ensures var result := Executed(cfg, s).1;
            && (forall v :: result == FromGateway(v) <==> s.before == Decides(v))
            && (result.Propagated? <==> BreaksEarly(s) || (GoesLive(cfg, s) && End(cfg, s).Throw?))
            && (forall v :: result == FromFallbackGateway(v) <==>
                  GoesLive(cfg, s) && End(cfg, s).GiveUp? && FallbackPossible(cfg, s.fallback)
                      && s.fallback.before == Decides(v))
            && (result.Preflight? <==> s.before.Allows? && !s.clock.Cancelled? && !PastPreflight(cfg, s))
            && (result.Answered? <==>
                  PastPreflight(cfg, s) && !result.Propagated? && !result.FromFallbackGateway?)
  {
    hide Attempts, FallbackTried, FallbackPossible;
    forall v
      ensures FallbackTried(cfg, s.fallback).verdict == GatewayDecided(v)
              <==> FallbackPossible(cfg, s.fallback) && s.fallback.before == Decides(v)
    {
      FallbackDecides(cfg, s.fallback, v);
    }
  }

  /* ----- How the attempts end, told by the script alone ----- */

  /** The attempt gets as far as calling the provider. */
  predicate CallsProvider(cfg: Config, s: AttemptScript) {
    s.clock.Open? && !(cfg.ledger && s.reservation.Refused?) && s.callClock.Open?
  }

  /** The provider reports a failure, or raises an error the loop handles. */
  predicate FailsPlainly(a: Answer) {
    (a.Returned? && a.outcome.NoResult?) || a.Raised?
  }

  /** That failure is worth a retry and the attempt is not the last: the loop waits and goes on. */
  predicate WaitsToRetry(cfg: Config, k: nat, s: AttemptScript) {
    CallsProvider(cfg, s) && FailsPlainly(s.answer) && s.answer.transient && k != cfg.maxRetries
  }

  predicate TriesAgain(cfg: Config, k: nat, s: AttemptScript) {
    WaitsToRetry(cfg, k, s) && s.backoff.Open?
  }

  /** The provider answers, with content or with an explicit empty result. */
  predicate Delivers(cfg: Config, s: AttemptScript, a: Answer) {
    CallsProvider(cfg, s) && s.answer == a && a.Returned? && (a.outcome.Content? || a.outcome.EmptySuccess?)
  }

  /** An exception the loop does not handle: a cancellation, or a foreign error. */
  predicate BreaksOff(cfg: Config, k: nat, s: AttemptScript) {
    || s.clock.Cancelled?
    || (s.clock.Open? && !(cfg.ledger && s.reservation.Refused?) && s.callClock.Cancelled?)
    || (CallsProvider(cfg, s) && s.answer.RaisedOther?)
    || (WaitsToRetry(cfg, k, s) && s.backoff.Cancelled?)
  }

  /** The model window is closed before the attempt, before the call, during the call, or in the wait behind it. */
  predicate WindowCloses(cfg: Config, k: nat, s: AttemptScript) {
    || s.clock.Closed?
    || (s.clock.Open? && !(cfg.ledger && s.reservation.Refused?) && s.callClock.Closed?)
    || (CallsProvider(cfg, s) && s.answer.TimedOut?)
    || (WaitsToRetry(cfg, k, s) && s.backoff.Closed?)
  }

  /** The budget refuses the call, or runs out during it. */
  predicate BudgetEnds(cfg: Config, s: AttemptScript, dimension: string) {
    || (s.clock.Open? && cfg.ledger && s.reservation == Refused(dimension))
    || (CallsProvider(cfg, s) && s.answer == RaisedBudget(dimension))
  }

  /** A failure not worth a retry, or the last attempt's. */
  predicate FailsForGood(cfg: Config, k: nat, s: AttemptScript) {
    CallsProvider(cfg, s) && FailsPlainly(s.answer) && (!s.answer.transient || k == cfg.maxRetries)
  }

  lemma AttemptMeans(cfg: Config, k: nat, s: AttemptScript)
    ensures var v := Attempted(cfg, k, s).verdict;
            && (v.Again? <==> TriesAgain(cfg, k, s))
            && (v.Throw? <==> BreaksOff(cfg, k, s))
            && (v.ShutWindow? <==> WindowCloses(cfg, k, s))
            && (v.GiveUp? <==> FailsForGood(cfg, k, s))
            && (forall d :: v == ShutBudget(d) <==> BudgetEnds(cfg, s, d))
            && (forall a :: v == Done(a) <==> Delivers(cfg, s, a))
  {
  }

  /** Attempt `n` is made: every one before it was to be tried again. */
  ghost predicate Reached(cfg: Config, attempts: nat -> AttemptScript, k: nat, n: nat) {
    k <= n <= cfg.maxRetries && forall j: nat | k <= j < n :: TriesAgain(cfg, j, attempts(j))
  }

  /** The attempt made that is not tried again. */
  ghost predicate IsLast(cfg: Config, attempts: nat -> AttemptScript, k: nat, n: nat) {
    Reached(cfg, attempts, k, n) && !TriesAgain(cfg, n, attempts(n))
  }

  lemma {:induction false} LastDecides(cfg: Config, attempts: nat -> AttemptScript, k: nat, log: seq<Event>)
    ensures k > cfg.maxRetries ==> Attempts(cfg, attempts, k, log).1 == GiveUp
    ensures k <= cfg.maxRetries ==>
              exists n: nat :: IsLast(cfg, attempts, k, n) && Attempts(cfg, attempts, k, log).2 == n
                               && Attempts(cfg, attempts, k, log).1 == Attempted(cfg, n, attempts(n)).verdict
    decreases cfg.maxRetries - k
  {
    hide Attempted, TriesAgain;
    if k <= cfg.maxRetries {
      var t := Attempted(cfg, k, attempts(k));
      AttemptMeans(cfg, k, attempts(k));
      if t.verdict.Again? {
        LastDecides(cfg, attempts, k + 1, log + t.events);
        TriesLess(cfg, k, attempts(k));
        var n: nat :| IsLast(cfg, attempts, k + 1, n) && Attempts(cfg, attempts, k + 1, log + t.events).2 == n
          && Attempts(cfg, attempts, k + 1, log + t.events).1 == Attempted(cfg, n, attempts(n)).verdict;
        assert IsLast(cfg, attempts, k, n);
      } else {
        assert IsLast(cfg, attempts, k, k);
      }
    }
  }

  lemma TriesLess(cfg: Config, k: nat, s: AttemptScript)
    ensures TriesAgain(cfg, k, s) ==> k != cfg.maxRetries
  {
  }

  lemma LastIsUnique(cfg: Config, attempts: nat -> AttemptScript, k: nat, n: nat, m: nat)
    requires IsLast(cfg, attempts, k, n) && Reached(cfg, attempts, k, m)
    ensures m <= n && (!TriesAgain(cfg, m, attempts(m)) ==> m == n)
  {
    hide TriesAgain;
  }

  lemma EndsNotAgain(cfg: Config, k: nat, s: AttemptScript)
    ensures BreaksOff(cfg, k, s) || WindowCloses(cfg, k, s) || FailsForGood(cfg, k, s) ==> !TriesAgain(cfg, k, s)
    ensures (exists d :: BudgetEnds(cfg, s, d)) || (exists a :: Delivers(cfg, s, a)) ==> !TriesAgain(cfg, k, s)
  {
  }

  /**
   How the attempts end: each way exactly when an attempt that was made met its cause.  So a closed window or a spent
   budget is told apart from a failed tool by what happened, and a failure alone lets the fallback in.
   */
  lemma EndMeans(cfg: Config, s: Script)
    ensures End(cfg, s).Throw? <==>
              exists n: nat :: Reached(cfg, s.attempts, 0, n) && BreaksOff(cfg, n, s.attempts(n))
    ensures End(cfg, s).ShutWindow? <==>
              exists n: nat :: Reached(cfg, s.attempts, 0, n) && WindowCloses(cfg, n, s.attempts(n))
    ensures End(cfg, s).GiveUp? <==>
              || cfg.maxRetries < 0
              || exists n: nat :: Reached(cfg, s.attempts, 0, n) && FailsForGood(cfg, n, s.attempts(n))
    ensures forall d :: End(cfg, s) == ShutBudget(d) <==>
              exists n: nat :: Reached(cfg, s.attempts, 0, n) && BudgetEnds(cfg, s.attempts(n), d)
    ensures forall a :: End(cfg, s) == Done(a) <==>
              exists n: nat :: Reached(cfg, s.attempts, 0, n) && Delivers(cfg, s.attempts(n), a)
  {
    hide Attempts, Attempted, TriesAgain, BreaksOff, WindowCloses, BudgetEnds, Delivers, FailsForGood;
    LastDecides(cfg, s.attempts, 0, []);
    if 0 <= cfg.maxRetries {
      var n: nat :| IsLast(cfg, s.attempts, 0, n) && End(cfg, s) == Attempted(cfg, n, s.attempts(n)).verdict;
      AttemptMeans(cfg, n, s.attempts(n));
      forall m: nat | Reached(cfg, s.attempts, 0, m)
        ensures !TriesAgain(cfg, m, s.attempts(m)) ==> m == n
        ensures TriesAgain(cfg, m, s.attempts(m)) ==> m != n
      {
        LastIsUnique(cfg, s.attempts, 0, n, m);
      }
      forall m: nat
        ensures BreaksOff(cfg, m, s.attempts(m)) ==> !TriesAgain(cfg, m, s.attempts(m))
        ensures WindowCloses(cfg, m, s.attempts(m)) ==> !TriesAgain(cfg, m, s.attempts(m))
        ensures FailsForGood(cfg, m, s.attempts(m)) ==> !TriesAgain(cfg, m, s.attempts(m))
        ensures forall d :: BudgetEnds(cfg, s.attempts(m), d) ==> !TriesAgain(cfg, m, s.attempts(m))
        ensures forall a :: Delivers(cfg, s.attempts(m), a) ==> !TriesAgain(cfg, m, s.attempts(m))
      {
        EndsNotAgain(cfg, m, s.attempts(m));
      }
      hide Reached;
    }
  }

  /* ----- What the fallback and the envelope tell ----- */

  predicate GetsThrough(cfg: Config, f: FallbackScript) {
    FallbackPossible(cfg, f) && f.before.Allows? && (cfg.ledger ==> f.reservation.Granted?)
  }

  predicate Stands(a: Answer) {
    a.Returned? && (a.outcome.Content? || a.outcome.EmptySuccess?)
  }

  /** The window is closed when the fallback would be called, or while it is. */
  predicate FallbackWindowCloses(cfg: Config, f: FallbackScript) {
    GetsThrough(cfg, f) && (f.clock.Closed? || (f.clock.Open? && f.answer.TimedOut?))
  }

  /** It would stand in but for the caller's list of tools. */
  predicate OnlyUnlisted(cfg: Config, f: FallbackScript) {
    cfg.allowFallback && !f.lookupBreaks && f.mapped && f.offlineAllowed && f.registered && !f.listed
  }

  /** The fallback by its causes: what is asked, reserved and called, and what comes of it. */
  lemma FallbackMeans(cfg: Config, f: FallbackScript)
    ensures var b := FallbackTried(cfg, f);
            && (FallbackAsked in b.events <==> FallbackPossible(cfg, f))
            && (FallbackReserved in b.events <==> GetsThrough(cfg, f) && cfg.ledger)
            && (forall a :: FallbackCalled(a) in b.events <==> GetsThrough(cfg, f) && f.clock.Open? && a == f.answer)
            && (forall a :: b.verdict == Replaced(a) <==>
                  GetsThrough(cfg, f) && f.clock.Open? && a == f.answer && Stands(a))
            && (b.verdict.FallbackWindowClosed? <==> FallbackWindowCloses(cfg, f))
            && (b.verdict == Unavailable(true) <==> OnlyUnlisted(cfg, f))
  {
    CalledMeans(f);
    hide CalledFallback, Stands;
    var b := FallbackTried(cfg, f);
    var asked := AskedFallback(cfg.ledger, f);
    assert FallbackPossible(cfg, f) ==> b.events == [FallbackAsked] + asked.events;
    forall e
      ensures FallbackPossible(cfg, f) ==> (e in b.events <==> e == FallbackAsked || e in asked.events)
    {
    }
  }

  lemma CalledMeans(f: FallbackScript)
    ensures var b := CalledFallback(f);
            && FallbackAsked !in b.events && FallbackReserved !in b.events
            && (forall a :: FallbackCalled(a) in b.events <==> f.clock.Open? && a == f.answer)
            && (forall a :: b.verdict == Replaced(a) <==> f.clock.Open? && a == f.answer && Stands(a))
            && (b.verdict.FallbackWindowClosed? <==> f.clock.Closed? || (f.clock.Open? && f.answer.TimedOut?))
            && !b.verdict.GatewayDecided? && b.verdict != Unavailable(true)
  {
  }

  /** The main tool failed, and nothing else happened to it: its last attempt did, or it had none. */
  ghost predicate MainFailed(cfg: Config, s: Script) {
    || cfg.maxRetries < 0
    || exists n: nat :: Reached(cfg, s.attempts, 0, n) && FailsForGood(cfg, n, s.attempts(n))
  }

  /** Attempt `n` was made and answered. */
  ghost predicate AnsweredAt(cfg: Config, s: Script, n: nat) {
    Reached(cfg, s.attempts, 0, n) && Delivers(cfg, s.attempts(n), s.attempts(n).answer)
  }

  ghost predicate MainWindowClosed(cfg: Config, s: Script) {
    exists n: nat :: Reached(cfg, s.attempts, 0, n) && WindowCloses(cfg, n, s.attempts(n))
  }

  ghost predicate BudgetSpent(cfg: Config, s: Script, dimension: string) {
    exists n: nat :: Reached(cfg, s.attempts, 0, n) && BudgetEnds(cfg, s.attempts(n), dimension)
  }

  /** What an envelope after live attempts says, by what happened. */
  ghost predicate SaysWhatHappened(cfg: Config, s: Script, e: Envelope) {
    && (e.status.Success? <==> exists n: nat :: AnsweredAt(cfg, s, n))
    && (forall n: nat | AnsweredAt(cfg, s, n) ::
          e == Envelope(Success, Some(s.attempts(n).answer.payload), s.attempts(n).answer.outcome.EmptySuccess?, n,
                        false, None, false, false))
    && (e.status.Degraded? <==>
          MainFailed(cfg, s) && GetsThrough(cfg, s.fallback) && s.fallback.clock.Open? && Stands(s.fallback.answer))
    && (e.status.Degraded? ==>
          e == Envelope(Degraded, Some(s.fallback.answer.payload), s.fallback.answer.outcome.EmptySuccess?, 0,
                        false, None, false, false))
    && (e.status.Failed? ==> e.payload == None && !e.empty && e.retryCount == 0 && !e.retriesExhausted)
    && (e.windowClosed <==>
          MainWindowClosed(cfg, s) || (MainFailed(cfg, s) && FallbackWindowCloses(cfg, s.fallback)))
    && (forall d :: e.budgetExhausted == Some(d) <==> BudgetSpent(cfg, s, d))
    && (e.blockedFallback <==> MainFailed(cfg, s) && OnlyUnlisted(cfg, s.fallback))
  }

  lemma RetriesAre(cfg: Config, s: Script, n: nat)
    requires AnsweredAt(cfg, s, n)
    ensures End(cfg, s) == Done(s.attempts(n).answer) && Attempts(cfg, s.attempts, 0, []).2 == n
  {
    hide Attempts, Attempted, TriesAgain, Delivers, Reached;
    EndMeans(cfg, s);
    LastDecides(cfg, s.attempts, 0, []);
    EndsNotAgain(cfg, n, s.attempts(n));
    ReachedBound(cfg, s.attempts, n);
    var m: nat :| IsLast(cfg, s.attempts, 0, m) && Attempts(cfg, s.attempts, 0, []).2 == m
      && End(cfg, s) == Attempted(cfg, m, s.attempts(m)).verdict;
    LastIsUnique(cfg, s.attempts, 0, m, n);
  }

  lemma ReachedBound(cfg: Config, attempts: nat -> AttemptScript, n: nat)
    requires Reached(cfg, attempts, 0, n)
    ensures 0 <= cfg.maxRetries
  {
  }

  lemma DoneIsAnswered(cfg: Config, s: Script)
    ensures End(cfg, s).Done? <==> exists n: nat :: AnsweredAt(cfg, s, n)
    ensures End(cfg, s).ShutBudget? ==> BudgetSpent(cfg, s, End(cfg, s).dimension)
  {
    hide End, Reached;
    EndMeans(cfg, s);
    var end := End(cfg, s);
    forall n: nat | AnsweredAt(cfg, s, n)
      ensures end.Done?
    {
      RetriesAre(cfg, s, n);
    }
    if end.Done? {
      var n: nat :| Reached(cfg, s.attempts, 0, n) && Delivers(cfg, s.attempts(n), end.answer);
      assert AnsweredAt(cfg, s, n);
    }
  }

  /** Which of the ways the attempts ended, in the words of the envelope. */
  lemma EndFacts(cfg: Config, s: Script)
    ensures var end := End(cfg, s);
            && (end.Done? <==> exists n: nat :: AnsweredAt(cfg, s, n))
            && (end.ShutWindow? <==> MainWindowClosed(cfg, s)) && (end.GiveUp? <==> MainFailed(cfg, s))
            && (forall d :: end == ShutBudget(d) <==> BudgetSpent(cfg, s, d))
            && (forall n: nat | AnsweredAt(cfg, s, n) ::
                  end == Done(s.attempts(n).answer) && Attempts(cfg, s.attempts, 0, []).2 == n)
  {
    DoneIsAnswered(cfg, s);
    EndMeans(cfg, s);
    forall n: nat | AnsweredAt(cfg, s, n)
      ensures End(cfg, s) == Done(s.attempts(n).answer) && Attempts(cfg, s.attempts, 0, []).2 == n
    {
      RetriesAre(cfg, s, n);
    }
    hide End, Reached, AnsweredAt;
  }

  lemma DoneSays(cfg: Config, s: Script)
    requires GoesLive(cfg, s) && End(cfg, s).Done?
    ensures Executed(cfg, s).1.Answered? && SaysWhatHappened(cfg, s, Executed(cfg, s).1.envelope)
  {
    hide Attempts, FallbackTried, AnsweredAt, MainFailed, MainWindowClosed, BudgetSpent, GetsThrough, Stands,
      FallbackWindowCloses, OnlyUnlisted;
    EndFacts(cfg, s);
  }

  lemma ShutSays(cfg: Config, s: Script)
    requires GoesLive(cfg, s) && (End(cfg, s).ShutWindow? || End(cfg, s).ShutBudget?)
    ensures Executed(cfg, s).1.Answered? && SaysWhatHappened(cfg, s, Executed(cfg, s).1.envelope)
  {
    hide Attempts, FallbackTried, AnsweredAt, MainFailed, MainWindowClosed, BudgetSpent, GetsThrough, Stands,
      FallbackWindowCloses, OnlyUnlisted;
    EndFacts(cfg, s);
  }

  lemma FallenSays(cfg: Config, s: Script)
    requires GoesLive(cfg, s) && End(cfg, s).GiveUp? && Executed(cfg, s).1.Answered?
    ensures SaysWhatHappened(cfg, s, Executed(cfg, s).1.envelope)
  {
    hide Attempts, FallbackTried, AnsweredAt, MainFailed, MainWindowClosed, BudgetSpent, GetsThrough, Stands,
      FallbackWindowCloses, OnlyUnlisted;
    EndFacts(cfg, s);
    FallbackMeans(cfg, s.fallback);
    StandsSucceeds(s.fallback.answer);
  }

  lemma StandsSucceeds(a: Answer)
    ensures Stands(a) <==> Succeeds(a)
  {
  }

  /** The envelope of a call that went live tells exactly what happened. */
  lemma EnvelopeMeans(cfg: Config, s: Script)
    requires GoesLive(cfg, s) && Executed(cfg, s).1.Answered?
    ensures SaysWhatHappened(cfg, s, Executed(cfg, s).1.envelope)
  {
    ResultKinds(cfg, s);
    var end := End(cfg, s);
    if end.Done? {
      DoneSays(cfg, s);
    } else if end.GiveUp? {
      FallenSays(cfg, s);
    } else {
      ShutSays(cfg, s);
    }
    hide Executed, SaysWhatHappened, Attempts;
  }

  /** The fallback is asked about exactly when the main tool failed for good and a fallback may stand in. */
  lemma FallbackIsAskedIff(cfg: Config, s: Script)
    requires GoesLive(cfg, s)
    ensures FallbackAsked in Executed(cfg, s).0 <==> MainFailed(cfg, s) && FallbackPossible(cfg, s.fallback)
  {
    hide Attempts, FallbackTried, MainFailed, FallbackPossible;
    EndFacts(cfg, s);
    FallbackMeans(cfg, s.fallback);
    MainIsMainOnly(cfg, s);
  }

  /** So a call in which the window was closed or the budget spent never comes to a fallback. */
  lemma ShutExcludesFallback(cfg: Config, s: Script, n: nat)
    requires GoesLive(cfg, s) && Reached(cfg, s.attempts, 0, n)
    requires WindowCloses(cfg, n, s.attempts(n)) || exists d :: BudgetEnds(cfg, s.attempts(n), d)
    ensures FallbackAsked !in Executed(cfg, s).0
  {
    FallbackIsAskedIff(cfg, s);
    EndFacts(cfg, s);
    if !WindowCloses(cfg, n, s.attempts(n)) {
      var d :| BudgetEnds(cfg, s.attempts(n), d);
      assert BudgetSpent(cfg, s, d);
    }
    hide Executed, End, MainFailed;
  }

  /** The attempts log nothing of the fallback. */
  lemma MainIsMainOnly(cfg: Config, s: Script)
    ensures FallbackAsked !in Attempts(cfg, s.attempts, 0, []).0
  {
    OnlyMainEvents(cfg, s.attempts, 0, []);
  }

  lemma {:induction false} OnlyMainEvents(cfg: Config, attempts: nat -> AttemptScript, k: nat, log: seq<Event>)
    requires FallbackAsked !in log
    ensures FallbackAsked !in Attempts(cfg, attempts, k, log).0
    decreases cfg.maxRetries - k
  {
    hide Attempted;
    if k <= cfg.maxRetries {
      var t := Attempted(cfg, k, attempts(k));
      AttemptIsShaped(cfg, k, attempts(k));
      assert FallbackAsked !in log + t.events;
      if t.verdict.Again? { OnlyMainEvents(cfg, attempts, k + 1, log + t.events); }
    }
  }

  /** What a call turned away before any attempt comes back with, and why. */
  lemma PreflightMeans(cfg: Config, s: Script)
    ensures forall e :: Executed(cfg, s).1 == Preflight(e) <==>
              && s.before.Allows?
              && (|| (s.clock.Closed? && e == Envelope(Failed, None, false, 0, true, None, false, false))
                  || (s.clock.Open? && cfg.ledger && s.budget.Some?
                      && e == Envelope(Failed, None, false, 0, false, s.budget, false, false))
                  || (s.clock.Open? && cfg.ledger && s.budget.None? && s.retriesExhausted
                      && e == Envelope(Failed, None, false, 0, false, None, true, false)))
    ensures PastPreflight(cfg, s) && s.snapshot.Hit? ==>
              Executed(cfg, s) == ([Audited],
                  Answered(Envelope(Success, Some(s.snapshot.payload), false, 0, false, None,
                                                                false, false)))
    ensures !PastPreflight(cfg, s) ==> Executed(cfg, s).0 == []
  {
    hide Attempts, FallbackTried;
  }

  /**
   An exception reaches the caller exactly when the gateway breaks or the run is cancelled before any attempt, or an
   attempt that is made breaks off.  Nothing that happens in the fallback ever does, a cancellation there included.
   */
  lemma CancellationReachesCallerIff(cfg: Config, s: Script)
    ensures Executed(cfg, s).1.Propagated? <==>
              || BreaksEarly(s)
              || (GoesLive(cfg, s) && exists n: nat ::
                    Reached(cfg, s.attempts, 0, n) && BreaksOff(cfg, n, s.attempts(n)))
  {
    ResultKinds(cfg, s);
    EndMeans(cfg, s);
    hide Executed, End, Reached, BreaksOff;
  }

  /** A cancelled run whose fallback is asked, allowed and granted ends in an ordinary failed envelope. */
  lemma FallbackCancellationIsSwallowed(cfg: Config, s: Script)
    requires GoesLive(cfg, s) && End(cfg, s).GiveUp? && FallbackPossible(cfg, s.fallback)
    requires s.fallback.before.Allows? && (cfg.ledger ==> s.fallback.reservation.Granted?)
              && s.fallback.clock.Cancelled?
    ensures Executed(cfg, s).1 == Answered(FAILED)
  {
    assert FallbackTried(cfg, s.fallback).verdict == Unavailable(false);
    hide Attempts, FallbackTried;
  }

  /** Such a script: one attempt that fails for good, then a cancellation while the fallback waits. */
  lemma CancelledFallbackOccurs(s: Script, cfg: Config)
    requires cfg == Config(0, false, true)
    requires s.before.Allows? && s.clock.Open? && s.snapshot.NoSnapshot?
    requires s.attempts(0) == AttemptScript(Open, Granted, Open, Raised(false), Open)
    requires s.fallback == FallbackScript(true, false, true, true, true, false, Allows, Granted, Cancelled, RaisedOther)
    ensures Executed(cfg, s).1 == Answered(FAILED)
  {
    assert Attempted(cfg, 0, s.attempts(0)).verdict == GiveUp;
    assert End(cfg, s) == GiveUp;
    FallbackCancellationIsSwallowed(cfg, s);
    hide Executed, Attempts, FallbackTried;
  }

  /** execute_tool, for any script. */
  method ExecuteTool(cfg: Config, s: Script) returns (log: seq<Event>, result: Result)
    ensures (log, result) == Executed(cfg, s)
    ensures PastPreflight(cfg, s) ==> Honest(cfg, s, log, result)
    ensures GoesLive(cfg, s) && result.Answered? ==> SaysWhatHappened(cfg, s, result.envelope)
    ensures FallbackAsked in log <==> GoesLive(cfg, s) && MainFailed(cfg, s) && FallbackPossible(cfg, s.fallback)
    ensures result.Propagated? <==> BreaksEarly(s) || (GoesLive(cfg, s) && End(cfg, s).Throw?)
    ensures forall v :: result == FromFallbackGateway(v) <==>
              GoesLive(cfg, s) && End(cfg, s).GiveUp? && FallbackPossible(cfg, s.fallback)
                  && s.fallback.before == Decides(v)
    ensures result.Answered? <==> PastPreflight(cfg, s) && !result.Propagated? && !result.FromFallbackGateway?
    ensures GoesLive(cfg, s) ==>
              var (main, end, _) := Attempts(cfg, s.attempts, 0, []);
              main + (if end.GiveUp? then FallbackTried(cfg, s.fallback).events else []) <= log
  {
    hide LoopDone, Honest, Attempts, FallbackTried, FallbackShape, FallbackCounts, CallsFollowReservations,
      FallbackPossible, MainFailed, SaysWhatHappened;
    ResultKinds(cfg, s);
    if GoesLive(cfg, s) {
      FallbackIsAskedIff(cfg, s);
      if Executed(cfg, s).1.Answered? { EnvelopeMeans(cfg, s); }
    }
    if s.before.Breaks? { return [], Propagated; }
    if s.before.Decides? { return [], FromGateway(s.before.verdict); }
    if s.clock.Cancelled? { return [], Propagated; }
    if s.clock.Closed? { return [], Preflight(FAILED.(windowClosed := true)); }
    if cfg.ledger && s.budget.Some? { return [], Preflight(FAILED.(budgetExhausted := s.budget)); }
    if cfg.ledger && s.retriesExhausted { return [], Preflight(FAILED.(retriesExhausted := true)); }
    if s.snapshot.Hit? {
      SnapshotIsHonest(cfg, s, FromSnapshot(s.snapshot.payload));
      return [Audited], Answered(FromSnapshot(s.snapshot.payload));
    }
    var end, retries;
    log, end, retries := AttemptLoop(cfg, s.attempts);
    LoopEnds(cfg, log, end, retries);
    match end
    case Done(a) =>
      DoneIsHonest(cfg, s, log, end, retries);
      result := Answered(Winning(Success, a, retries));
    case Throw =>
      ThrowIsHonest(cfg, s, log, end, retries);
      result := Propagated;
    case ShutWindow =>
      var envelope := FAILED.(windowClosed := true);
      ShutIsHonest(cfg, s, log, end, retries, WindowShut, envelope);
      log, result := log + [WindowShut, Audited], Answered(envelope);
    case ShutBudget(d) =>
      var envelope := FAILED.(budgetExhausted := Some(d));
      ShutIsHonest(cfg, s, log, end, retries, BudgetShut(d), envelope);
      log, result := log + [BudgetShut(d), Audited], Answered(envelope);
    case Again =>
      assert false;
    case GiveUp =>
      var b := FallbackTried(cfg, s.fallback);
      FallbackIsShaped(cfg, s.fallback);
      FallbackIsCounted(cfg, s.fallback);
      ReplacedSucceeds(cfg, s.fallback, b);
      FallenIsHonest(cfg, s, log, end, retries, b);
      match b.verdict {
        case Replaced(a) => log, result := log + b.events, Answered(Winning(Degraded, a, 0));
        case GatewayDecided(v) => log, result := log + b.events, FromFallbackGateway(v);
        case Unavailable(blocked) =>
          log, result := log + (b.events + [Audited]), Answered(FAILED.(blockedFallback := blocked));
        case FallbackWindowClosed =>
          log, result := log + (b.events + [Audited]), Answered(FAILED.(windowClosed := true));
      }
  }

  lemma LoopEnds(cfg: Config, log: seq<Event>, end: Verdict, retries: nat)
    requires LoopDone(cfg, log, end, retries)
    ensures !end.Again? && (end.Done? ==> Succeeds(end.answer))
  {
  }

  lemma ReplacedSucceeds(cfg: Config, f: FallbackScript, b: FellBack)
    requires FallbackShape(cfg, f, b)
    ensures b.verdict.Replaced? ==> Succeeds(b.verdict.answer)
  {
  }
}
