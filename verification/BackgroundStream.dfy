/**
 A stream keeps its session's facts whether or not the session is on screen.

 A trace says where facts come from: what they started as, and the actions taken since.  The books of a run hold the
 trace on screen, the trace cached when the session was last left, and everything sent to the session.
 */
module BackgroundStream {
  import opened Options
  import opened AppState
  import opened ReducerLaws
  import opened SessionRuntime

  predicate OnScreen(m: Runtime, session: string) {
    m.state.facts.currentSessionId == Some(session)
  }

  /** The stream's handle and its own variables name this session. */
  predicate Attached(m: Runtime, session: string) {
    && session != ""
    && m.handle == Some(Handle(m.stream.token, Some(session)))
    && m.stream.activeSessionId == Some(session)
  }

  /** The server has told the stream which session it serves. */
  predicate Named(m: Runtime) {
    m.stream.activeSessionId.Some?
  }

  /** The stream's chat is on screen; a chat without a name is known by the epoch it started at. */
  predicate Here(m: Runtime, session: string) {
    if Named(m) then OnScreen(m, session) else m.state.conversationEpoch == m.stream.startEpoch
  }

  /** A stream in a named session on screen; switches may be in flight. */
  predicate Starts(m: Runtime, session: string) {
    && Attached(m, session) && OnScreen(m, session)
    && (!Truthy(m.stream.startSessionId) ==> m.state.conversationEpoch >= m.stream.startEpoch)
    && forall k | k in m.pending :: k <= m.openSeq
  }

  /** A stream in a new chat on screen, which the server will name `session`; switches may be in flight. */
  predicate StartsNew(m: Runtime, session: string) {
    && session != "" && session !in m.cache && Unnamed(m)
    && m.state.facts.currentSessionId == None && m.state.conversationEpoch == m.stream.startEpoch
    && forall k | k in m.pending :: k <= m.openSeq && m.pending[k].target != session
  }

  predicate Unnamed(m: Runtime) {
    && m.handle == Some(Handle(m.stream.token, None))
    && m.stream.activeSessionId == None && m.stream.startSessionId == None
  }

  /**
   A stream begins in one of the two ways, whatever is on screen, as long as the name the server will choose is new.
   */
  lemma EveryStreamStarts(state: State, cache: map<string, Snapshot>, token: string, session: string,
                          openSeq: nat, pending: map<nat, Pending>)
    requires session != "" && forall k | k in pending :: k <= openSeq
    requires var current := state.facts.currentSessionId;
             || current == Some(session)
             || (current == None && session !in cache && forall k | k in pending :: pending[k].target != session)
    ensures var current := state.facts.currentSessionId;
            var stream := Stream(token, current, state.conversationEpoch, current);
            var m := Runtime(state, cache, Some(Handle(token, current)), stream, openSeq, pending);
            Starts(m, session) || StartsNew(m, session)
  {
  }

  /** Actions that do not move the stream to another session or wipe the thread. */
  predicate StaysIn(a: Action, session: string) {
    !a.RestoreSessionRuntime? && !a.ClearChat? && (a.SetSessionId? ==> a.session == Some(session))
  }

  /** What may happen while the stream runs: its frames, the user's own actions, session switches. */
  predicate Allowed(e: Event, session: string) {
    match e
    case Frame(a) => StaysIn(a, session)
    case ChatStart(id) => id == session
    case Local(a) => !a.RestoreSessionRuntime? && !a.ClearChat? && !a.SetSessionId?
    case _ => true
  }

  /** Before the session has a name nobody can open it or set it, and nothing replaces the thread. */
  predicate AllowedAt(m: Runtime, e: Event, session: string) {
    && Allowed(e, session)
    && (!Named(m) ==>
          && (e.Frame? ==> !e.a.SetSessionId? && !e.a.SetMessages?)
          && (e.Local? ==> !e.act.SetMessages?) && e != Open(session))
  }

  ghost predicate Orderly(m: Runtime, es: seq<Event>, session: string) {
    forall i | 0 <= i < |es| :: AllowedAt(Run(m, es[..i]), es[i], session)
  }

  /** The action an event sends to the session, if any. */
  function Sent(m: Runtime, e: Event, session: string): seq<Action> {
    match e
    case Frame(a) => [a]
    case ChatStart(id) => [SetSessionId(Some(id))]
    case Local(a) => if Here(m, session) then [a] else []
    case _ => []
  }

  /* ----- The books ----- */

  /** Facts of the stream's own chat, or facts that came from elsewhere: the history, or an older snapshot. */
  datatype Origin = Own | Loaded(facts: Facts)

  datatype Trace = Trace(origin: Origin, actions: seq<Action>)

  /**
   `kept`: the chat was never left with nothing of its own cached; `quiet`: it was never left with its snapshot behind.
   */
  datatype Books = Books(view: Trace, saved: Option<Trace>, due: seq<Action>, kept: bool, quiet: bool)

  predicate IsOwn(t: Option<Trace>) {
    t.Some? && t.value.origin.Own?
  }

  function Grown(t: Trace, actions: seq<Action>): Trace {
    t.(actions := t.actions + actions)
  }

  /** Does this event write the session on screen into the cache? */
  predicate Caches(m: Runtime, e: Event, session: string) {
    Named(m) && OnScreen(m, session) &&
    match e
    case Open(target) => target != session
    case Detail(k) =>
      k in m.pending && m.pending[k].phase.AwaitingDetail? && k == m.openSeq && m.pending[k].target != session
    case _ => false
  }

  predicate Returns(m: Runtime, e: Event, session: string) {
    e == Open(session) && !Here(m, session) && session in m.cache
  }

  /** The commit of the switch under way. */
  predicate Commits(m: Runtime, e: Event) {
    e.Commit? && e.seq_ in m.pending && m.pending[e.seq_].phase.AwaitingBundle? && e.seq_ == m.openSeq
  }

  predicate Departs(m: Runtime, e: Event, session: string) {
    Commits(m, e) && m.pending[e.seq_].target != session && Here(m, session)
  }

  /** The session itself is opened from history. */
  predicate Reloads(m: Runtime, e: Event, session: string) {
    Commits(m, e) && m.pending[e.seq_].target == session
  }

  function Recorded(m: Runtime, b: Books, e: Event, session: string): Books {
    var sent := Sent(m, e, session);
    if sent != [] then
      if Here(m, session) then b.(view := Grown(b.view, sent), due := b.due + sent)
      else b.(saved := if b.saved.Some? then Some(Grown(b.saved.value, sent)) else None, due := b.due + sent)
    else if Caches(m, e, session) then b.(saved := Some(b.view))
    else if Returns(m, e, session) then b.(view := Or(b.saved, b.view))
    else if Departs(m, e, session) then
      b.(kept := b.kept && IsOwn(b.saved), quiet := b.quiet && (IsOwn(b.saved) ==> b.saved == Some(b.view)))
    else if Reloads(m, e, session) then
      b.(view := Trace(Loaded(RestoredRuntime(m.state, session, e.d).facts), []), kept := false)
    else b
  }

  function StartBooks(m: Runtime, session: string): Books {
    var saved := if session in m.cache then Some(Trace(Loaded(m.cache[session].facts), [])) else None;
    Books(Trace(Own, []), saved, [], true, true)
  }

  function Bookkeeping(m: Runtime, es: seq<Event>, session: string): Books {
    if es == [] then StartBooks(m, session)
    else Recorded(Run(m, es[..|es| - 1]), Bookkeeping(m, es[..|es| - 1], session), es[|es| - 1], session)
  }

  function HeldBy(m: Runtime, b: Books, session: string): Option<Trace> {
    if Here(m, session) then Some(b.view) else b.saved
  }

  /** What the client holds of the session after a run: on screen, or in the cache. */
  function Held(m: Runtime, es: seq<Event>, session: string): Option<Trace> {
    HeldBy(Run(m, es), Bookkeeping(m, es, session), session)
  }

  /** The actions sent to the session: every frame, and the user's while it was on screen. */
  function Due(m: Runtime, es: seq<Event>, session: string): seq<Action> {
    Bookkeeping(m, es, session).due
  }

  /** The session's facts, on screen or in the cache. */
  function SessionFacts(m: Runtime, session: string): Option<Facts> {
    if Here(m, session) then Some(m.state.facts)
    else if session in m.cache then Some(m.cache[session].facts)
    else None
  }

  /** The facts of a run that stays on screen and takes the actions of the trace. */
  function Replayed(s0: State, t: Trace): Facts {
    ReduceAll(if t.origin.Own? then s0 else s0.(facts := t.origin.facts), t.actions).facts
  }

  function FactsHeld(s0: State, t: Option<Trace>): Option<Facts> {
    if t.Some? then Some(Replayed(s0, t.value)) else None
  }

  /* ----- The invariant ----- */

  /** Once off screen, the epoch has passed the one a new chat started at. */
  predicate EpochPassed(m: Runtime, session: string) {
    !Truthy(m.stream.startSessionId) ==>
      && m.state.conversationEpoch >= m.stream.startEpoch
      && (!OnScreen(m, session) ==> m.state.conversationEpoch > m.stream.startEpoch)
  }

  /** A chat without a name is nowhere but on screen, and once left its epoch is past. */
  predicate Nameless(m: Runtime, session: string) {
    && Unnamed(m) && session != "" && session !in m.cache && !OnScreen(m, session)
    && m.state.conversationEpoch >= m.stream.startEpoch
    && (Here(m, session) ==> m.state.facts.currentSessionId == None)
    && forall k | k in m.pending :: m.pending[k].target != session
  }

  predicate Status(m: Runtime, session: string) {
    && (forall k | k in m.pending :: k <= m.openSeq)
    && if Named(m) then Attached(m, session) && EpochPassed(m, session) else Nameless(m, session)
  }

  ghost predicate Mirrors(s0: State, m: Runtime, b: Books, session: string) {
    && (Here(m, session) ==> m.state.facts == Replayed(s0, b.view))
    && (b.saved.Some? <==> session in m.cache)
    && (b.saved.Some? ==> m.cache[session].facts == Replayed(s0, b.saved.value))
  }

  ghost predicate Balanced(m: Runtime, b: Books, session: string) {
    var held := HeldBy(m, b, session);
    && (b.kept ==> IsOwn(held) && (if b.quiet then held.value.actions == b.due else |held.value.actions| < |b.due|))
    && (!b.kept ==> !IsOwn(held) && !IsOwn(b.saved))
    && (b.kept && Here(m, session) && IsOwn(b.saved) ==> b.saved.value.actions <= b.view.actions)
    && (m.openSeq in m.pending && m.pending[m.openSeq].target == session ==> !IsOwn(b.saved))
  }

  ghost predicate Tracks(s0: State, m: Runtime, b: Books, session: string) {
    Status(m, session) && Mirrors(s0, m, b, session) && Balanced(m, b, session)
  }

  /** The stream is visible exactly when its chat is on screen. */
  lemma VisibleIffHere(m: Runtime, session: string)
    requires Status(m, session)
    ensures IsVisible(m) <==> Here(m, session)
  {
  }

  lemma ReduceAllAppend(s: State, actions: seq<Action>, a: Action)
    ensures ReduceAll(s, actions + [a]) == Reduce(ReduceAll(s, actions), a)
  {
    assert (actions + [a])[..|actions|] == actions;
  }

  /** Replaying the reducer on the cached snapshot is what the visible run would have done. */
  lemma OneMoreAction(s0: State, s: State, t: Trace, a: Action)
    requires s.facts == Replayed(s0, t)
    ensures Reduce(s, a).facts == Replayed(s0, Grown(t, [a]))
  {
    hide Reduce;
    var base := if t.origin.Own? then s0 else s0.(facts := t.origin.facts);
    ReduceAllAppend(base, t.actions, a);
    SessionPartIsClosed(s, ReduceAll(base, t.actions), a);
  }

  lemma StaysOnScreen(s: State, a: Action, session: string)
    requires !a.RestoreSessionRuntime? && !a.ClearChat?
    requires a.SetSessionId? ==> a.session == Some(session) && s.facts.currentSessionId == Some(session)
    ensures Reduce(s, a).facts.currentSessionId == s.facts.currentSessionId
  {
    if !a.SetSessionId? {
      hide Reduce;
      SessionIdKept(s, a);
    }
  }

  lemma GrownActions(t: Trace, actions: seq<Action>)
    ensures Grown(t, actions).origin == t.origin && Grown(t, actions).actions == t.actions + actions
  {
  }

  /** An action taken on screen: by the stream, or by the user. */
  lemma SeenStep(s0: State, m: Runtime, b: Books, a: Action, session: string)
    requires Tracks(s0, m, b, session) && Here(m, session)
    requires !a.RestoreSessionRuntime? && !a.ClearChat? && (a.SetSessionId? ==> Named(m) && a.session == Some(session))
    requires !Named(m) ==> !a.SetMessages?
    ensures Tracks(s0, Dispatched(m, a), b.(view := Grown(b.view, [a]), due := b.due + [a]), session)
  {
    hide Reduce, ReduceAll, Replayed, Grown;
    EpochCountsSwitches(m.state, a);
    StaysOnScreen(m.state, a, session);
    OneMoreAction(s0, m.state, b.view, a);
    GrownActions(b.view, [a]);
  }

  lemma HowHidden(m: Runtime, a: Action, session: string)
    requires Status(m, session)
    ensures HiddenReduced(m, a) ==
              if session !in m.cache then m
              else m.(cache := m.cache[session := SnapshotOf(Reduce(Overlay(m.state, m.cache[session]), a))])
  {
    hide Reduce, Overlay, SnapshotOf;
  }

  /** A frame while the session is off screen: it lands on the snapshot if there is one. */
  lemma HiddenStep(s0: State, m: Runtime, b: Books, a: Action, session: string)
    requires Tracks(s0, m, b, session) && !Here(m, session)
    ensures Tracks(s0, HiddenReduced(m, a),
                   b.(saved := if b.saved.Some? then Some(Grown(b.saved.value, [a])) else None, due := b.due + [a]),
                   session)
  {
    hide HiddenReduced, Reduce, ReduceAll, Replayed, Overlay, SnapshotOf;
    HowHidden(m, a, session);
    if b.saved.Some? {
      ReplayLands(s0, m.state, m.cache[session], b.saved.value, a);
    }
  }

  lemma ReplayLands(s0: State, s: State, c: Snapshot, t: Trace, a: Action)
    requires c.facts == Replayed(s0, t)
    ensures SnapshotOf(Reduce(Overlay(s, c), a)).facts == Replayed(s0, Grown(t, [a]))
  {
    hide Reduce, Replayed;
    OneMoreAction(s0, Overlay(s, c), t, a);
  }

  lemma FrameStep(s0: State, m: Runtime, b: Books, a: Action, session: string)
    requires Tracks(s0, m, b, session) && AllowedAt(m, Frame(a), session)
    ensures Tracks(s0, ScopedDispatched(m, a), Recorded(m, b, Frame(a), session), session)
  {
    VisibleIffHere(m, session);
    if Here(m, session) {
      SeenStep(s0, m, b, a, session);
    } else {
      HiddenStep(s0, m, b, a, session);
    }
    hide Tracks, IsVisible, Here, Dispatched, HiddenReduced;
  }

  /** chat_start: the chat on screen takes its name, and one that was left finds nothing to put it on. */
  lemma NamingStep(s0: State, m: Runtime, b: Books, session: string)
    requires Tracks(s0, m, b, session)
    ensures Tracks(s0, Announced(m, session), Recorded(m, b, ChatStart(session), session), session)
  {
    var a := SetSessionId(Some(session));
    var named := m.(stream := m.stream.(activeSessionId := Some(session)),
                    handle := Some(Handle(m.stream.token, Some(session))));
    VisibleIffHere(m, session);
    if Named(m) {
      assert named == m;
      if Here(m, session) {
        SeenStep(s0, m, b, a, session);
      } else {
        HiddenStep(s0, m, b, a, session);
      }
    } else if Here(m, session) {
      OneMoreAction(s0, m.state, b.view, a);
      SessionSet(m.state, session);
    } else {
      HiddenStep(s0, named, b, a, session);
    }
    hide Reduce, ReduceAll, Replayed;
  }

  lemma SessionSet(s: State, session: string)
    ensures var r := Reduce(s, SetSessionId(Some(session)));
            r.facts.currentSessionId == Some(session) && r.conversationEpoch == s.conversationEpoch
  {
  }

  lemma LocalStep(s0: State, m: Runtime, b: Books, a: Action, session: string)
    requires Tracks(s0, m, b, session) && AllowedAt(m, Local(a), session)
    ensures Tracks(s0, Dispatched(m, a), Recorded(m, b, Local(a), session), session)
  {
    if Here(m, session) {
      SeenStep(s0, m, b, a, session);
    } else {
      EpochCountsSwitches(m.state, a);
      StaysOnScreen(m.state, a, session);
    }
    hide Reduce, ReduceAll, Replayed;
  }

  function CachedBooks(m: Runtime, b: Books, target: string, session: string): Books {
    if Named(m) && OnScreen(m, session) && target != session then b.(saved := Some(b.view)) else b
  }

  lemma CachingStep(s0: State, m: Runtime, b: Books, target: string, session: string)
    requires Tracks(s0, m, b, session) && (m.openSeq in m.pending ==> m.pending[m.openSeq].target == target)
    ensures Tracks(s0, CurrentCached(m, target), CachedBooks(m, b, target, session), session)
  {
    hide Reduce, ReduceAll, Replayed;
  }

  lemma SameScreen(m: Runtime, target: string, session: string)
    ensures var c := CurrentCached(m, target);
            c.state == m.state && c.stream == m.stream && c.pending == m.pending && c.openSeq == m.openSeq
  {
  }

  lemma SavedUnlessCached(m: Runtime, b: Books, target: string, session: string)
    ensures target == session ==> CachedBooks(m, b, target, session) == b
  {
  }

  /** A load under a fresh sequence number changes nothing of what is held. */
  lemma PendingStep(s0: State, m: Runtime, b: Books, target: string, phase: Phase, session: string)
    requires Tracks(s0, m, b, session) && (m.openSeq in m.pending ==> m.pending[m.openSeq].target == target)
    requires target == session ==> !IsOwn(b.saved) && Named(m)
    ensures Tracks(s0, m.(pending := m.pending[m.openSeq := Pending(target, phase)]), b, session)
  {
    hide Reduce, ReduceAll, Replayed;
  }

  lemma NextSeqStep(s0: State, m: Runtime, b: Books, session: string)
    requires Tracks(s0, m, b, session)
    ensures Tracks(s0, m.(openSeq := m.openSeq + 1), b, session) && m.openSeq + 1 !in m.pending
  {
    hide Reduce, ReduceAll, Replayed;
  }

  lemma ForgetStep(s0: State, m: Runtime, b: Books, k: nat, session: string)
    requires Tracks(s0, m, b, session)
    ensures Tracks(s0, Forgotten(m, k), b, session)
  {
    hide Reduce, ReduceAll, Replayed;
  }

  lemma ReturnStep(s0: State, m: Runtime, b: Books, session: string)
    requires Tracks(s0, m, b, session) && Named(m) && !Here(m, session) && session in m.cache
    ensures Tracks(s0, Dispatched(m, RestoreSessionRuntime(m.cache[session])), b.(view := b.saved.value), session)
  {
    RestoreFacts(m.state, m.cache[session]);
    hide Reduce, ReduceAll, Replayed;
  }

  /** What the switch steps need of the invariant. */
  lemma WhatIsKnown(s0: State, m: Runtime, b: Books, session: string)
    requires Tracks(s0, m, b, session)
    ensures HandleSession(m) == if Named(m) then Some(session) else None
    ensures (b.saved.Some? <==> session in m.cache) && (forall k | k in m.pending :: k <= m.openSeq)
    ensures m.openSeq in m.pending && m.pending[m.openSeq].target == session ==> !IsOwn(b.saved) && Named(m)
    ensures !Named(m) ==> !OnScreen(m, session)
  {
  }

  function OpenedBooks(m: Runtime, b: Books, target: string, session: string): Books {
    if Returns(m, Open(target), session) then b.(view := Or(b.saved, b.view)) else CachedBooks(m, b, target, session)
  }

  lemma OpenIsRecorded(m: Runtime, b: Books, target: string, session: string)
    ensures Recorded(m, b, Open(target), session) == OpenedBooks(m, b, target, session)
  {
  }

  /** A session loaded under a fresh sequence number. */
  lemma LoadStep(s0: State, n: Runtime, b: Books, target: string, session: string)
    requires Tracks(s0, n, b, session) && n.openSeq !in n.pending && (target == session ==> Named(n))
    requires target == session ==> !Here(n, session) && session !in n.cache
    ensures var c := CurrentCached(n, target);
            Tracks(s0, c.(pending := c.pending[c.openSeq := Pending(target, AwaitingDetail)]),
                CachedBooks(n, b, target, session), session)
  {
    WhatIsKnown(s0, n, b, session);
    CachingStep(s0, n, b, target, session);
    PendingStep(s0, CurrentCached(n, target), CachedBooks(n, b, target, session), target, AwaitingDetail, session);
    hide Tracks, Reduce;
  }

  /** The three ways a session is opened, seen from this stream's session. */
  lemma HowOpened(m: Runtime, target: string, session: string)
    requires HandleSession(m) == if Named(m) then Some(session) else None
    ensures var n := m.(openSeq := m.openSeq + 1);
            var c := CurrentCached(n, target);
            SessionOpened(m, target) ==
              if target == session && OnScreen(m, session) && Named(m) then n
              else if target == session && session in m.cache && Named(m) then
                  Dispatched(n, RestoreSessionRuntime(m.cache[session]))
              else c.(pending := c.pending[c.openSeq := Pending(target, AwaitingDetail)])
  {
    hide Reduce;
  }

  lemma OpenStep(s0: State, m: Runtime, b: Books, target: string, session: string)
    requires Tracks(s0, m, b, session) && AllowedAt(m, Open(target), session)
    ensures Tracks(s0, SessionOpened(m, target), Recorded(m, b, Open(target), session), session)
  {
    hide Tracks, Reduce, CurrentCached, Recorded, SessionOpened, Dispatched;
    var n := m.(openSeq := m.openSeq + 1);
    OpenIsRecorded(m, b, target, session);
    NextSeqStep(s0, m, b, session);
    WhatIsKnown(s0, m, b, session);
    HowOpened(m, target, session);
    if target == session && OnScreen(m, session) && Named(m) {
      assert OpenedBooks(m, b, target, session) == b;
    } else if Returns(m, Open(target), session) {
      ReturnStep(s0, n, b, session);
    } else {
      LoadStep(s0, n, b, target, session);
      assert OpenedBooks(m, b, target, session) == CachedBooks(n, b, target, session);
    }
  }

  lemma RestoreFacts(s: State, c: Snapshot)
    ensures Reduce(s, RestoreSessionRuntime(c)).facts == c.facts
    ensures Reduce(s, RestoreSessionRuntime(c)).conversationEpoch == s.conversationEpoch + 1
  {
  }

  lemma DetailStep(s0: State, m: Runtime, b: Books, k: nat, session: string)
    requires Tracks(s0, m, b, session)
    ensures Tracks(s0, DetailArrived(m, k), Recorded(m, b, Detail(k), session), session)
  {
    hide Tracks, Reduce, CurrentCached, SnapshotOf;
    WhatIsKnown(s0, m, b, session);
    ForgetStep(s0, m, b, k, session);
    if k in m.pending && m.pending[k].phase.AwaitingDetail? && k == m.openSeq {
      var target := m.pending[k].target;
      SameScreen(m, target, session);
      SavedUnlessCached(m, b, target, session);
      CachingStep(s0, m, b, target, session);
      PendingStep(s0, CurrentCached(m, target), CachedBooks(m, b, target, session), target, AwaitingBundle, session);
    }
  }

  /** A commit leaves the session for another, or loads it from history. */
  lemma LeaveStep(s0: State, m: Runtime, b: Books, target: string, d: Fetched, session: string)
    requires Tracks(s0, m, b, session) && m.openSeq !in m.pending && (target == session ==> !IsOwn(b.saved) && Named(m))
    ensures var loaded := RestoredRuntime(m.state, target, d);
            Tracks(s0, Dispatched(m, RestoreSessionRuntime(loaded)),
                   if target == session then b.(view := Trace(Loaded(loaded.facts), []), kept := false)
                   else if !Here(m, session) then b
                   else b.(kept := b.kept && IsOwn(b.saved),
                           quiet := b.quiet && (IsOwn(b.saved) ==> b.saved == Some(b.view))),
                   session)
  {
    hide Reduce, ReduceAll, Replayed, SnapshotOf;
    var loaded := RestoredRuntime(m.state, target, d);
    RestoreFacts(m.state, loaded);
    NothingReplayed(s0, loaded.facts);
    if target != session && Here(m, session) && b.kept && IsOwn(b.saved) && b.saved != Some(b.view) {
      ShorterPrefix(b.saved.value.actions, b.view.actions);
    }
  }

  lemma CommitStep(s0: State, m: Runtime, b: Books, k: nat, d: Fetched, session: string)
    requires Tracks(s0, m, b, session)
    ensures Tracks(s0, BundleArrived(m, k, d), Recorded(m, b, Commit(k, d), session), session)
  {
    hide Tracks, Reduce, RestoredRuntime;
    WhatIsKnown(s0, m, b, session);
    ForgetStep(s0, m, b, k, session);
    if Commits(m, Commit(k, d)) {
      LeaveStep(s0, Forgotten(m, k), b, m.pending[k].target, d, session);
    }
  }

  lemma NothingReplayed(s0: State, f: Facts)
    ensures Replayed(s0, Trace(Loaded(f), [])) == f
    ensures Replayed(s0, Trace(Own, [])) == s0.facts
  {
  }

  lemma ShorterPrefix(a: seq<Action>, b: seq<Action>)
    requires a <= b && a != b
    ensures |a| < |b|
  {
    assert a == b[..|a|];
    assert b[..|b|] == b;
  }

  lemma TracksNext(s0: State, m: Runtime, b: Books, e: Event, session: string)
    requires Tracks(s0, m, b, session) && AllowedAt(m, e, session)
    ensures Tracks(s0, Next(m, e), Recorded(m, b, e, session), session)
  {
    match e
    case Frame(a) => FrameStep(s0, m, b, a, session);
    case ChatStart(id) => NamingStep(s0, m, b, session);
    case Local(a) => LocalStep(s0, m, b, a, session);
    case Open(target) => OpenStep(s0, m, b, target, session);
    case Detail(k) => DetailStep(s0, m, b, k, session);
    case Commit(k, d) => CommitStep(s0, m, b, k, d, session);
    case OpenFailed(k) => ForgetStep(s0, m, b, k, session);
    hide Tracks, Reduce;
  }

  lemma TracksAtStart(m: Runtime, session: string)
    requires Starts(m, session) || StartsNew(m, session)
    ensures Tracks(m.state, m, StartBooks(m, session), session)
  {
    NothingReplayed(m.state, m.state.facts);
    if session in m.cache { NothingReplayed(m.state, m.cache[session].facts); }
    hide ReduceAll, Replayed;
  }

  lemma {:induction false} TracksRun(m: Runtime, es: seq<Event>, session: string)
    requires (Starts(m, session) || StartsNew(m, session)) && Orderly(m, es, session)
    ensures Tracks(m.state, Run(m, es), Bookkeeping(m, es, session), session)
  {
    hide Next, Recorded, Tracks, AllowedAt, Starts, StartsNew, StartBooks;
    if es == [] {
      TracksAtStart(m, session);
    } else {
      var n := |es| - 1;
      OrderlyPrefix(m, es, n, session);
      TracksRun(m, es[..n], session);
      TracksNext(m.state, Run(m, es[..n]), Bookkeeping(m, es[..n], session), es[n], session);
    }
  }

  lemma OrderlyPrefix(m: Runtime, es: seq<Event>, n: nat, session: string)
    requires Orderly(m, es, session) && n <= |es|
    ensures Orderly(m, es[..n], session)
  {
    hide AllowedAt, Run;
    assert forall i | 0 <= i < n :: es[..n][i] == es[i] && es[..n][..i] == es[..i];
  }

  /* ----- When a chat is let go ----- */

  /** The session on screen was written into the cache at some point of the run. */
  ghost predicate CachedBefore(m: Runtime, es: seq<Event>, session: string) {
    exists j | 0 <= j < |es| :: Caches(Run(m, es[..j]), es[j], session)
  }

  /**
   A switch away was committed before the chat had ever been cached: before it was named, or before the first caching
   since.
   */
  ghost predicate LeftUncached(m: Runtime, es: seq<Event>, session: string) {
    exists i | 0 <= i < |es| :: Departs(Run(m, es[..i]), es[i], session) && !CachedBefore(m, es[..i], session)
  }

  ghost predicate OpenedFromHistory(m: Runtime, es: seq<Event>, session: string) {
    exists i | 0 <= i < |es| :: Reloads(Run(m, es[..i]), es[i], session)
  }

  lemma CachedOneMore(m: Runtime, es: seq<Event>, session: string)
    requires es != []
    ensures var n := |es| - 1;
            CachedBefore(m, es, session) <==>
                CachedBefore(m, es[..n], session) || Caches(Run(m, es[..n]), es[n], session)
  {
    hide Caches, Run;
    var n := |es| - 1;
    assert forall j | 0 <= j < n :: es[..n][j] == es[j] && es[..n][..j] == es[..j];
  }

  lemma LeftOneMore(m: Runtime, es: seq<Event>, session: string)
    requires es != []
    ensures var n := |es| - 1;
            LeftUncached(m, es, session) <==>
              || LeftUncached(m, es[..n], session)
              || (Departs(Run(m, es[..n]), es[n], session) && !CachedBefore(m, es[..n], session))
  {
    hide Departs, CachedBefore, Run;
    var n := |es| - 1;
    assert forall i | 0 <= i < n :: es[..n][i] == es[i] && es[..n][..i] == es[..i];
  }

  lemma OpenedOneMore(m: Runtime, es: seq<Event>, session: string)
    requires es != []
    ensures var n := |es| - 1;
            OpenedFromHistory(m, es, session) <==>
                OpenedFromHistory(m, es[..n], session) || Reloads(Run(m, es[..n]), es[n], session)
  {
    hide Reloads, Run;
    var n := |es| - 1;
    assert forall i | 0 <= i < n :: es[..n][i] == es[i] && es[..n][..i] == es[..i];
  }

  /** The event is an action on the session while it is on screen. */
  predicate Takes(m: Runtime, e: Event, session: string) {
    Here(m, session) && Sent(m, e, session) != []
  }

  /** An action was taken on screen after the session was last cached. */
  ghost predicate TakenSince(m: Runtime, es: seq<Event>, session: string) {
    exists j | 0 <= j < |es| :: Takes(Run(m, es[..j]), es[j], session) && NotCachedAfter(m, es, j, session)
  }

  ghost predicate NotCachedAfter(m: Runtime, es: seq<Event>, j: nat, session: string) {
    forall l | j < l < |es| :: !Caches(Run(m, es[..l]), es[l], session)
  }

  /** A switch away was committed with the cached snapshot behind the screen: the departure overtook an action. */
  ghost predicate LeftBehind(m: Runtime, es: seq<Event>, session: string) {
    exists i | 0 <= i < |es| :: Departs(Run(m, es[..i]), es[i], session) && TakenSince(m, es[..i], session)
  }

  lemma NotCachedOneMore(m: Runtime, es: seq<Event>, j: nat, session: string)
    requires es != [] && j < |es|
    ensures var n := |es| - 1;
            if j == n then NotCachedAfter(m, es, j, session)
            else NotCachedAfter(m, es, j, session) <==>
                   NotCachedAfter(m, es[..n], j, session) && !Caches(Run(m, es[..n]), es[n], session)
  {
    hide Caches, Run;
    var n := |es| - 1;
    assert forall l | 0 <= l < n :: es[..n][l] == es[l] && es[..n][..l] == es[..l];
  }

  lemma TakenOneMore(m: Runtime, es: seq<Event>, session: string)
    requires es != []
    ensures var n := |es| - 1;
            TakenSince(m, es, session) <==>
              !Caches(Run(m, es[..n]), es[n], session)
              && (TakenSince(m, es[..n], session) || Takes(Run(m, es[..n]), es[n], session))
  {
    var n := |es| - 1;
    TakesOrCaches(Run(m, es[..n]), es[n], session);
    hide Takes, Caches, Run, NotCachedAfter;
    forall j | 0 <= j < |es|
      ensures if j == n then NotCachedAfter(m, es, j, session)
              else NotCachedAfter(m, es, j, session) <==>
                     NotCachedAfter(m, es[..n], j, session) && !Caches(Run(m, es[..n]), es[n], session)
    {
      NotCachedOneMore(m, es, j, session);
    }
    assert forall j | 0 <= j < n :: es[..n][j] == es[j] && es[..n][..j] == es[..j];
  }

  lemma TakesOrCaches(m: Runtime, e: Event, session: string)
    ensures !(Takes(m, e, session) && Caches(m, e, session))
  {
    hide Here;
  }

  lemma BehindOneMore(m: Runtime, es: seq<Event>, session: string)
    requires es != []
    ensures var n := |es| - 1;
            LeftBehind(m, es, session) <==>
              || LeftBehind(m, es[..n], session)
              || (Departs(Run(m, es[..n]), es[n], session) && TakenSince(m, es[..n], session))
  {
    hide Departs, TakenSince, Run;
    var n := |es| - 1;
    assert forall i | 0 <= i < n :: es[..n][i] == es[i] && es[..n][..i] == es[..i];
  }

  /** The switch under way, if any, is not to this session. */
  predicate HeadsElsewhere(m: Runtime, session: string) {
    m.openSeq in m.pending ==> m.pending[m.openSeq].target != session
  }

  /**
   What an event does to the books: `cached` says whether the chat was cached before, `n` and `c` are what follows.
   */
  ghost predicate Keeps(m: Runtime, b: Books, e: Event, session: string, cached: bool, n: Runtime, c: Books) {
    && (c.kept <==> b.kept && !Reloads(m, e, session) && !(Departs(m, e, session) && !cached))
    && (c.kept ==> (IsOwn(c.saved) <==> cached || Caches(m, e, session)))
    && (c.kept && HeadsElsewhere(m, session) ==> HeadsElsewhere(n, session))
    && (c.kept && c.saved.Some? && !IsOwn(c.saved) ==> b.saved.Some? && !IsOwn(b.saved))
    && (b.kept && !c.kept && !Reloads(m, e, session) ==> !Here(n, session) && c.saved == b.saved)
    && (!b.kept && !Here(m, session) && b.saved == None && !Reloads(m, e, session) ==>
          !Here(n, session) && c.saved == None)
  }

  ghost predicate Keeping(s0: State, m: Runtime, b: Books, session: string, cached: bool) {
    Tracks(s0, m, b, session) && (b.kept ==> (IsOwn(b.saved) <==> cached))
  }

  lemma HowArrived(m: Runtime, b: Books, e: Event, session: string)
    requires e.Frame? || e.ChatStart? || e.Local?
    ensures var c := Recorded(m, b, e, session);
            && c.kept == b.kept && c.saved.Some? == b.saved.Some? && IsOwn(c.saved) == IsOwn(b.saved)
            && !Caches(m, e, session) && !Departs(m, e, session) && !Reloads(m, e, session)
  {
    hide Here;
  }

  lemma KeepsArrivals(s0: State, m: Runtime, b: Books, e: Event, session: string, cached: bool)
    requires Keeping(s0, m, b, session, cached) && AllowedAt(m, e, session) && (e.Frame? || e.ChatStart? || e.Local?)
    ensures Keeps(m, b, e, session, cached, Next(m, e), Recorded(m, b, e, session))
  {
    HowArrived(m, b, e, session);
    if !Here(m, session) {
      StaysAway(s0, m, b, e, session);
    }
    SameSwitch(m, e);
    hide Tracks, Next, Here, Recorded, Caches, Departs, Reloads, IsOwn, AllowedAt;
  }

  lemma SameSwitch(m: Runtime, e: Event)
    requires e.Frame? || e.ChatStart? || e.Local?
    ensures Next(m, e).pending == m.pending && Next(m, e).openSeq == m.openSeq
  {
    hide Reduce;
  }

  lemma StaysAway(s0: State, m: Runtime, b: Books, e: Event, session: string)
    requires Tracks(s0, m, b, session) && AllowedAt(m, e, session) && !Here(m, session)
              && (e.Frame? || e.ChatStart? || e.Local?)
    ensures !Here(Next(m, e), session)
  {
    VisibleIffHere(m, session);
    if e.Local? {
      EpochCountsSwitches(m.state, e.act);
      StaysOnScreen(m.state, e.act, session);
    }
    hide Reduce, ReduceAll, Replayed;
  }

  lemma KeepsOpen(s0: State, m: Runtime, b: Books, target: string, session: string, cached: bool)
    requires Keeping(s0, m, b, session, cached) && AllowedAt(m, Open(target), session)
    ensures Keeps(m, b, Open(target), session, cached, SessionOpened(m, target), Recorded(m, b, Open(target), session))
  {
    hide Reduce, ReduceAll, Replayed, CurrentCached, Recorded, SessionOpened;
    WhatIsKnown(s0, m, b, session);
    HowOpened(m, target, session);
    OpenIsRecorded(m, b, target, session);
    SameScreen(m.(openSeq := m.openSeq + 1), target, session);
    hide Mirrors, Status;
  }

  lemma KeepsDetail(s0: State, m: Runtime, b: Books, k: nat, session: string, cached: bool)
    requires Keeping(s0, m, b, session, cached)
    ensures Keeps(m, b, Detail(k), session, cached, DetailArrived(m, k), Recorded(m, b, Detail(k), session))
  {
    hide CurrentCached, Tracks;
    WhatIsKnown(s0, m, b, session);
    HereIsOwn(s0, m, b, session);
    if k in m.pending {
      SameScreen(m, m.pending[k].target, session);
    }
  }

  lemma KeepsFailure(s0: State, m: Runtime, b: Books, k: nat, session: string, cached: bool)
    requires Keeping(s0, m, b, session, cached)
    ensures Keeps(m, b, OpenFailed(k), session, cached, Next(m, OpenFailed(k)), Recorded(m, b, OpenFailed(k), session))
  {
    hide Tracks;
    WhatIsKnown(s0, m, b, session);
  }

  /** A commit, seen from this stream's session. */
  lemma HowCommitted(m: Runtime, b: Books, k: nat, d: Fetched, session: string)
    ensures Recorded(m, b, Commit(k, d), session) ==
              if Departs(m, Commit(k, d), session) then
                b.(kept := b.kept && IsOwn(b.saved), quiet := b.quiet && (IsOwn(b.saved) ==> b.saved == Some(b.view)))
              else if Reloads(m, Commit(k, d), session) then
                b.(view := Trace(Loaded(RestoredRuntime(m.state, session, d).facts), []), kept := false)
              else b
    ensures !Caches(m, Commit(k, d), session)
    ensures Departs(m, Commit(k, d), session) || Reloads(m, Commit(k, d), session) ==> Commits(m, Commit(k, d))
    ensures !(Departs(m, Commit(k, d), session) && Reloads(m, Commit(k, d), session))
  {
    hide Here, Commits;
  }

  lemma WhereCommitLands(s0: State, m: Runtime, b: Books, k: nat, d: Fetched, session: string)
    requires Tracks(s0, m, b, session)
    ensures var e, n := Commit(k, d), BundleArrived(m, k, d);
            && (Departs(m, e, session) ==> !Here(n, session))
            && (!Reloads(m, e, session) && !Here(m, session) ==> !Here(n, session))
            && (!Departs(m, e, session) && !Reloads(m, e, session) && Here(m, session) ==> Here(n, session))
            && (HeadsElsewhere(m, session) ==> HeadsElsewhere(n, session))
  {
    hide Reduce, ReduceAll, Replayed, Mirrors, Balanced;
    if Commits(m, Commit(k, d)) {
      RestoreFacts(m.state, RestoredRuntime(m.state, m.pending[k].target, d));
    }
  }

  lemma KeepsCommit(s0: State, m: Runtime, b: Books, k: nat, d: Fetched, session: string, cached: bool)
    requires Keeping(s0, m, b, session, cached)
    ensures Keeps(m, b, Commit(k, d), session, cached, BundleArrived(m, k, d), Recorded(m, b, Commit(k, d), session))
  {
    HowCommitted(m, b, k, d, session);
    WhereCommitLands(s0, m, b, k, d, session);
    HereIsOwn(s0, m, b, session);
    hide Tracks, Recorded, BundleArrived, Departs, Reloads, Commits, Here, HeadsElsewhere, Caches, IsOwn;
  }

  lemma HereIsOwn(s0: State, m: Runtime, b: Books, session: string)
    requires Tracks(s0, m, b, session)
    ensures b.kept ==> IsOwn(HeldBy(m, b, session))
  {
    hide Status, Mirrors;
  }

  lemma KeepingStep(s0: State, m: Runtime, b: Books, e: Event, session: string, cached: bool)
    requires Keeping(s0, m, b, session, cached) && AllowedAt(m, e, session)
    ensures Keeps(m, b, e, session, cached, Next(m, e), Recorded(m, b, e, session))
    ensures Keeping(s0, Next(m, e), Recorded(m, b, e, session), session, cached || Caches(m, e, session))
  {
    TracksNext(s0, m, b, e, session);
    match e {
      case Open(target) => KeepsOpen(s0, m, b, target, session, cached);
      case Detail(k) => KeepsDetail(s0, m, b, k, session, cached);
      case Commit(k, d) => KeepsCommit(s0, m, b, k, d, session, cached);
      case OpenFailed(k) => KeepsFailure(s0, m, b, k, session, cached);
      case _ => KeepsArrivals(s0, m, b, e, session, cached);
    }
    hide Tracks, Recorded, SessionOpened, DetailArrived, BundleArrived, Caches, Departs, Reloads, Here;
  }

  lemma KeepingAtStart(m: Runtime, session: string)
    requires Starts(m, session) || StartsNew(m, session)
    ensures Keeping(m.state, m, StartBooks(m, session), session, false)
    ensures StartsNew(m, session) ==> HeadsElsewhere(m, session) && session !in m.cache
  {
    TracksAtStart(m, session);
    hide Tracks, Unnamed;
  }

  lemma HeadingElsewhere(m: Runtime, e: Event, session: string)
    requires HeadsElsewhere(m, session)
    ensures !Reloads(m, e, session)
  {
  }

  lemma {:induction false} KeepingRun(m: Runtime, es: seq<Event>, session: string)
    requires (Starts(m, session) || StartsNew(m, session)) && Orderly(m, es, session)
    ensures var n, b := Run(m, es), Bookkeeping(m, es, session);
            && Keeping(m.state, n, b, session, CachedBefore(m, es, session))
            && (b.kept <==> !LeftUncached(m, es, session) && !OpenedFromHistory(m, es, session))
            && (HeadsElsewhere(m, session) && !LeftUncached(m, es, session) ==> b.kept && HeadsElsewhere(n, session))
            && (session !in m.cache && b.kept && b.saved.Some? ==> IsOwn(b.saved))
            && (session !in m.cache && !b.kept && !OpenedFromHistory(m, es, session) ==>
                  !Here(n, session) && b.saved == None)
  {
    if es == [] {
      KeepingAtStart(m, session);
      hide Keeping, HeadsElsewhere;
    } else {
      var n := |es| - 1;
      var before, b := Run(m, es[..n]), Bookkeeping(m, es[..n], session);
      OrderlyPrefix(m, es, n, session);
      KeepingRun(m, es[..n], session);
      KeepingStep(m.state, before, b, es[n], session, CachedBefore(m, es[..n], session));
      CachedOneMore(m, es, session);
      LeftOneMore(m, es, session);
      OpenedOneMore(m, es, session);
      KeptMeansCached(m.state, before, b, session, CachedBefore(m, es[..n], session));
      if HeadsElsewhere(before, session) { HeadingElsewhere(before, es[n], session); }
      hide Next, Recorded, Keeping, AllowedAt, Starts, StartsNew, StartBooks, CachedBefore, LeftUncached,
        OpenedFromHistory, Departs, Reloads, Caches, Here, HeadsElsewhere;
    }
  }

  lemma KeptMeansCached(s0: State, m: Runtime, b: Books, session: string, cached: bool)
    requires Keeping(s0, m, b, session, cached)
    ensures b.kept ==> (IsOwn(b.saved) <==> cached)
  {
  }

  /**
   While a chat is kept and no departure overtook an action, its snapshot is behind exactly when one was taken since.
   */
  ghost predicate Fresh(m: Runtime, b: Books, session: string, taken: bool) {
    b.kept && b.quiet && IsOwn(b.saved) ==>
      if Here(m, session) then b.saved == Some(b.view) <==> !taken else !taken
  }

  lemma StaysHere(s0: State, m: Runtime, b: Books, e: Event, session: string)
    requires Tracks(s0, m, b, session) && AllowedAt(m, e, session) && Here(m, session)
    requires e.Frame? || e.ChatStart? || e.Local?
    requires IsOwn(b.saved)
    ensures Here(Next(m, e), session)
  {
    VisibleIffHere(m, session);
    var a := if e.Frame? then e.a else if e.Local? then e.act else SetSessionId(Some(session));
    StaysOnScreen(m.state, a, session);
    hide Reduce, ReduceAll, Replayed;
  }

  lemma GrownIsLonger(s0: State, m: Runtime, b: Books, a: Action, session: string)
    requires Tracks(s0, m, b, session) && b.kept && Here(m, session) && IsOwn(b.saved)
    ensures b.saved != Some(Grown(b.view, [a]))
  {
    hide Status, Mirrors;
  }

  lemma FreshArrivals(s0: State, m: Runtime, b: Books, e: Event, session: string, taken: bool)
    requires Tracks(s0, m, b, session) && AllowedAt(m, e, session) && Fresh(m, b, session, taken)
    requires e.Frame? || e.ChatStart? || e.Local?
    ensures Fresh(Next(m, e), Recorded(m, b, e, session), session, taken || Takes(m, e, session))
  {
    HowArrived(m, b, e, session);
    if Here(m, session) {
      if b.kept && IsOwn(b.saved) {
        StaysHere(s0, m, b, e, session);
        var a := if e.Frame? then e.a else if e.Local? then e.act else SetSessionId(Some(e.id));
        GrownIsLonger(s0, m, b, a, session);
      }
    } else {
      StaysAway(s0, m, b, e, session);
    }
    hide Tracks, Next, Here, IsOwn, AllowedAt, Grown;
  }

  lemma WhereOpenLeads(s0: State, m: Runtime, b: Books, target: string, session: string)
    requires Tracks(s0, m, b, session) && AllowedAt(m, Open(target), session) && !Returns(m, Open(target), session)
    ensures Here(SessionOpened(m, target), session) <==> Here(m, session)
  {
    hide Reduce, CurrentCached, SessionOpened, Tracks;
    WhatIsKnown(s0, m, b, session);
    HowOpened(m, target, session);
    SameScreen(m.(openSeq := m.openSeq + 1), target, session);
  }

  lemma FreshSwitch(s0: State, m: Runtime, b: Books, e: Event, session: string, taken: bool)
    requires Tracks(s0, m, b, session) && AllowedAt(m, e, session) && Fresh(m, b, session, taken)
    requires e.Open? || e.Detail? || e.Commit? || e.OpenFailed?
    ensures Fresh(Next(m, e), Recorded(m, b, e, session), session, taken && !Caches(m, e, session))
  {
    hide Tracks, CurrentCached, SessionOpened, BundleArrived, IsOwn;
    match e {
      case Open(target) =>
        if !Returns(m, e, session) { WhereOpenLeads(s0, m, b, target, session); }
        OpenIsRecorded(m, b, target, session);
        WhatIsKnown(s0, m, b, session);
        hide Here;
      case Detail(k) =>
        if k in m.pending { SameScreen(m, m.pending[k].target, session); }
      case Commit(k, d) =>
        HowCommitted(m, b, k, d, session);
        WhereCommitLands(s0, m, b, k, d, session);
        hide Here, Recorded, Commits;
      case OpenFailed(k) =>
    }
  }

  lemma FreshStep(s0: State, m: Runtime, b: Books, e: Event, session: string, taken: bool)
    requires Tracks(s0, m, b, session) && AllowedAt(m, e, session) && Fresh(m, b, session, taken)
    ensures Fresh(Next(m, e), Recorded(m, b, e, session), session,
                  !Caches(m, e, session) && (taken || Takes(m, e, session)))
  {
    TakesOrCaches(m, e, session);
    if e.Frame? || e.ChatStart? || e.Local? {
      HowArrived(m, b, e, session);
      FreshArrivals(s0, m, b, e, session, taken);
    } else {
      FreshSwitch(s0, m, b, e, session, taken);
    }
    hide Fresh, Next, Recorded, Tracks, Here, Caches;
  }

  lemma QuietStep(m: Runtime, b: Books, e: Event, session: string, taken: bool)
    requires Fresh(m, b, session, taken)
    ensures var c := Recorded(m, b, e, session);
            && (c.kept ==> b.kept)
            && (c.kept ==> (c.quiet <==> b.quiet && !(Departs(m, e, session) && taken)))
  {
    hide Here;
  }

  /** In a run that keeps the chat, the books call it quiet exactly when no departure overtook an action. */
  lemma {:induction false} QuietIffNotBehind(m: Runtime, es: seq<Event>, session: string)
    requires (Starts(m, session) || StartsNew(m, session)) && Orderly(m, es, session)
    ensures var b := Bookkeeping(m, es, session);
            && Fresh(Run(m, es), b, session, TakenSince(m, es, session))
            && (b.kept ==> (b.quiet <==> !LeftBehind(m, es, session)))
  {
    if es != [] {
      var n := |es| - 1;
      OrderlyPrefix(m, es, n, session);
      QuietIffNotBehind(m, es[..n], session);
      TracksRun(m, es[..n], session);
      var before, b := Run(m, es[..n]), Bookkeeping(m, es[..n], session);
      FreshStep(m.state, before, b, es[n], session, TakenSince(m, es[..n], session));
      QuietStep(before, b, es[n], session, TakenSince(m, es[..n], session));
      TakenOneMore(m, es, session);
      BehindOneMore(m, es, session);
      hide Next, Recorded, Fresh, Tracks, AllowedAt, Starts, StartsNew, StartBooks, TakenSince, LeftBehind, Departs,
        Caches, Takes, Here;
    }
  }

  /* ----- The theorems ----- */

  lemma HeldIsBalanced(s0: State, m: Runtime, b: Books, session: string)
    requires Tracks(s0, m, b, session)
    ensures SessionFacts(m, session) == FactsHeld(s0, HeldBy(m, b, session))
    ensures HeldBy(m, b, session) == Some(Trace(Own, b.due)) <==> b.kept && b.quiet
    ensures IsOwn(HeldBy(m, b, session)) <==> b.kept
  {
    hide Replayed, Status;
  }

  /**
   Whatever the stream's chat is, named or new, and however often it is left and entered again: what the client holds of
   it is what a run that stayed on screen makes of the trace held.  That trace is everything sent to the session exactly
   when the chat was never left uncached, never opened from history, and never left with its snapshot behind.
   */
  lemma BackgroundEqualsForeground(m: Runtime, es: seq<Event>, session: string)
    requires (Starts(m, session) || StartsNew(m, session)) && Orderly(m, es, session)
    ensures SessionFacts(Run(m, es), session) == FactsHeld(m.state, Held(m, es, session))
    ensures IsOwn(Held(m, es, session)) <==> !LeftUncached(m, es, session) && !OpenedFromHistory(m, es, session)
    ensures Held(m, es, session) == Some(Trace(Own, Due(m, es, session))) <==>
              !LeftUncached(m, es, session) && !OpenedFromHistory(m, es, session) && !LeftBehind(m, es, session)
  {
    TracksRun(m, es, session);
    HeldIsBalanced(m.state, Run(m, es), Bookkeeping(m, es, session), session);
    KeepingRun(m, es, session);
    QuietIffNotBehind(m, es, session);
    hide Run, Bookkeeping, Orderly, Starts, StartsNew, LeftUncached, OpenedFromHistory, LeftBehind, CachedBefore,
      TakenSince, Fresh, Keeping, Tracks, Here, HeldBy, IsOwn, SessionFacts, FactsHeld;
  }

  /**
   A new chat, before and after its naming: what the client holds is everything sent to it exactly when no switch away
   was committed before the chat was first cached under its name, and no later departure overtook a frame.  A chat left
   before that keeps nothing of its own: it has no facts at all until its session is opened from history.
   */
  lemma NewChatIsKeptIff(m: Runtime, es: seq<Event>, session: string)
    requires StartsNew(m, session) && Orderly(m, es, session)
    ensures SessionFacts(Run(m, es), session) == FactsHeld(m.state, Held(m, es, session))
    ensures Held(m, es, session) == Some(Trace(Own, Due(m, es, session)))
            <==> !LeftUncached(m, es, session) && !LeftBehind(m, es, session)
    ensures !LeftUncached(m, es, session) && !LeftBehind(m, es, session) ==>
              SessionFacts(Run(m, es), session) == Some(ReduceAll(m.state, Due(m, es, session)).facts)
    ensures LeftUncached(m, es, session) ==> !IsOwn(Held(m, es, session))
    ensures LeftUncached(m, es, session) && !OpenedFromHistory(m, es, session) ==>
              SessionFacts(Run(m, es), session) == None
  {
    BackgroundEqualsForeground(m, es, session);
    KeepingRun(m, es, session);
    KeepingAtStart(m, session);
    hide Run, Bookkeeping, Orderly, StartsNew, LeftUncached, OpenedFromHistory, LeftBehind, CachedBefore, Keeping, Here,
      HeadsElsewhere, ReduceAll;
  }

  /** A switch begun while the session is on screen has cached it by the time it commits. */
  ghost predicate Covered(m: Runtime, session: string, cached: bool) {
    && Named(m) && HandleSession(m) == Some(session) && m.stream.activeSessionId == Some(session)
    && (forall k | k in m.pending :: k <= m.openSeq)
    && (m.openSeq in m.pending && m.pending[m.openSeq].phase.AwaitingBundle? && OnScreen(m, session) ==>
          cached || m.pending[m.openSeq].target == session)
  }

  lemma SameNames(m: Runtime, e: Event, session: string)
    requires Named(m) && HandleSession(m) == Some(session) && m.stream.activeSessionId == Some(session)
              && Allowed(e, session)
    ensures Named(Next(m, e)) && HandleSession(Next(m, e)) == Some(session)
              && Next(m, e).stream.activeSessionId == Some(session)
  {
    hide Reduce, Overlay, SnapshotOf, IsVisible;
  }

  lemma CoveredStep(s0: State, m: Runtime, b: Books, e: Event, session: string, cached: bool)
    requires Covered(m, session, cached) && Tracks(s0, m, b, session) && AllowedAt(m, e, session)
    ensures Covered(Next(m, e), session, cached || Caches(m, e, session))
    ensures Departs(m, e, session) ==> cached
  {
    SameNames(m, e, session);
    if e.Frame? || e.ChatStart? || e.Local? {
      SameSwitch(m, e);
      if !OnScreen(m, session) { StaysAway(s0, m, b, e, session); }
      hide Next, Tracks;
    } else {
      CoveredSwitch(m, e, session, cached);
      hide Next, Tracks;
    }
  }

  lemma CoveredSwitch(m: Runtime, e: Event, session: string, cached: bool)
    requires Covered(m, session, cached) && (e.Open? || e.Detail? || e.Commit? || e.OpenFailed?)
    requires HandleSession(Next(m, e)) == Some(session) && Next(m, e).stream.activeSessionId == Some(session)
    ensures Covered(Next(m, e), session, cached || Caches(m, e, session))
  {
    hide Reduce, CurrentCached;
    if e.Open? {
      HowOpened(m, e.target, session);
      SameScreen(m.(openSeq := m.openSeq + 1), e.target, session);
      hide SessionOpened;
    } else if e.Detail? && e.k in m.pending {
      SameScreen(m, m.pending[e.k].target, session);
    }
  }

  lemma {:induction false} CoveredRun(m: Runtime, es: seq<Event>, session: string)
    requires Starts(m, session) && Orderly(m, es, session) && m.openSeq !in m.pending
    ensures Covered(Run(m, es), session, CachedBefore(m, es, session)) && !LeftUncached(m, es, session)
  {
    if es != [] {
      var n := |es| - 1;
      OrderlyPrefix(m, es, n, session);
      CoveredRun(m, es[..n], session);
      TracksRun(m, es[..n], session);
      CoveredStep(m.state, Run(m, es[..n]), Bookkeeping(m, es[..n], session), es[n], session,
          CachedBefore(m, es[..n], session));
      CachedOneMore(m, es, session);
      LeftOneMore(m, es, session);
      hide Next, Recorded, Covered, Tracks, AllowedAt, Starts, StartBooks, CachedBefore, LeftUncached, Departs, Caches;
    }
  }

  /**
   A named session with no switch in flight when the stream starts is never left uncached, so it is kept; and it holds
   everything sent, as an uninterrupted visible run would, exactly when no departure overtakes a frame.
   */
  lemma QuietRunLosesNothing(m: Runtime, es: seq<Event>, session: string)
    requires Starts(m, session) && m.openSeq !in m.pending && Orderly(m, es, session)
    ensures IsOwn(Held(m, es, session))
    ensures Held(m, es, session) == Some(Trace(Own, Due(m, es, session))) <==> !LeftBehind(m, es, session)
    ensures !LeftBehind(m, es, session) ==>
              SessionFacts(Run(m, es), session) == Some(ReduceAll(m.state, Due(m, es, session)).facts)
  {
    BackgroundEqualsForeground(m, es, session);
    KeepingRun(m, es, session);
    CoveredRun(m, es, session);
    hide Run, Bookkeeping, Orderly, Starts, LeftUncached, OpenedFromHistory, LeftBehind, CachedBefore, Keeping, Here,
      ReduceAll, Covered;
  }

  /* ----- Frames that are lost ----- */

  lemma Extend(m: Runtime, es: seq<Event>, e: Event, session: string)
    ensures Run(m, es + [e]) == Next(Run(m, es), e)
    ensures Bookkeeping(m, es + [e], session) == Recorded(Run(m, es), Bookkeeping(m, es, session), e, session)
  {
    assert (es + [e])[..|es|] == es;
  }

  /** A frame between the last caching and the commit of a switch is lost for good. */
  lemma FrameBeforeCommitIsLost(m: Runtime, session: string, other: string, d: Fetched, msg: Message)
    requires Starts(m, session) && other != session
    ensures var k := m.openSeq + 1;
            var es := [Open(other), Detail(k), Frame(AddMessage(msg)), Commit(k, d), Open(session)];
            && Orderly(m, es, session)
            && Held(m, es, session) == Some(Trace(Own, [])) && Due(m, es, session) == [AddMessage(msg)]
            && SessionFacts(Run(m, es), session) == Some(m.state.facts)
            && ReduceAll(m.state, Due(m, es, session)).facts.currentMessages == m.state.facts.currentMessages + [msg]
  {
    hide Reduce, Next, Recorded, Starts, Allowed, Here;
    var k := m.openSeq + 1;
    var es := [Open(other), Detail(k), Frame(AddMessage(msg)), Commit(k, d), Open(session)];
    FiveSteps(m, Open(other), Detail(k), Frame(AddMessage(msg)), Commit(k, d), Open(session), session);
    SwitchLoses(m, session, other, d, msg);
    AllAllowed(m, es, k, session, other, d, msg);
    hide Run, Bookkeeping;
    BackgroundEqualsForeground(m, es, session);
    NothingReplayed(m.state, m.state.facts);
    AddMessageAlone(m.state, msg);
  }

  lemma {:induction false} StaysNamed(m: Runtime, es: seq<Event>, session: string)
    requires m.stream.activeSessionId == Some(session) && forall e | e in es :: Allowed(e, session)
    ensures Run(m, es).stream.activeSessionId == Some(session)
  {
    if es != [] {
      var n := |es| - 1;
      StaysNamed(m, es[..n], session);
      StreamKept(Run(m, es[..n]), es[n], session);
    }
  }

  lemma StreamKept(m: Runtime, e: Event, session: string)
    requires m.stream.activeSessionId == Some(session) && Allowed(e, session)
    ensures Next(m, e).stream.activeSessionId == Some(session)
  {
    hide Reduce, IsVisible, Overlay, SnapshotOf;
  }

  /** Once the session is named, what may happen does not depend on the moment. */
  lemma NamedIsOrderly(m: Runtime, es: seq<Event>, session: string)
    requires m.stream.activeSessionId == Some(session) && forall e | e in es :: Allowed(e, session)
    ensures Orderly(m, es, session)
  {
    hide Allowed;
    forall i | 0 <= i < |es|
      ensures AllowedAt(Run(m, es[..i]), es[i], session)
    {
      StaysNamed(m, es[..i], session);
    }
  }

  lemma AllAllowed(m: Runtime, es: seq<Event>, k: nat, session: string, other: string, d: Fetched, msg: Message)
    requires Starts(m, session) && es == [Open(other), Detail(k), Frame(AddMessage(msg)), Commit(k, d), Open(session)]
    ensures Orderly(m, es, session)
  {
    hide Run;
    NamedIsOrderly(m, es, session);
  }

  /** A run of five events, unfolded. */
  lemma FiveSteps(m: Runtime, a: Event, b: Event, c: Event, d: Event, e: Event, session: string)
    ensures var books := StartBooks(m, session);
            var m1, b1 := Next(m, a), Recorded(m, books, a, session);
            var m2, b2 := Next(m1, b), Recorded(m1, b1, b, session);
            var m3, b3 := Next(m2, c), Recorded(m2, b2, c, session);
            var m4, b4 := Next(m3, d), Recorded(m3, b3, d, session);
            && Run(m, [a, b, c, d, e]) == Next(m4, e)
            && Bookkeeping(m, [a, b, c, d, e], session) == Recorded(m4, b4, e, session)
  {
    hide Next, Recorded, StartBooks;
    var none: seq<Event> := [];
    Extend(m, none, a, session);
    Extend(m, [a], b, session);
    Extend(m, [a, b], c, session);
    Extend(m, [a, b, c], d, session);
    Extend(m, [a, b, c, d], e, session);
    assert none + [a] == [a] && [a] + [b] == [a, b] && [a, b] + [c] == [a, b, c];
    assert [a, b, c] + [d] == [a, b, c, d] && [a, b, c, d] + [e] == [a, b, c, d, e];
  }

  lemma LoadedName(s: State, target: string, d: Fetched)
    ensures RestoredRuntime(s, target, d).facts.currentSessionId == Some(target)
    ensures SnapshotOf(s).facts == s.facts
  {
  }

  /** The states of that run, step by step. */
  lemma SwitchBegins(m: Runtime, session: string, other: string)
    requires Starts(m, session) && other != session
    ensures var k := m.openSeq + 1;
            var m1 := Next(m, Open(other));
            && m1 == m.(openSeq := k, cache := m.cache[session := SnapshotOf(m.state)],
                        pending := m.pending[k := Pending(other, AwaitingDetail)])
            && Next(m1, Detail(k)) == m1.(pending := m1.pending[k := Pending(other, AwaitingBundle)])
            && Caches(m1, Detail(k), session)
  {
    hide Reduce, SnapshotOf;
  }

  lemma SwitchCommits(m: Runtime, session: string, other: string, k: nat, d: Fetched)
    requires Attached(m, session) && OnScreen(m, session) && session in m.cache && other != session
    requires m.openSeq == k && k in m.pending && m.pending[k] == Pending(other, AwaitingBundle)
    requires m.cache[session].facts.currentSessionId == Some(session)
    ensures Departs(m, Commit(k, d), session)
    ensures var n := Next(m, Commit(k, d));
            && Named(n) && !OnScreen(n, session) && session in n.cache
            && Named(Next(n, Open(session))) && OnScreen(Next(n, Open(session)), session)
  {
    hide Reduce, RestoredRuntime;
    RestoreFacts(m.state, RestoredRuntime(m.state, other, d));
    LoadedName(m.state, other, d);
    var n := Next(m, Commit(k, d));
    assert n.cache == m.cache && !OnScreen(n, session);
    RestoreFacts(n.state, n.cache[session]);
  }

  lemma SwitchMoves(m: Runtime, session: string, other: string, d: Fetched, msg: Message)
    requires Starts(m, session) && other != session
    ensures var k := m.openSeq + 1;
            var m1 := Next(m, Open(other));
            var m2 := Next(m1, Detail(k));
            var m3 := Next(m2, Frame(AddMessage(msg)));
            var m4 := Next(m3, Commit(k, d));
            && Named(m) && Named(m1) && Named(m2) && Named(m3) && Named(m4)
            && OnScreen(m, session) && OnScreen(m1, session) && OnScreen(m2, session) && OnScreen(m3, session)
            && Caches(m1, Detail(k), session) && Departs(m3, Commit(k, d), session)
            && !OnScreen(m4, session) && session in m4.cache
            && OnScreen(Next(m4, Open(session)), session) && Named(Next(m4, Open(session)))
  {
    hide Reduce, SnapshotOf, Caches, Departs, SessionOpened, DetailArrived, BundleArrived;
    var k := m.openSeq + 1;
    SwitchBegins(m, session, other);
    var m2 := Next(Next(m, Open(other)), Detail(k));
    SessionIdKept(m2.state, AddMessage(msg));
    assert IsVisible(m2);
    var m3 := Next(m2, Frame(AddMessage(msg)));
    assert m3 == Dispatched(m2, AddMessage(msg));
    LoadedName(m.state, other, d);
    SwitchCommits(m3, session, other, k, d);
  }

  lemma HowRecorded(m: Runtime, b: Books, e: Event, session: string)
    ensures e.Detail? ==> Recorded(m, b, e, session) == if Caches(m, e, session) then b.(saved := Some(b.view)) else b
    ensures e.Frame? && Here(m, session) ==>
              Recorded(m, b, e, session) == b.(view := Grown(b.view, [e.a]), due := b.due + [e.a])
    ensures Departs(m, e, session) ==>
              Recorded(m, b, e, session)
              == b.(kept := b.kept && IsOwn(b.saved), quiet := b.quiet && (IsOwn(b.saved) ==> b.saved == Some(b.view)))
  {
  }

  /** The books of that run, step by step. */
  lemma SwitchLoses(m: Runtime, session: string, other: string, d: Fetched, msg: Message)
    requires Starts(m, session) && other != session
    ensures var k := m.openSeq + 1;
            var b := StartBooks(m, session);
            var m1, b1 := Next(m, Open(other)), Recorded(m, b, Open(other), session);
            var m2, b2 := Next(m1, Detail(k)), Recorded(m1, b1, Detail(k), session);
            var m3, b3 := Next(m2, Frame(AddMessage(msg))), Recorded(m2, b2, Frame(AddMessage(msg)), session);
            var m4, b4 := Next(m3, Commit(k, d)), Recorded(m3, b3, Commit(k, d), session);
            var m5, b5 := Next(m4, Open(session)), Recorded(m4, b4, Open(session), session);
            Here(m5, session) && b5.view == Trace(Own, []) && b5.due == [AddMessage(msg)]
  {
    hide Next, Recorded, Starts, Caches, Departs, OnScreen, IsOwn;
    SwitchMoves(m, session, other, d, msg);
    var k := m.openSeq + 1;
    var b := StartBooks(m, session);
    var m1, b1 := Next(m, Open(other)), Recorded(m, b, Open(other), session);
    OpenIsRecorded(m, b, other, session);
    assert b1 == b.(saved := Some(b.view));
    var m2, b2 := Next(m1, Detail(k)), Recorded(m1, b1, Detail(k), session);
    HowRecorded(m1, b1, Detail(k), session);
    assert b2 == b1;
    var m3, b3 := Next(m2, Frame(AddMessage(msg))), Recorded(m2, b2, Frame(AddMessage(msg)), session);
    HowRecorded(m2, b2, Frame(AddMessage(msg)), session);
    var m4, b4 := Next(m3, Commit(k, d)), Recorded(m3, b3, Commit(k, d), session);
    HowRecorded(m3, b3, Commit(k, d), session);
    OpenIsRecorded(m4, b4, session, session);
  }

  lemma AddMessageAlone(s: State, msg: Message)
    ensures ReduceAll(s, []) == s
    ensures ReduceAll(s, [AddMessage(msg)]).facts.currentMessages == s.facts.currentMessages + [msg]
  {
    assert [AddMessage(msg)][..0] == [];
  }

  /* ----- A new chat that is left before the server has named its session ----- */

  /** The stream serves no session yet. */
  predicate Unannounced(m: Runtime) {
    !Truthy(m.stream.activeSessionId) && !Truthy(m.stream.startSessionId)
  }

  /** Off screen and with no cached snapshot, a stream changes nothing at all. */
  lemma {:induction false} UncachedFramesAreLost(m: Runtime, actions: seq<Action>)
    requires !IsVisible(m)
    requires Truthy(m.stream.activeSessionId) ==> m.stream.activeSessionId.value !in m.cache
    requires !Truthy(m.stream.activeSessionId) ==> !Truthy(m.stream.startSessionId)
    ensures Run(m, seq(|actions|, i requires 0 <= i < |actions| => Frame(actions[i]))) == m
  {
    var es := seq(|actions|, i requires 0 <= i < |actions| => Frame(actions[i]));
    if actions != [] {
      var n := |actions| - 1;
      UncachedFramesAreLost(m, actions[..n]);
      assert es[..n] == seq(n, i requires 0 <= i < n => Frame(actions[..n][i]));
    }
  }

  /** Leaving such a chat caches nothing, and naming its session later does not bring it back. */
  lemma UnannouncedChatIsLost(m: Runtime, other: string, d: Fetched, id: string, actions: seq<Action>)
    requires Unannounced(m) && m.handle == Some(Handle(m.stream.token, None)) && m.state.facts.currentSessionId == None
    requires m.state.conversationEpoch == m.stream.startEpoch && IsVisible(m)
    requires id != "" && id != other && id !in m.cache
    ensures var k := m.openSeq + 1;
            var gone := Next(Next(Next(Next(m, Open(other)), Detail(k)), Commit(k, d)), ChatStart(id));
            && id !in gone.cache && gone.state.facts.currentSessionId == Some(other)
            && Run(gone, seq(|actions|, i requires 0 <= i < |actions| => Frame(actions[i]))) == gone
  {
    hide Reduce, Run;
    var k := m.openSeq + 1;
    var m1 := Next(m, Open(other));
    assert m1 == m.(openSeq := k, pending := m.pending[k := Pending(other, AwaitingDetail)]);
    var m2 := Next(m1, Detail(k));
    assert m2 == m1.(pending := m1.pending[k := Pending(other, AwaitingBundle)]);
    RestoreFacts(m2.state, RestoredRuntime(m2.state, other, d));
    var m3 := Next(m2, Commit(k, d));
    assert m3.cache == m.cache && m3.state.conversationEpoch == m.stream.startEpoch + 1;
    var m4 := Next(m3, ChatStart(id));
    assert m4.state == m3.state && m4.cache == m.cache && !IsVisible(m4);
    UncachedFramesAreLost(m4, actions);
  }
}
