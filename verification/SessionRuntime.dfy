/**
 Switching sessions while an answer streams (useSendMessage.ts, useSessionManager.ts).

 A stream frame goes to the screen when its session is shown, else the reducer is
 replayed on the snapshot cached when that session was left.  openSession has two
 awaits, modelled as separate steps; anything may happen between them.
 */
module SessionRuntime {
  import opened Options
  import opened AppState
  import opened ReducerLaws

  /** The active stream as the session switcher sees it. */
  datatype Handle = Handle(token: string, sessionId: Option<string>)

  /** What one stream remembers about where it started and which session it serves. */
  datatype Stream = Stream(token: string, startSessionId: Option<string>, startEpoch: int,
      activeSessionId: Option<string>)

  datatype Phase = AwaitingDetail | AwaitingBundle

  datatype Pending = Pending(target: string, phase: Phase)

  datatype Runtime = Runtime(
    state: State, cache: map<string, Snapshot>, handle: Option<Handle>, stream: Stream,
    openSeq: nat, pending: map<nat, Pending>)

  /** What the server answers about a session that is opened from history. */
  datatype Fetched = Fetched(
    runId: Option<string>, runStatus: Option<string>, recovery: Option<Opaque>, messages: seq<Message>,
    nextBefore: Option<string>, hasMore: bool, thinkingSteps: seq<Step>, bundle: Option<Bundle>,
    summaryCard: Option<Opaque>, planGate: Option<Gate>, identity: Option<Opaque>)

  const LOAD_FAILED := "暂时无法加载这趟旅行的正式结果，请稍后重试。"

  /** The runtime of a session opened from history; a bundle of another run is not admitted. */
  function RestoredRuntime(s: State, target: string, d: Fetched): Snapshot {
    var bundle :=
      if d.runId.Some? && d.bundle.Some? && d.bundle.value.manifest.runId == d.runId.value then d.bundle else None;
    var status := if d.runId.Some? then d.runStatus else None;
    Snapshot(
      s.conversationEpoch,
      Facts(
        currentSessionId := Some(target), currentTripRunId := d.runId, currentTripRunStatus := status,
        currentTripRunRecovery := d.recovery, tripRunSource := if d.runId.Some? then Live else NoSource,
        tripRunRefreshKey := s.facts.tripRunRefreshKey,
        currentMessages := if status == Some("awaiting_input") then d.messages else AllSettled(d.messages),
        historyPaging := Paging(d.nextBefore, d.hasMore, false), thinkingSteps := d.thinkingSteps,
        deliveryBundle := bundle,
        deliveryBundleLoadState :=
          if bundle.Some? then LoadState(Ready, None)
          else if status == Some("completed") then LoadState(Failed, Some(LOAD_FAILED))
          else IDLE,
        tripSummaryCard := d.summaryCard,
        planApprovalGate := if status == Some("awaiting_input") then d.planGate else None,
        pendingGuidedIntake := None, pendingRouteConfirmation := None, lastRouteDecision := None,
        controlledTripIdentity := d.identity, runCostLive := None, runCostSummary := None, isStreaming := false,
        isSynthesizing := false, splitViewActive := bundle.Some?, canvasOpen := bundle.Some?,
        canvasFullscreen := false, mobileCanvasOpen := false, activeDayIndex := None, activeItemId := None,
        activePlaceId := None, inputMode := NormalInput))
  }

  /* ----- The steps ----- */

  function HandleSession(m: Runtime): Option<string> {
    if m.handle.Some? then m.handle.value.sessionId else None
  }

  predicate IsCurrentStream(m: Runtime) {
    m.handle.Some? && m.handle.value.token == m.stream.token
  }

  predicate IsVisible(m: Runtime) {
    && IsCurrentStream(m)
    && if Truthy(m.stream.activeSessionId) then
         || m.state.facts.currentSessionId == m.stream.activeSessionId
         || (!Truthy(m.stream.startSessionId) && m.state.conversationEpoch == m.stream.startEpoch)
       else if Truthy(m.stream.startSessionId) then m.state.facts.currentSessionId == m.stream.startSessionId
       else m.state.conversationEpoch == m.stream.startEpoch
  }

  function Dispatched(m: Runtime, a: Action): Runtime {
    m.(state := Reduce(m.state, a))
  }

  function HiddenReduced(m: Runtime, a: Action): Runtime {
    var id := if Truthy(m.stream.activeSessionId) then m.stream.activeSessionId else m.stream.startSessionId;
    if !Truthy(id) || id.value !in m.cache then m
    else m.(cache := m.cache[id.value := SnapshotOf(Reduce(Overlay(m.state, m.cache[id.value]), a))])
  }

  function ScopedDispatched(m: Runtime, a: Action): Runtime {
    if IsVisible(m) then Dispatched(m, a) else HiddenReduced(m, a)
  }

  /** chat_start names the session the stream serves. */
  function Announced(m: Runtime, id: string): Runtime {
    var named := m.(
      stream := m.stream.(activeSessionId := Some(id)),
      handle := if IsCurrentStream(m) then Some(Handle(m.stream.token, Some(id))) else m.handle);
    ScopedDispatched(named, SetSessionId(Some(id)))
  }

  function CurrentCached(m: Runtime, next: string): Runtime {
    var current := m.state.facts.currentSessionId;
    if !Truthy(current) || current == Some(next) || HandleSession(m) != current then m
    else m.(cache := m.cache[current.value := SnapshotOf(m.state)])
  }

  function SessionOpened(m: Runtime, target: string): Runtime {
    var n := m.(openSeq := m.openSeq + 1);
    if m.state.facts.currentSessionId == Some(target) && HandleSession(m) == Some(target) then n
    else
      var c := CurrentCached(n, target);
      if target in c.cache && HandleSession(c) == Some(target)
      then Dispatched(c, RestoreSessionRuntime(c.cache[target]))
      else c.(pending := c.pending[c.openSeq := Pending(target, AwaitingDetail)])
  }

  function Forgotten(m: Runtime, k: nat): Runtime {
    m.(pending := m.pending - {k})
  }

  function DetailArrived(m: Runtime, k: nat): Runtime {
    if k !in m.pending || !m.pending[k].phase.AwaitingDetail? then m
    else if k != m.openSeq then Forgotten(m, k)
    else
      var c := CurrentCached(m, m.pending[k].target);
      c.(pending := c.pending[k := Pending(m.pending[k].target, AwaitingBundle)])
  }

  function BundleArrived(m: Runtime, k: nat, d: Fetched): Runtime {
    if k !in m.pending || !m.pending[k].phase.AwaitingBundle? then m
    else if k != m.openSeq then Forgotten(m, k)
    else Dispatched(Forgotten(m, k), RestoreSessionRuntime(RestoredRuntime(m.state, m.pending[k].target, d)))
  }

  datatype Event =
    | Frame(a: Action)
    | ChatStart(id: string)
    | Local(act: Action)
    | Open(target: string)
    | Detail(k: nat)
    | Commit(seq_: nat, d: Fetched)
    | OpenFailed(failed: nat)

  function Next(m: Runtime, e: Event): Runtime {
    match e
    case Frame(a) => ScopedDispatched(m, a)
    case ChatStart(id) => Announced(m, id)
    case Local(a) => Dispatched(m, a)
    case Open(target) => SessionOpened(m, target)
    case Detail(k) => DetailArrived(m, k)
    case Commit(k, d) => BundleArrived(m, k, d)
    case OpenFailed(k) => Forgotten(m, k)
  }

  function Run(m: Runtime, es: seq<Event>): Runtime {
    if es == [] then m else Next(Run(m, es[..|es| - 1]), es[|es| - 1])
  }

  /* ----- Where a frame goes ----- */

  /** The session the stream serves: the one it was told of, or, until then, the one it began in. */
  predicate Serves(m: Runtime, id: string) {
    && id != ""
    && (|| m.stream.activeSessionId == Some(id)
        || (m.stream.startSessionId == Some(id) && !Truthy(m.stream.activeSessionId)))
  }

  /** The chat on screen is the one the stream serves, or the new one it began in. */
  predicate OnItsScreen(m: Runtime) {
    || (m.state.facts.currentSessionId.Some? && Serves(m, m.state.facts.currentSessionId.value))
    || (!Truthy(m.stream.startSessionId) && m.state.conversationEpoch == m.stream.startEpoch)
  }

  predicate HoldsHandle(m: Runtime) {
    m.handle.Some? && m.handle.value.token == m.stream.token
  }

  /**
   A frame reaches the screen exactly when its stream still holds the handle and its chat is on screen; otherwise it
   reaches the facts cached for the session served, if any are, and nothing else.
   */
  lemma FrameIsShownIff(m: Runtime, a: Action)
    ensures var n := Next(m, Frame(a));
            if HoldsHandle(m) && OnItsScreen(m) then n == m.(state := Reduce(m.state, a))
            else
              && n == m.(cache := n.cache) && n.cache.Keys == m.cache.Keys
              && forall id | id in m.cache ::
                   if Serves(m, id)
                   then forall s: State | s.facts == m.cache[id].facts :: n.cache[id].facts == Reduce(s, a).facts
                   else n.cache[id] == m.cache[id]
  {
    hide Reduce;
    if !(HoldsHandle(m) && OnItsScreen(m)) {
      forall id, s: State | id in m.cache && Serves(m, id) && s.facts == m.cache[id].facts
        ensures Next(m, Frame(a)).cache[id].facts == Reduce(s, a).facts
      {
        SessionPartIsClosed(Overlay(m.state, m.cache[id]), s, a);
      }
    }
  }

  /** Naming the session is its own frame, and moves the handle only if the stream still holds it. */
  lemma NamingIsAFrame(m: Runtime, id: string)
    ensures var n, named := Next(m, ChatStart(id)), m.(stream := m.stream.(activeSessionId := Some(id)));
            && n.stream == named.stream && n.openSeq == m.openSeq && n.pending == m.pending
            && n.handle == (if HoldsHandle(m) then Some(Handle(m.stream.token, Some(id))) else m.handle)
            && n.state == Next(named, Frame(SetSessionId(Some(id)))).state
            && n.cache == Next(named, Frame(SetSessionId(Some(id)))).cache
  {
    hide Reduce;
  }

  /* ----- What opening a session from history shows ----- */

  /** The run waits for the user's decision. */
  predicate Waits(d: Fetched) {
    d.runId.Some? && d.runStatus == Some("awaiting_input")
  }

  /**
   The thread is the session's messages, one by one; only a message that waits for an approval the run no longer waits
   for has become an ordinary finished one.
   */
  ghost predicate ShowsThread(shown: seq<Message>, d: Fetched) {
    && |shown| == |d.messages|
    && forall i | 0 <= i < |shown| ::
         var was := d.messages[i];
         if was.kind == Some(WaitingApproval) && !Waits(d)
         then shown[i] == was.(kind := Some(Normal), streamCompleted := true)
         else shown[i] == was
  }

  /** The delivery is shown, and the canvas open for it, exactly when it belongs to the session's run. */
  ghost predicate ShowsDelivery(f: Facts, d: Fetched) {
    && (forall b :: f.deliveryBundle == Some(b) <==> d.bundle == Some(b) && d.runId == Some(b.manifest.runId))
    && (f.canvasOpen <==> f.deliveryBundle.Some?) && (f.splitViewActive <==> f.deliveryBundle.Some?)
    && !f.canvasFullscreen && !f.mobileCanvasOpen
    && f.deliveryBundleLoadState.status ==
         (if f.deliveryBundle.Some? then Ready
          else if d.runId.Some? && d.runStatus == Some("completed") then Failed else Idle)
    && (f.deliveryBundleLoadState.message.Some? <==> f.deliveryBundleLoadState.status.Failed?)
  }

  /** No selection, no pending choice, no stream and no cost of the session before. */
  predicate StartsClean(f: Facts) {
    && f.activeDayIndex == None && f.activeItemId == None && f.activePlaceId == None
    && f.pendingGuidedIntake == None && f.pendingRouteConfirmation == None && f.lastRouteDecision == None
    && f.runCostLive == None && f.runCostSummary == None && !f.isStreaming && !f.isSynthesizing
    && f.inputMode == NormalInput
  }

  /** What the screen shows once a session has been opened from history. */
  ghost predicate ShowsHistory(before: State, after: State, target: string, d: Fetched) {
    var f := after.facts;
    && ShowsThread(f.currentMessages, d) && ShowsDelivery(f, d) && StartsClean(f)
    && f.currentSessionId == Some(target) && f.currentTripRunId == d.runId
    && f.currentTripRunStatus == (if d.runId.Some? then d.runStatus else None)
    && (f.tripRunSource.Live? <==> d.runId.Some?) && f.currentTripRunRecovery == d.recovery
    && f.tripRunRefreshKey == before.facts.tripRunRefreshKey
    && f.historyPaging.nextBefore == d.nextBefore && f.historyPaging.hasMore == d.hasMore && !f.historyPaging.loading
    && f.thinkingSteps == d.thinkingSteps && f.tripSummaryCard == d.summaryCard
    && f.controlledTripIdentity == d.identity
    && f.planApprovalGate == (if Waits(d) then d.planGate else None)
    && after.conversationEpoch == before.conversationEpoch + 1
    && after.shell == before.shell.(deliverableView := InteractiveItinerary)
  }

  lemma {:induction false} SettledOneByOne(xs: seq<Message>)
    ensures |AllSettled(xs)| == |xs|
    ensures forall i | 0 <= i < |xs| ::
              AllSettled(xs)[i] == if xs[i].kind == Some(WaitingApproval)
                                   then xs[i].(kind := Some(Normal), streamCompleted := true) else xs[i]
  {
    if xs != [] { SettledOneByOne(xs[1..]); }
  }

  /**
   A current commit puts the loaded session on screen, and nothing of the one before; everything else of the runtime
   stays, but for the load that is over.
   */
  lemma HistoryIsShown(m: Runtime, k: nat, d: Fetched)
    requires k in m.pending && m.pending[k].phase.AwaitingBundle? && k == m.openSeq
    ensures var n := Next(m, Commit(k, d));
            && ShowsHistory(m.state, n.state, m.pending[k].target, d)
            && n == m.(state := n.state, pending := m.pending - {k})
  {
    SettledOneByOne(d.messages);
    hide AllSettled;
  }

  /** The refs, the cache and the stream's own variables, updated in place. */
  class Client {
    var state: State
    var cache: map<string, Snapshot>
    var handle: Option<Handle>
    var openSeq: nat
    var pending: map<nat, Pending>
    const token: string
    const startSessionId: Option<string>
    const startEpoch: int
    var activeSessionId: Option<string>

    /** A stream started on the state on screen. */
    constructor (state: State, cache: map<string, Snapshot>, token: string)
      ensures Model() == Runtime(
        state, cache, Some(Handle(token, state.facts.currentSessionId)),
        Stream(token, state.facts.currentSessionId, state.conversationEpoch, state.facts.currentSessionId), 0, map[])
    {
      this.state, this.cache, this.token := state, cache, token;
      startSessionId, startEpoch := state.facts.currentSessionId, state.conversationEpoch;
      activeSessionId := state.facts.currentSessionId;
      handle := Some(Handle(token, state.facts.currentSessionId));
      openSeq, pending := 0, map[];
    }

    function Model(): Runtime
      reads this
    {
      Runtime(state, cache, handle, Stream(token, startSessionId, startEpoch, activeSessionId), openSeq, pending)
    }

    method Dispatch(a: Action)
      modifies this`state
      ensures Model() == Dispatched(old(Model()), a)
    {
      state := Reduce(state, a);
    }

    method ScopedDispatch(a: Action)
      modifies this`state, this`cache
      ensures Model() == ScopedDispatched(old(Model()), a)
    {
      if IsVisible(Model()) {
        Dispatch(a);
      } else {
        var id := if Truthy(activeSessionId) then activeSessionId else startSessionId;
        if Truthy(id) && id.value in cache {
          var next := Reduce(Overlay(state, cache[id.value]), a);
          cache := cache[id.value := SnapshotOf(next)];
        }
      }
    }

    method AcceptChatStart(id: string)
      modifies this`state, this`cache, this`handle, this`activeSessionId
      ensures Model() == Announced(old(Model()), id)
    {
      activeSessionId := Some(id);
      if handle.Some? && handle.value.token == token {
        handle := Some(Handle(token, Some(id)));
      }
      ScopedDispatch(SetSessionId(Some(id)));
    }

    method CacheCurrentRuntimeIfStreaming(next: string)
      modifies this`cache
      ensures Model() == CurrentCached(old(Model()), next)
    {
      var current := state.facts.currentSessionId;
      if !Truthy(current) || current == Some(next) {
        return;
      }
      if HandleSession(Model()) != current {
        return;
      }
      cache := cache[current.value := SnapshotOf(state)];
    }

    method OpenSession(target: string)
      modifies this`state, this`cache, this`openSeq, this`pending
      ensures Model() == SessionOpened(old(Model()), target)
    {
      openSeq := openSeq + 1;
      if state.facts.currentSessionId == Some(target) && HandleSession(Model()) == Some(target) {
        return;
      }
      CacheCurrentRuntimeIfStreaming(target);
      if target in cache && HandleSession(Model()) == Some(target) {
        Dispatch(RestoreSessionRuntime(cache[target]));
        return;
      }
      pending := pending[openSeq := Pending(target, AwaitingDetail)];
    }

    method OnDetail(k: nat)
      requires k in pending && pending[k].phase.AwaitingDetail?
      modifies this`cache, this`pending
      ensures Model() == DetailArrived(old(Model()), k)
    {
      var target := pending[k].target;
      if k != openSeq {
        pending := pending - {k};
        return;
      }
      CacheCurrentRuntimeIfStreaming(target);
      pending := pending[k := Pending(target, AwaitingBundle)];
    }

    method OnBundle(k: nat, d: Fetched)
      requires k in pending && pending[k].phase.AwaitingBundle?
      modifies this`state, this`pending
      ensures Model() == BundleArrived(old(Model()), k, d)
      ensures k == openSeq ==> ShowsHistory(old(state), state, old(pending[k].target), d)
      ensures k != openSeq ==> state == old(state)
    {
      if k == openSeq { HistoryIsShown(Model(), k, d); }
      hide ShowsHistory;
      var target := pending[k].target;
      pending := pending - {k};
      if k == openSeq {
        Dispatch(RestoreSessionRuntime(RestoredRuntime(state, target, d)));
      }
    }
  }

  /* ----- Invariants of every reachable runtime ----- */

  /** Restoring a snapshot is openSession's alone. */
  predicate Ordinary(e: Event) {
    (e.Frame? ==> !e.a.RestoreSessionRuntime?) && (e.Local? ==> !e.act.RestoreSessionRuntime?)
  }

  ghost predicate AllSound(m: Runtime) {
    Sound(m.state.facts) && forall k | k in m.cache :: Sound(m.cache[k].facts)
  }

  lemma NextSound(m: Runtime, e: Event)
    requires AllSound(m) && Ordinary(e)
    ensures AllSound(Next(m, e))
  {
    hide Reduce;
    match e
    case Frame(a) => ScopedSound(m, a);
    case ChatStart(id) =>
      ScopedSound(m.(stream := m.stream.(activeSessionId := Some(id)),
                     handle := if IsCurrentStream(m) then Some(Handle(m.stream.token, Some(id))) else m.handle),
                  SetSessionId(Some(id)));
    case Local(a) => ReduceSound(m.state, a);
    case Open(target) =>
      var c := CurrentCached(m.(openSeq := m.openSeq + 1), target);
      if target in c.cache {
        ReduceSound(c.state, RestoreSessionRuntime(c.cache[target]));
      }
    case Detail(k) =>
    case Commit(k, d) =>
      if k in m.pending {
        ReduceSound(m.state, RestoreSessionRuntime(RestoredRuntime(m.state, m.pending[k].target, d)));
      }
    case OpenFailed(k) =>
  }

  lemma ReplayedSound(s: State, snapshot: Snapshot, a: Action)
    requires Sound(snapshot.facts) && !a.RestoreSessionRuntime?
    ensures Sound(SnapshotOf(Reduce(Overlay(s, snapshot), a)).facts)
  {
    hide Reduce, Sound;
    ReduceSound(Overlay(s, snapshot), a);
  }

  lemma HiddenSound(m: Runtime, a: Action)
    requires AllSound(m) && !a.RestoreSessionRuntime?
    ensures AllSound(HiddenReduced(m, a))
  {
    hide Reduce, Sound, SnapshotOf, Overlay;
    var id := if Truthy(m.stream.activeSessionId) then m.stream.activeSessionId else m.stream.startSessionId;
    if Truthy(id) && id.value in m.cache {
      ReplayedSound(m.state, m.cache[id.value], a);
    }
  }

  lemma ScopedSound(m: Runtime, a: Action)
    requires AllSound(m) && !a.RestoreSessionRuntime?
    ensures AllSound(ScopedDispatched(m, a))
  {
    hide Reduce, IsVisible, Sound, HiddenReduced;
    if IsVisible(m) {
      ReduceSound(m.state, a);
    } else {
      HiddenSound(m, a);
    }
  }

  /** Does this event switch the thread on screen? */
  predicate Switches(m: Runtime, e: Event) {
    match e
    case Frame(a) => IsVisible(m) && SwitchesThread(m.state, a)
    case ChatStart(_) => false
    case Local(a) => SwitchesThread(m.state, a)
    case Open(target) =>
      var c := CurrentCached(m, target);
      HandleSession(m) == Some(target) && m.state.facts.currentSessionId != Some(target) && target in c.cache
    case Detail(_) => false
    case Commit(k, _) => k in m.pending && m.pending[k].phase.AwaitingBundle? && k == m.openSeq
    case OpenFailed(_) => false
  }

  lemma NextEpoch(m: Runtime, e: Event)
    ensures Next(m, e).state.conversationEpoch == m.state.conversationEpoch + (if Switches(m, e) then 1 else 0)
  {
    hide Reduce;
    match e
    case Frame(a) => EpochCountsSwitches(m.state, a);
    case ChatStart(id) => EpochCountsSwitches(m.state, SetSessionId(Some(id)));
    case Local(a) => EpochCountsSwitches(m.state, a);
    case Open(target) =>
      var c := CurrentCached(m.(openSeq := m.openSeq + 1), target);
      if target in c.cache { EpochCountsSwitches(m.state, RestoreSessionRuntime(c.cache[target])); }
    case Detail(k) =>
    case Commit(k, d) =>
      if k in m.pending {
        EpochCountsSwitches(m.state, RestoreSessionRuntime(RestoredRuntime(m.state, m.pending[k].target, d)));
      }
    case OpenFailed(k) =>
  }

  /**
   In every reachable state and cached snapshot the delivery belongs to the current run
   and full screen implies open; the epoch never decreases, and grows on every switch.
   */
  lemma {:induction false} ReachableInvariants(m: Runtime, es: seq<Event>)
    requires AllSound(m) && forall e | e in es :: Ordinary(e)
    ensures AllSound(Run(m, es))
    ensures Run(m, es).state.conversationEpoch >= m.state.conversationEpoch
    ensures forall i | 0 <= i < |es| && Switches(Run(m, es[..i]), es[i]) ::
              Run(m, es).state.conversationEpoch > Run(m, es[..i]).state.conversationEpoch
  {
    hide Next, Switches;
    if es != [] {
      var n := |es| - 1;
      ReachableInvariants(m, es[..n]);
      NextSound(Run(m, es[..n]), es[n]);
      NextEpoch(Run(m, es[..n]), es[n]);
      forall i | 0 <= i < n && Switches(Run(m, es[..i]), es[i])
        ensures Run(m, es).state.conversationEpoch > Run(m, es[..i]).state.conversationEpoch
      {
        assert es[..n][..i] == es[..i];
      }
    }
  }
}
