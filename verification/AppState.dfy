/**
 The client state and its reducer (AppContext.tsx).  Clock readings and fresh
 identifiers travel inside the actions; values the reducer only stores are Opaque.
 */
module AppState {
  import opened Options

  type Opaque = string
  type Time = int

  datatype View = Chat | KnowledgeBase | Presets | UserPreferences
  datatype RunSource = NoSource | Live
  datatype LoadStatus = Idle | Loading | Ready | Failed
  datatype LoadState = LoadState(status: LoadStatus, message: Option<string>)
  datatype Deliverable = InteractiveItinerary | FullReport
  datatype InputMode = NormalInput | StoppedInput
  datatype Paging = Paging(nextBefore: Option<string>, hasMore: bool, loading: bool)
  datatype Session = Session(id: string, title: string, rest: Opaque)
  datatype Gate = Gate(body: Opaque, cancelled: bool)

  datatype Manifest = Manifest(
    runId: string, bundleId: string,
    workspaceRevision: int, factRevision: int, weatherRevision: int, rest: Opaque)
  datatype Bundle = Bundle(manifest: Manifest, body: Opaque)

  datatype ToolStatus = Running | Completed | ToolFailed | Degraded | CapabilityDeclared

  datatype Step = Step(
    id: string, agentName: string, content: string, stepName: string, timestamp: Time,
    endTime: Option<Time>, tsMs: Option<int>, serverDurationMs: Option<int>,
    isToolCall: bool, toolName: Option<string>, toolCallId: Option<string>, toolStatus: Option<ToolStatus>,
    toolArgs: Option<string>, toolResult: Option<string>, toolCategory: Option<string>, fromCache: Option<bool>,
    toolDegraded: Option<bool>, fallbackFrom: Option<string>, fallbackTo: Option<string>)

  datatype Role = User | Assistant | System
  datatype Kind = Normal | Thinking | Error | GuardBlocked | WaitingApproval | Interrupted | ContextCompaction

  datatype Message = Message(
    id: string, role: Role, content: string, displayContent: string, kind: Option<Kind>,
    thinkingSteps: Option<seq<Step>>, pendingStatusText: Option<string>, streamCompleted: bool, rest: Opaque)

  /** A partial message: the fields to overwrite. */
  datatype Patch = Patch(
    content: Option<string>, displayContent: Option<string>, kind: Option<Option<Kind>>,
    pendingStatusText: Option<Option<string>>, streamCompleted: Option<bool>, rest: Option<Opaque>)

  datatype Usage = Usage(
    runId: string, inputTokens: Option<int>, outputTokens: Option<int>, totalTokens: Option<int>,
    costUsd: Option<real>, estimated: bool, node: Option<string>, agent: Option<string>)

  datatype CostLive = CostLive(
    runId: string, callCount: int, totalInputTokens: int, totalOutputTokens: int, totalTokens: int,
    totalCostUsd: real, costKnown: bool, estimatedCount: int, lastNode: Option<string>, lastAgent: Option<string>)

  datatype ToolUpdate = ToolUpdate(
    toolCallId: Option<string>, agentName: Option<string>, toolName: Option<string>, toolResult: Option<string>,
    toolStatus: Option<ToolStatus>, toolCategory: Option<string>, fromCache: Option<bool>,
    serverDurationMs: Option<int>, toolDegraded: Option<bool>, fallbackFrom: Option<string>,
    fallbackTo: Option<string>, now: Time)

  /** What belongs to no session: navigation, the session list, the preset, the display form. */
  datatype Shell = Shell(
    activeView: View, sidebarCollapsed: bool, sessions: seq<Session>, deliverableView: Deliverable,
    activePresetId: Option<string>, activePresetName: Option<string>, boardingPassFlash: int)

  /** What belongs to the session on screen; a snapshot keeps exactly these and the epoch. */
  datatype Facts = Facts(
    currentSessionId: Option<string>, currentTripRunId: Option<string>, currentTripRunStatus: Option<string>,
    currentTripRunRecovery: Option<Opaque>, tripRunSource: RunSource, tripRunRefreshKey: int,
    currentMessages: seq<Message>, historyPaging: Paging, thinkingSteps: seq<Step>, deliveryBundle: Option<Bundle>,
    deliveryBundleLoadState: LoadState, tripSummaryCard: Option<Opaque>, planApprovalGate: Option<Gate>,
    pendingGuidedIntake: Option<Opaque>, pendingRouteConfirmation: Option<Opaque>, lastRouteDecision: Option<Opaque>,
    controlledTripIdentity: Option<Opaque>, runCostLive: Option<CostLive>, runCostSummary: Option<Opaque>,
    isStreaming: bool, isSynthesizing: bool, splitViewActive: bool, canvasOpen: bool, canvasFullscreen: bool,
    mobileCanvasOpen: bool, activeDayIndex: Option<int>, activeItemId: Option<string>, activePlaceId: Option<string>,
    inputMode: InputMode)

  datatype State = State(shell: Shell, conversationEpoch: int, facts: Facts)

  datatype Snapshot = Snapshot(conversationEpoch: int, facts: Facts)

  datatype Action =
    | SetActiveView(view: View)
    | ToggleSidebar
    | SetSidebarCollapsed(collapsed: bool)
    | SetSessionId(session: Option<string>)
    | SetCurrentTripRun(runId: Option<string>, source: Option<RunSource>, runStatus: Option<Option<string>>)
    | SetTripRunStatus(status: Option<string>)
    | ConfirmDeliveryBundle(bundle: Bundle)
    | SetDeliveryBundleLoadState(load: LoadState)
    | SetDeliverableView(deliverable: Deliverable)
    | BumpTripRunRefresh
    | SetSessions(sessions: seq<Session>)
    | AddSession(added: Session)
    | RemoveSession(removed: string)
    | RenameSession(renamed: string, title: string)
    | SetMessages(messages: seq<Message>)
    | RestoreSessionRuntime(snapshot: Snapshot)
    | SetHistoryPagingLoading(loading: bool)
    | PrependHistory(earlier: seq<Message>, nextBefore: Option<string>, hasMore: bool)
    | AddMessage(message: Message)
    | InsertMessageBeforeId(inserted: Message, beforeId: string)
    | UpdateLastMessage(patch: Patch)
    | ResolveWaitingMessages
    | UpdateMessageById(id: string, change: Patch)
    | RemapMessageId(fromId: string, toId: string)
    | SetThinkingSteps(steps: seq<Step>)
    | AddThinkingStep(step: Step)
    | FinishLastThinkingStep(endTime: Time, nextTsMs: Option<int>)
    | AppendThinkingContent(agentName: string, content: string, freshId: string, now: Time)
    | UpdateLastToolStep(update: ToolUpdate)
    | SetTripSummaryCard(card: Option<Opaque>)
    | SetPlanApprovalGate(gate: Option<Gate>)
    | SetGuidedIntake(intake: Option<Opaque>)
    | SetRouteConfirmation(confirmation: Option<Opaque>)
    | SetLastRouteDecision(decision: Option<Opaque>)
    | SetControlledTripIdentity(identity: Option<Opaque>)
    | UsageUpdate(usage: Usage)
    | SetRunCostSummary(summary: Option<Opaque>)
    | ClearTrace
    | SetStreaming(streaming: bool)
    | SetSynthesizing(synthesizing: bool)
    | SetSplitView(split: bool)
    | SetCanvasOpen(open: bool)
    | SetCanvasFullscreen(fullscreen: bool)
    | SetMobileCanvasOpen(mobile: bool)
    | SetActiveDay(day: Option<int>)
    | SetActiveItem(item: Option<string>)
    | SetActivePlace(place: Option<string>)
    | SetInputMode(mode: InputMode)
    | MarkPendingDecisionsCancelled
    | RemoveMessageById(removedMessage: string)
    | SetActivePreset(preset: Option<(string, string)>)
    | FlashBoardingPass
    | ClearChat

  const IDLE := LoadState(Idle, None)
  const NO_PAGING := Paging(None, false, false)
  const THINKING_STEP_NAME := "推理中"

  function Or<T>(a: Option<T>, b: T): T {
    if a.Some? then a.value else b
  }

  function First<T>(a: Option<T>, b: Option<T>): Option<T> {
    if a.Some? then a else b
  }

  /* Lists edited by identifier. */

  function WithoutSession(xs: seq<Session>, id: string): seq<Session> {
    if xs == [] then [] else (if xs[0].id != id then [xs[0]] else []) + WithoutSession(xs[1..], id)
  }

  function Renamed(xs: seq<Session>, id: string, title: string): seq<Session> {
    if xs == [] then []
    else [if xs[0].id == id then xs[0].(title := title) else xs[0]] + Renamed(xs[1..], id, title)
  }

  function WithoutMessage(xs: seq<Message>, id: string): seq<Message> {
    if xs == [] then [] else (if xs[0].id != id then [xs[0]] else []) + WithoutMessage(xs[1..], id)
  }

  function PatchedById(xs: seq<Message>, id: string, p: Patch): seq<Message> {
    if xs == [] then []
    else [if xs[0].id == id then Patched(xs[0], p) else xs[0]] + PatchedById(xs[1..], id, p)
  }

  function Remapped(xs: seq<Message>, fromId: string, toId: string): seq<Message> {
    if xs == [] then []
    else [if xs[0].id == fromId then xs[0].(id := toId) else xs[0]] + Remapped(xs[1..], fromId, toId)
  }

  function AllSettled(xs: seq<Message>): seq<Message> {
    if xs == [] then [] else [Settled(xs[0])] + AllSettled(xs[1..])
  }

  function AllResolved(xs: seq<Message>): seq<Message> {
    if xs == [] then [] else [Resolved(xs[0])] + AllResolved(xs[1..])
  }

  /** Index of the message with this id, or |xs|. */
  function MessageIndex(xs: seq<Message>, id: string): (k: nat)
    ensures k <= |xs|
  {
    if xs == [] || xs[0].id == id then 0 else 1 + MessageIndex(xs[1..], id)
  }

  /* ----- Pieces of the reducer ----- */

  /** May a candidate bundle replace the one on screen? */
  function CanConfirm(current: Option<Bundle>, candidate: Bundle): bool {
    if current.None? || current.value.manifest.runId != candidate.manifest.runId then true
    else if current.value.manifest.bundleId == candidate.manifest.bundleId then true
    else
      var a, b := current.value.manifest, candidate.manifest;
      if b.workspaceRevision < a.workspaceRevision || b.factRevision < a.factRevision
         || b.weatherRevision < a.weatherRevision
      then false
      else
        b.workspaceRevision > a.workspaceRevision || b.factRevision > a.factRevision
        || b.weatherRevision > a.weatherRevision
  }

  function Patched(m: Message, p: Patch): Message {
    m.(content := Or(p.content, m.content),
       displayContent := Or(p.displayContent, m.displayContent),
       kind := Or(p.kind, m.kind),
       pendingStatusText := Or(p.pendingStatusText, m.pendingStatusText),
       streamCompleted := Or(p.streamCompleted, m.streamCompleted),
       rest := Or(p.rest, m.rest))
  }

  /** A waiting bubble becomes a finished ordinary message. */
  function Settled(m: Message): Message {
    if m.kind == Some(WaitingApproval) then m.(kind := Some(Normal), streamCompleted := true) else m
  }

  function Resolved(m: Message): Message {
    if m.kind == Some(WaitingApproval) then m.(kind := Some(Normal)) else m
  }

  /** The last message, when it is the assistant's, mirrors the thinking steps. */
  function Mirrored(msgs: seq<Message>, steps: seq<Step>, onlyIfPresent: bool): seq<Message> {
    if msgs == [] then msgs
    else
      var last := msgs[|msgs| - 1];
      if last.role.Assistant? && (onlyIfPresent ==> last.thinkingSteps.Some?)
      then msgs[|msgs| - 1 := last.(thinkingSteps := Some(steps))]
      else msgs
  }

  function Finished(step: Step, endTime: Time, nextTsMs: Option<int>): Step {
    var duration :=
      if !step.isToolCall && step.serverDurationMs.None? && nextTsMs.Some? && step.tsMs.Some?
         && nextTsMs.value >= step.tsMs.value
      then Some(nextTsMs.value - step.tsMs.value)
      else step.serverDurationMs;
    step.(endTime := Some(Or(step.endTime, endTime)), serverDurationMs := duration)
  }

  function WithLastStepFinished(f: Facts, endTime: Time, nextTsMs: Option<int>): Facts {
    if f.thinkingSteps == [] then f
    else
      var k := |f.thinkingSteps| - 1;
      var steps := f.thinkingSteps[k := Finished(f.thinkingSteps[k], endTime, nextTsMs)];
      f.(thinkingSteps := steps, currentMessages := Mirrored(f.currentMessages, steps, true))
  }

  function FreshStep(agentName: string, content: string, freshId: string, now: Time): Step {
    Step(freshId, agentName, content, THINKING_STEP_NAME, now, None, None, None, false,
         None, None, None, None, None, None, None, None, None, None)
  }

  predicate NamedBy(step: Step, id: string) {
    step.toolCallId == Some(id) || step.id == id
  }

  predicate RunningMatch(step: Step, u: ToolUpdate) {
    && step.isToolCall && step.toolStatus == Some(Running)
    && (!Truthy(u.agentName) || Some(step.agentName) == u.agentName)
    && (!Truthy(u.toolName) || step.toolName == u.toolName)
  }

  /** Index of the first step carrying a call id, or |steps|. */
  function StepNamed(steps: seq<Step>, id: string): (k: nat)
    ensures k <= |steps| && (k < |steps| ==> NamedBy(steps[k], id)) && forall i | 0 <= i < k :: !NamedBy(steps[i], id)
  {
    if steps == [] || NamedBy(steps[0], id) then 0 else 1 + StepNamed(steps[1..], id)
  }

  /** Index of the last running step an update without a known call id matches, or -1. */
  function LastRunning(steps: seq<Step>, u: ToolUpdate): (k: int)
    ensures -1 <= k < |steps| && (k >= 0 ==> RunningMatch(steps[k], u))
    ensures forall i | k < i < |steps| :: !RunningMatch(steps[i], u)
  {
    if steps == [] then -1
    else if RunningMatch(steps[|steps| - 1], u) then |steps| - 1
    else LastRunning(steps[..|steps| - 1], u)
  }

  /** Which step a tool result belongs to: by call id, else the last running match, else the last step. */
  function TargetStep(steps: seq<Step>, u: ToolUpdate): (k: nat)
    requires steps != []
    ensures k < |steps|
  {
    var byId := if Truthy(u.toolCallId) then StepNamed(steps, u.toolCallId.value) else |steps|;
    if byId < |steps| then byId
    else if LastRunning(steps, u) >= 0 then LastRunning(steps, u)
    else |steps| - 1
  }

  function ToolDone(step: Step, u: ToolUpdate): Step {
    step.(endTime := Some(u.now),
          toolCallId := First(u.toolCallId, step.toolCallId),
          toolStatus := Some(Or(u.toolStatus, Completed)),
          toolResult := u.toolResult,
          toolCategory := First(u.toolCategory, step.toolCategory),
          fromCache := First(u.fromCache, step.fromCache),
          serverDurationMs := First(u.serverDurationMs, step.serverDurationMs),
          toolDegraded := First(u.toolDegraded, step.toolDegraded),
          fallbackFrom := First(u.fallbackFrom, step.fallbackFrom),
          fallbackTo := First(u.fallbackTo, step.fallbackTo))
  }

  function WithToolResult(f: Facts, u: ToolUpdate): Facts {
    if f.thinkingSteps == [] then f
    else
      var k := TargetStep(f.thinkingSteps, u);
      if !f.thinkingSteps[k].isToolCall then f
      else
        var steps := f.thinkingSteps[k := ToolDone(f.thinkingSteps[k], u)];
        f.(thinkingSteps := steps, currentMessages := Mirrored(f.currentMessages, steps, true))
  }

  function WithThinkingContent(f: Facts, agentName: string, content: string, freshId: string, now: Time): Facts {
    if f.thinkingSteps == [] then
      var steps := [FreshStep(agentName, content, freshId, now)];
      f.(thinkingSteps := steps, currentMessages := Mirrored(f.currentMessages, steps, false))
    else
      var k := |f.thinkingSteps| - 1;
      var last := f.thinkingSteps[k];
      if last.isToolCall then f
      else
        var steps := f.thinkingSteps[
          k := last.(agentName := agentName, content := last.content + content, stepName := THINKING_STEP_NAME)];
        f.(thinkingSteps := steps, currentMessages := Mirrored(f.currentMessages, steps, true))
  }

  function WithUsage(live: Option<CostLive>, u: Usage): CostLive {
    var prev := if live.Some? && live.value.runId == u.runId then live else None;
    var input, output := Or(u.inputTokens, 0), Or(u.outputTokens, 0);
    var base := if prev.Some? then prev.value else CostLive(u.runId, 0, 0, 0, 0, 0.0, false, 0, None, None);
    CostLive(
      u.runId, base.callCount + 1, base.totalInputTokens + input, base.totalOutputTokens + output,
      base.totalTokens + Or(u.totalTokens, input + output), base.totalCostUsd + Or(u.costUsd, 0.0),
      base.costKnown || u.costUsd.Some?, base.estimatedCount + (if u.estimated then 1 else 0),
      First(u.node, base.lastNode), First(u.agent, base.lastAgent))
  }

  function LastPatched(msgs: seq<Message>, p: Patch): seq<Message> {
    if msgs == [] then msgs else msgs[|msgs| - 1 := Patched(msgs[|msgs| - 1], p)]
  }

  function Inserted(msgs: seq<Message>, m: Message, beforeId: string): seq<Message> {
    if exists x | x in msgs :: x.id == m.id then msgs
    else
      var k := MessageIndex(msgs, beforeId);
      msgs[..k] + [m] + msgs[k..]
  }

  /* ----- Snapshots ----- */

  function SnapshotOf(s: State): Snapshot {
    Snapshot(s.conversationEpoch, s.facts)
  }

  /** The state with every session field taken from a snapshot. */
  function Overlay(s: State, c: Snapshot): State {
    State(s.shell, c.conversationEpoch, c.facts)
  }

  /* ----- The reducer ----- */

  function ClearedFacts(f: Facts): Facts {
    Facts(
      currentSessionId := None, currentTripRunId := None, currentTripRunStatus := None,
      currentTripRunRecovery := None, tripRunSource := NoSource, tripRunRefreshKey := f.tripRunRefreshKey + 1,
      currentMessages := [], historyPaging := NO_PAGING, thinkingSteps := [], deliveryBundle := None,
      deliveryBundleLoadState := IDLE, tripSummaryCard := None, planApprovalGate := None,
      pendingGuidedIntake := None, pendingRouteConfirmation := None, lastRouteDecision := None,
      controlledTripIdentity := None, runCostLive := None, runCostSummary := None, isStreaming := false,
      isSynthesizing := false, splitViewActive := false, canvasOpen := false, canvasFullscreen := false,
      mobileCanvasOpen := false, activeDayIndex := None, activeItemId := None, activePlaceId := None,
      inputMode := NormalInput)
  }

  function WithTripRun(s: State, runId: Option<string>, source: Option<RunSource>,
                       status: Option<Option<string>>): State {
    var f := s.facts;
    var different := runId != f.currentTripRunId;
    s.(facts := f.(
         currentTripRunId := runId,
         currentTripRunStatus :=
           if status.Some? then status.value else if different then None else f.currentTripRunStatus,
         currentTripRunRecovery := if different then None else f.currentTripRunRecovery,
         tripRunSource := Or(source, if Truthy(runId) then f.tripRunSource else NoSource),
         tripSummaryCard := if different then None else f.tripSummaryCard,
         deliveryBundle := if different then None else f.deliveryBundle,
         deliveryBundleLoadState := if different then IDLE else f.deliveryBundleLoadState),
       shell := if different then s.shell.(deliverableView := InteractiveItinerary) else s.shell)
  }

  function WithRunStatus(f: Facts, status: Option<string>): Facts {
    var waiting := status == Some("awaiting_input");
    f.(currentTripRunStatus := status,
       currentTripRunRecovery := if status == Some("running") then None else f.currentTripRunRecovery,
       currentMessages := if waiting then f.currentMessages else AllSettled(f.currentMessages),
       planApprovalGate := if waiting then f.planApprovalGate else None,
       inputMode := NormalInput)
  }

  function WithBundle(s: State, b: Bundle): State {
    if !CanConfirm(s.facts.deliveryBundle, b) then s
    else
      s.(facts := s.facts.(
           currentTripRunId := Some(b.manifest.runId), tripRunSource := Live, deliveryBundle := Some(b),
           deliveryBundleLoadState := LoadState(Ready, None), splitViewActive := true, canvasOpen := true,
           canvasFullscreen := false, mobileCanvasOpen := false),
         shell := s.shell.(deliverableView := InteractiveItinerary, sidebarCollapsed := true))
  }

  predicate IsShell(action: Action) {
    action.SetActiveView? || action.ToggleSidebar? || action.SetSidebarCollapsed?
    || action.SetDeliverableView? || action.SetSessions? || action.AddSession? || action.RemoveSession?
    || action.RenameSession? || action.SetActivePreset? || action.FlashBoardingPass?
  }

  predicate IsThread(action: Action) {
    action.SetSessionId? || action.SetMessages? || action.RestoreSessionRuntime? || action.ClearChat?
  }

  predicate IsRun(action: Action) {
    action.SetCurrentTripRun? || action.SetTripRunStatus? || action.ConfirmDeliveryBundle?
    || action.SetDeliveryBundleLoadState? || action.BumpTripRunRefresh? || action.SetTripSummaryCard?
    || action.SetPlanApprovalGate? || action.UsageUpdate? || action.SetRunCostSummary? || action.ClearTrace?
  }

  predicate IsMessages(action: Action) {
    action.SetHistoryPagingLoading? || action.PrependHistory? || action.AddMessage?
    || action.InsertMessageBeforeId? || action.UpdateLastMessage? || action.ResolveWaitingMessages?
    || action.UpdateMessageById? || action.RemapMessageId? || action.MarkPendingDecisionsCancelled?
    || action.RemoveMessageById?
  }

  predicate IsSteps(action: Action) {
    action.SetThinkingSteps? || action.AddThinkingStep? || action.FinishLastThinkingStep?
    || action.AppendThinkingContent? || action.UpdateLastToolStep?
  }

  predicate IsChoices(action: Action) {
    action.SetGuidedIntake? || action.SetRouteConfirmation? || action.SetLastRouteDecision?
    || action.SetControlledTripIdentity? || action.SetStreaming? || action.SetSynthesizing?
    || action.SetInputMode?
  }

  /** Navigation, the session list and other state that belongs to no session. */
  function ReduceShell(s: State, action: Action): State {
    var f, h := s.facts, s.shell;
    match action
    case SetActiveView(v) =>
      s.(shell := h.(activeView := v), facts := f.(splitViewActive := if v.Chat? then f.splitViewActive else false))
    case ToggleSidebar => s.(shell := h.(sidebarCollapsed := !h.sidebarCollapsed))
    case SetSidebarCollapsed(c) => s.(shell := h.(sidebarCollapsed := c))
    case SetDeliverableView(d) => s.(shell := h.(deliverableView := d))
    case SetSessions(list) => s.(shell := h.(sessions := list))
    case AddSession(x) => s.(shell := h.(sessions := [x] + h.sessions))
    case RemoveSession(id) => s.(shell := h.(sessions := WithoutSession(h.sessions, id)))
    case RenameSession(id, title) => s.(shell := h.(sessions := Renamed(h.sessions, id, title)))
    case SetActivePreset(p) =>
      s.(shell := h.(activePresetId := if p.Some? then Some(p.value.0) else None,
                     activePresetName := if p.Some? then Some(p.value.1) else None))
    case FlashBoardingPass => s.(shell := h.(boardingPassFlash := h.boardingPassFlash + 1))
    case _ => s
  }

  /** Which session is shown. */
  function ReduceThread(s: State, action: Action): State {
    var f, h := s.facts, s.shell;
    match action
    case SetSessionId(id) => s.(facts := f.(currentSessionId := id))
    case SetMessages(list) =>
      if f.currentMessages == [] && list == [] then s
      else State(h, s.conversationEpoch + 1, f.(currentMessages := list, tripSummaryCard := None))
    case RestoreSessionRuntime(c) =>
      Overlay(s, c).(shell := h.(deliverableView := InteractiveItinerary), conversationEpoch := s.conversationEpoch + 1)
    case ClearChat =>
      State(h.(deliverableView := InteractiveItinerary), s.conversationEpoch + 1, ClearedFacts(f))
    case _ => s
  }

  /** The run, its delivery, its gate and its cost. */
  function ReduceRun(s: State, action: Action): State {
    var f := s.facts;
    match action
    case SetCurrentTripRun(runId, source, status) => WithTripRun(s, runId, source, status)
    case SetTripRunStatus(status) => s.(facts := WithRunStatus(f, status))
    case ConfirmDeliveryBundle(b) => WithBundle(s, b)
    case SetDeliveryBundleLoadState(l) => s.(facts := f.(deliveryBundleLoadState := l))
    case BumpTripRunRefresh => s.(facts := f.(tripRunRefreshKey := f.tripRunRefreshKey + 1))
    case SetTripSummaryCard(c) => s.(facts := f.(tripSummaryCard := c))
    case SetPlanApprovalGate(g) => s.(facts := f.(planApprovalGate := g))
    case UsageUpdate(u) => s.(facts := f.(runCostLive := Some(WithUsage(f.runCostLive, u))))
    case SetRunCostSummary(c) => s.(facts := f.(runCostSummary := c))
    case ClearTrace =>
      s.(facts := f.(tripSummaryCard := None, planApprovalGate := None, runCostLive := None, runCostSummary := None))
    case _ => s
  }

  /** The conversation. */
  function ReduceMessages(s: State, action: Action): State {
    var f := s.facts;
    match action
    case SetHistoryPagingLoading(l) => s.(facts := f.(historyPaging := f.historyPaging.(loading := l)))
    case PrependHistory(earlier, nextBefore, hasMore) =>
      s.(facts := f.(currentMessages := earlier + f.currentMessages,
                     historyPaging := Paging(nextBefore, hasMore, false)))
    case AddMessage(m) => s.(facts := f.(currentMessages := f.currentMessages + [m]))
    case InsertMessageBeforeId(m, beforeId) =>
      s.(facts := f.(currentMessages := Inserted(f.currentMessages, m, beforeId)))
    case UpdateLastMessage(p) => s.(facts := f.(currentMessages := LastPatched(f.currentMessages, p)))
    case ResolveWaitingMessages => s.(facts := f.(currentMessages := AllResolved(f.currentMessages)))
    case UpdateMessageById(id, p) => s.(facts := f.(currentMessages := PatchedById(f.currentMessages, id, p)))
    case RemapMessageId(a, b) => s.(facts := f.(currentMessages := Remapped(f.currentMessages, a, b)))
    case MarkPendingDecisionsCancelled =>
      s.(facts := f.(
           currentMessages := AllSettled(f.currentMessages),
           planApprovalGate :=
             if f.planApprovalGate.Some? then Some(f.planApprovalGate.value.(cancelled := true)) else None,
           inputMode := NormalInput))
    case RemoveMessageById(id) => s.(facts := f.(currentMessages := WithoutMessage(f.currentMessages, id)))
    case _ => s
  }

  /** The thinking steps. */
  function ReduceSteps(s: State, action: Action): State {
    var f := s.facts;
    match action
    case SetThinkingSteps(steps) => s.(facts := f.(thinkingSteps := steps))
    case AddThinkingStep(step) =>
      var steps := f.thinkingSteps + [step];
      s.(facts := f.(thinkingSteps := steps, currentMessages := Mirrored(f.currentMessages, steps, false)))
    case FinishLastThinkingStep(endTime, next) => s.(facts := WithLastStepFinished(f, endTime, next))
    case AppendThinkingContent(agent, text, freshId, now) =>
      s.(facts := WithThinkingContent(f, agent, text, freshId, now))
    case UpdateLastToolStep(u) => s.(facts := WithToolResult(f, u))
    case _ => s
  }

  /** Pending choices, streaming flags and the input. */
  function ReduceChoices(s: State, action: Action): State {
    var f := s.facts;
    match action
    case SetGuidedIntake(g) => s.(facts := f.(pendingGuidedIntake := g))
    case SetRouteConfirmation(c) => s.(facts := f.(pendingRouteConfirmation := c))
    case SetLastRouteDecision(d) => s.(facts := f.(lastRouteDecision := d))
    case SetControlledTripIdentity(i) => s.(facts := f.(controlledTripIdentity := i))
    case SetStreaming(b) => s.(facts := f.(isStreaming := b, isSynthesizing := if b then f.isSynthesizing else false))
    case SetSynthesizing(b) => s.(facts := f.(isSynthesizing := b))
    case SetInputMode(mode) => s.(facts := f.(inputMode := mode))
    case _ => s
  }

  /** The canvas and the selection on it. */
  function ReduceCanvas(s: State, action: Action): State {
    var f := s.facts;
    match action
    case SetSplitView(b) => s.(facts := f.(splitViewActive := b))
    case SetCanvasOpen(b) =>
      s.(facts := f.(canvasOpen := b, canvasFullscreen := if b then f.canvasFullscreen else false))
    case SetCanvasFullscreen(b) =>
      s.(facts := f.(canvasFullscreen := b, canvasOpen := if b then true else f.canvasOpen))
    case SetMobileCanvasOpen(b) => s.(facts := f.(mobileCanvasOpen := b))
    case SetActiveDay(d) => s.(facts := f.(activeDayIndex := d, activeItemId := None, activePlaceId := None))
    case SetActiveItem(i) => s.(facts := f.(activeItemId := i))
    case SetActivePlace(p) => s.(facts := f.(activePlaceId := p))
    case _ => s
  }

  function Reduce(s: State, action: Action): State {
    if IsShell(action) then ReduceShell(s, action)
    else if IsThread(action) then ReduceThread(s, action)
    else if IsRun(action) then ReduceRun(s, action)
    else if IsMessages(action) then ReduceMessages(s, action)
    else if IsSteps(action) then ReduceSteps(s, action)
    else if IsChoices(action) then ReduceChoices(s, action)
    else ReduceCanvas(s, action)
  }

  /** A list of actions taken one after another. */
  function ReduceAll(s: State, actions: seq<Action>): State {
    if actions == [] then s
    else Reduce(ReduceAll(s, actions[..|actions| - 1]), actions[|actions| - 1])
  }
}
