/** What the actions of the reducer do, field by field, and what they leave alone. */
module ReducerEffects {
  import opened Options
  import opened AppState
  import opened ReducerLaws

  /* ----- Switching the run ----- */

  /**
   Switching to another run drops what belonged to the last one; naming the current run again keeps it.  The status is
   the one given, if any.
   */
  lemma RunSwitch(s: State, runId: Option<string>, source: Option<RunSource>, status: Option<Option<string>>)
    ensures var f, r := s.facts, Reduce(s, SetCurrentTripRun(runId, source, status));
            var g := r.facts;
            && g.currentTripRunId == runId
            && (status.Some? ==> Some(g.currentTripRunStatus) == status)
            && (runId == f.currentTripRunId ==>
                  && (status.None? ==> g.currentTripRunStatus == f.currentTripRunStatus)
                  && g.currentTripRunRecovery == f.currentTripRunRecovery && g.tripSummaryCard == f.tripSummaryCard
                  && g.deliveryBundle == f.deliveryBundle && g.deliveryBundleLoadState == f.deliveryBundleLoadState
                  && r.shell == s.shell)
            && (runId != f.currentTripRunId ==>
                  && (status.None? ==> g.currentTripRunStatus == None) && g.currentTripRunRecovery == None
                  && g.tripSummaryCard == None && g.deliveryBundle == None
                  && g.deliveryBundleLoadState == LoadState(Idle, None)
                  && r.shell.deliverableView == InteractiveItinerary)
            && (source.Some? ==> g.tripRunSource == source.value)
            && (source.None? && (runId == None || runId == Some("")) ==> g.tripRunSource.NoSource?)
            && (source.None? && runId.Some? && runId.value != "" ==> g.tripRunSource == f.tripRunSource)
            && r == s.(shell := s.shell.(deliverableView := r.shell.deliverableView),
                       facts := f.(currentTripRunId := g.currentTripRunId, tripRunSource := g.tripRunSource,
                                   currentTripRunStatus := g.currentTripRunStatus,
                                   currentTripRunRecovery := g.currentTripRunRecovery,
                                   tripSummaryCard := g.tripSummaryCard, deliveryBundle := g.deliveryBundle,
                                   deliveryBundleLoadState := g.deliveryBundleLoadState))
  {
    hide ReduceShell, ReduceThread, ReduceMessages, ReduceSteps, ReduceChoices, ReduceCanvas;
  }

  /**
   Once a run no longer waits for the user, no message waits for an approval and no gate is open; a run that goes on
   again has nothing to recover from.
   */
  lemma RunStatus(s: State, status: Option<string>)
    ensures var r := Reduce(s, SetTripRunStatus(status));
            var f, g := s.facts, r.facts;
            && r == s.(facts := f.(currentTripRunStatus := status, currentTripRunRecovery := g.currentTripRunRecovery,
                                   currentMessages := g.currentMessages, planApprovalGate := g.planApprovalGate,
                                   inputMode := NormalInput))
            && g.currentTripRunStatus == status && g.inputMode == NormalInput
            && (status == Some("awaiting_input") ==>
                  g.currentMessages == f.currentMessages && g.planApprovalGate == f.planApprovalGate)
            && (status != Some("awaiting_input") ==>
                  NoneWaits(f.currentMessages, g.currentMessages, true) && g.planApprovalGate == None)
            && g.currentTripRunRecovery == (if status == Some("running") then None else f.currentTripRunRecovery)
  {
    hide ReduceShell, ReduceThread, ReduceMessages, ReduceSteps, ReduceChoices, ReduceCanvas, AllSettled,
      NoneWaits;
    SettledMeans(s.facts.currentMessages);
  }

  /** The waiting messages have become ordinary, and finished ones too if so; all others are as they were. */
  ghost predicate NoneWaits(before: seq<Message>, after: seq<Message>, finished: bool) {
    && |after| == |before|
    && forall i | 0 <= i < |before| ::
         if before[i].kind == Some(WaitingApproval) then
           after[i] == if finished then before[i].(kind := Some(Normal), streamCompleted := true)
                       else before[i].(kind := Some(Normal))
         else after[i] == before[i]
  }

  lemma {:induction false} SettledMeans(xs: seq<Message>)
    ensures NoneWaits(xs, AllSettled(xs), true) && NoneWaits(xs, AllResolved(xs), false)
  {
    if xs != [] {
      SettledMeans(xs[1..]);
    }
  }

  /** An offered delivery is shown exactly when nothing of its run is, or the same bundle is, or it is ahead of that. */
  lemma ConfirmMeans(s: State, b: Bundle)
    ensures var shown, r := s.facts.deliveryBundle, Reduce(s, ConfirmDeliveryBundle(b));
            var taken := shown.None? || shown.value.manifest.runId != b.manifest.runId
              || shown.value.manifest.bundleId == b.manifest.bundleId || Ahead(b.manifest, shown.value.manifest);
            && (!taken ==> r == s)
            && (taken ==>
                  && r.facts.deliveryBundle == Some(b) && r.facts.currentTripRunId == Some(b.manifest.runId)
                  && r.facts.tripRunSource.Live? && r.facts.deliveryBundleLoadState == LoadState(Ready, None)
                  && r.facts.splitViewActive && r.facts.canvasOpen && !r.facts.canvasFullscreen
                  && !r.facts.mobileCanvasOpen
                  && r == State(s.shell.(sidebarCollapsed := true, deliverableView := InteractiveItinerary),
                                s.conversationEpoch,
                                s.facts.(currentTripRunId := r.facts.currentTripRunId, tripRunSource := Live,
                                         deliveryBundle := Some(b),
                                         deliveryBundleLoadState := r.facts.deliveryBundleLoadState,
                                         splitViewActive := true, canvasOpen := true, canvasFullscreen := false,
                                         mobileCanvasOpen := false)))
  {
    hide ReduceShell, ReduceThread, ReduceMessages, ReduceSteps, ReduceChoices, ReduceCanvas;
  }

  /* ----- The thread ----- */

  /** Where a message of this id stands first. */
  ghost predicate StandsFirst(xs: seq<Message>, id: string, k: nat) {
    k < |xs| && xs[k].id == id && forall i | 0 <= i < k :: xs[i].id != id
  }

  lemma {:induction false} IndexMeans(xs: seq<Message>, id: string)
    ensures MessageIndex(xs, id) < |xs| ==> StandsFirst(xs, id, MessageIndex(xs, id))
    ensures MessageIndex(xs, id) == |xs| ==> forall x | x in xs :: x.id != id
  {
    if xs != [] && xs[0].id != id {
      IndexMeans(xs[1..], id);
    }
  }

  /**
   An inserted message stands right before the first message of the given id, or at the end if there is none; one whose
   id is already there is not inserted, so inserting it twice is inserting it once.
   */
  lemma InsertMeans(s: State, m: Message, beforeId: string)
    ensures var xs, r := s.facts.currentMessages, Reduce(s, InsertMessageBeforeId(m, beforeId));
            var ys := r.facts.currentMessages;
            && ((exists x | x in xs :: x.id == m.id) ==> ys == xs)
            && ((forall x | x in xs :: x.id != m.id) ==>
                  && (forall k: nat | StandsFirst(xs, beforeId, k) :: ys == xs[..k] + ([m] + xs[k..]))
                  && ((forall x | x in xs :: x.id != beforeId) ==> ys == xs + [m]))
            && Reduce(r, InsertMessageBeforeId(m, beforeId)).facts.currentMessages == ys
  {
    hide MessageIndex, Reduce, StandsFirst;
    var xs := s.facts.currentMessages;
    IndexMeans(xs, beforeId);
    InsertLists(s, m, beforeId);
    assert xs[..|xs|] == xs;
    var k := MessageIndex(xs, beforeId);
    if forall x | x in xs :: x.id != m.id {
      assert Inserted(xs, m, beforeId)[k] == m;
      forall l: nat | StandsFirst(xs, beforeId, l)
        ensures l == k
      {
        FirstIsOne(xs, beforeId, l, k);
      }
      assert xs[..k] + [m] + xs[k..] == xs[..k] + ([m] + xs[k..]);
    }
  }

  lemma FirstIsOne(xs: seq<Message>, id: string, k: nat, l: nat)
    requires StandsFirst(xs, id, k)
    ensures l < |xs| && StandsFirst(xs, id, l) ==> k == l
    ensures exists x :: x in xs && x.id == id
  {
    assert xs[k] in xs;
  }

  lemma InsertLists(s: State, m: Message, beforeId: string)
    ensures Reduce(s, InsertMessageBeforeId(m, beforeId)).facts.currentMessages
         == Inserted(s.facts.currentMessages, m, beforeId)
    ensures var r := Reduce(s, InsertMessageBeforeId(m, beforeId));
            Reduce(r, InsertMessageBeforeId(m, beforeId)).facts.currentMessages
            == Inserted(Inserted(s.facts.currentMessages, m, beforeId), m, beforeId)
  {
    InsertReduces(s, m, beforeId);
    InsertReduces(Reduce(s, InsertMessageBeforeId(m, beforeId)), m, beforeId);
    hide Inserted, Reduce;
  }

  lemma InsertReduces(s: State, m: Message, beforeId: string)
    ensures Reduce(s, InsertMessageBeforeId(m, beforeId))
         == s.(facts := s.facts.(currentMessages := Inserted(s.facts.currentMessages, m, beforeId)))
  {
    hide ReduceShell, ReduceThread, ReduceRun, ReduceSteps, ReduceChoices, ReduceCanvas, Inserted;
  }

  /** What was given, or what was there. */
  predicate Overwrites<T(==)>(now: T, given: Option<T>, was: T) {
    if given.Some? then now == given.value else now == was
  }

  predicate IsPatched(was: Message, now: Message, p: Patch) {
    && Overwrites(now.content, p.content, was.content)
    && Overwrites(now.displayContent, p.displayContent, was.displayContent) && Overwrites(now.kind, p.kind, was.kind)
    && Overwrites(now.pendingStatusText, p.pendingStatusText, was.pendingStatusText)
    && Overwrites(now.streamCompleted, p.streamCompleted, was.streamCompleted) && Overwrites(now.rest, p.rest, was.rest)
    && now.id == was.id && now.role == was.role && now.thinkingSteps == was.thinkingSteps
  }

  /** A patch overwrites exactly what it gives, in exactly the messages it is for. */
  lemma PatchesMean(s: State, id: string, p: Patch)
    ensures var xs, ys := s.facts.currentMessages, Reduce(s, UpdateMessageById(id, p)).facts.currentMessages;
            && |ys| == |xs|
            && forall i | 0 <= i < |xs| :: if xs[i].id == id then IsPatched(xs[i], ys[i], p) else ys[i] == xs[i]
    ensures var xs, ys := s.facts.currentMessages, Reduce(s, UpdateLastMessage(p)).facts.currentMessages;
            && |ys| == |xs|
            && forall i | 0 <= i < |xs| :: if i == |xs| - 1 then IsPatched(xs[i], ys[i], p) else ys[i] == xs[i]
  {
    hide Reduce, PatchedById;
    PatchedMeans(s.facts.currentMessages, id, p);
    MessagesReduce(s, UpdateMessageById(id, p));
    MessagesReduce(s, UpdateLastMessage(p));
  }

  /** A message takes its new id where it stands, and once nothing is awaited no message waits. */
  lemma RemapsMean(s: State, id: string, other: string)
    ensures var xs, ys := s.facts.currentMessages, Reduce(s, RemapMessageId(id, other)).facts.currentMessages;
            && |ys| == |xs|
            && forall i | 0 <= i < |xs| :: ys[i] == if xs[i].id == id then xs[i].(id := other) else xs[i]
    ensures NoneWaits(s.facts.currentMessages, Reduce(s, ResolveWaitingMessages).facts.currentMessages, false)
    ensures NoneWaits(s.facts.currentMessages, Reduce(s, MarkPendingDecisionsCancelled).facts.currentMessages, true)
  {
    hide Reduce, Remapped, AllSettled, AllResolved, NoneWaits;
    RemappedMeans(s.facts.currentMessages, id, other);
    SettledMeans(s.facts.currentMessages);
    MessagesReduce(s, RemapMessageId(id, other));
    MessagesReduce(s, ResolveWaitingMessages);
    MessagesReduce(s, MarkPendingDecisionsCancelled);
  }

  lemma ReducesMessages(s: State, a: Action)
    requires IsMessages(a)
    ensures Reduce(s, a) == ReduceMessages(s, a)
  {
    hide ReduceShell, ReduceThread, ReduceRun, ReduceMessages, ReduceSteps, ReduceChoices, ReduceCanvas;
  }

  lemma MessagesReduce(s: State, a: Action)
    requires IsMessages(a)
    ensures var xs, ys := s.facts.currentMessages, Reduce(s, a).facts.currentMessages;
            match a
            case UpdateMessageById(id, p) => ys == PatchedById(xs, id, p)
            case UpdateLastMessage(p) => ys == LastPatched(xs, p)
            case RemapMessageId(id, other) => ys == Remapped(xs, id, other)
            case ResolveWaitingMessages => ys == AllResolved(xs)
            case MarkPendingDecisionsCancelled => ys == AllSettled(xs)
            case RemoveMessageById(id) => ys == WithoutMessage(xs, id)
            case _ => true
  {
    hide Reduce, PatchedById, LastPatched, Remapped, AllResolved, AllSettled, WithoutMessage;
    ReducesMessages(s, a);
  }

  lemma {:induction false} PatchedMeans(xs: seq<Message>, id: string, p: Patch)
    ensures |PatchedById(xs, id, p)| == |xs|
    ensures forall i | 0 <= i < |xs| ::
              if xs[i].id == id then IsPatched(xs[i], PatchedById(xs, id, p)[i], p)
              else PatchedById(xs, id, p)[i] == xs[i]
  {
    if xs != [] { PatchedMeans(xs[1..], id, p); }
  }

  lemma {:induction false} RemappedMeans(xs: seq<Message>, id: string, other: string)
    ensures |Remapped(xs, id, other)| == |xs|
    ensures forall i | 0 <= i < |xs| ::
              Remapped(xs, id, other)[i] == if xs[i].id == id then xs[i].(id := other) else xs[i]
  {
    if xs != [] { RemappedMeans(xs[1..], id, other); }
  }

  /** The items of `part` stand in `all` in the same order. */
  predicate Subsequence<T(==)>(part: seq<T>, all: seq<T>) {
    part == [] ||
    (all != [] && if part[0] == all[0] then Subsequence(part[1..], all[1..]) else Subsequence(part, all[1..]))
  }

  lemma {:induction false} WithoutMessageInOrder(xs: seq<Message>, id: string)
    ensures Subsequence(WithoutMessage(xs, id), xs) && forall y | y in WithoutMessage(xs, id) :: y.id != id
  {
    if xs != [] {
      WithoutMessageInOrder(xs[1..], id);
      var rest := WithoutMessage(xs[1..], id);
      if xs[0].id == id {
        assert WithoutMessage(xs, id) == rest;
        assert rest != [] ==> rest[0] in rest;
      } else {
        assert WithoutMessage(xs, id) == [xs[0]] + rest && ([xs[0]] + rest)[1..] == rest;
      }
    }
  }

  lemma {:induction false} WithoutMessageCounts(xs: seq<Message>, id: string, y: Message)
    ensures multiset(WithoutMessage(xs, id))[y] == if y.id == id then 0 else multiset(xs)[y]
  {
    if xs != [] {
      WithoutMessageCounts(xs[1..], id, y);
      assert xs == [xs[0]] + xs[1..];
      assert multiset(xs) == multiset{xs[0]} + multiset(xs[1..]);
    }
  }

  lemma {:induction false} WithoutSessionInOrder(xs: seq<Session>, id: string)
    ensures Subsequence(WithoutSession(xs, id), xs) && forall y | y in WithoutSession(xs, id) :: y.id != id
  {
    if xs != [] {
      WithoutSessionInOrder(xs[1..], id);
      var rest := WithoutSession(xs[1..], id);
      if xs[0].id == id {
        assert WithoutSession(xs, id) == rest;
        assert rest != [] ==> rest[0] in rest;
      } else {
        assert WithoutSession(xs, id) == [xs[0]] + rest && ([xs[0]] + rest)[1..] == rest;
      }
    }
  }

  lemma {:induction false} WithoutSessionCounts(xs: seq<Session>, id: string, y: Session)
    ensures multiset(WithoutSession(xs, id))[y] == if y.id == id then 0 else multiset(xs)[y]
  {
    if xs != [] {
      WithoutSessionCounts(xs[1..], id, y);
      assert xs == [xs[0]] + xs[1..];
      assert multiset(xs) == multiset{xs[0]} + multiset(xs[1..]);
    }
  }

  lemma {:induction false} RenamedMeans(xs: seq<Session>, id: string, title: string)
    ensures |Renamed(xs, id, title)| == |xs|
    ensures forall i | 0 <= i < |xs| ::
              Renamed(xs, id, title)[i] == if xs[i].id == id then xs[i].(title := title) else xs[i]
  {
    if xs != [] { RenamedMeans(xs[1..], id, title); }
  }

  /** Removing takes out exactly what has the id and moves nothing; renaming changes exactly the titles under the id. */
  lemma RemovalsMean(s: State, id: string, title: string)
    ensures var xs, ys := s.facts.currentMessages, Reduce(s, RemoveMessageById(id)).facts.currentMessages;
            Subsequence(ys, xs) && forall m :: multiset(ys)[m] == if m.id == id then 0 else multiset(xs)[m]
    ensures var xs, ys := s.shell.sessions, Reduce(s, RemoveSession(id)).shell.sessions;
            Subsequence(ys, xs) && forall x :: multiset(ys)[x] == if x.id == id then 0 else multiset(xs)[x]
    ensures var xs, ys := s.shell.sessions, Reduce(s, RenameSession(id, title)).shell.sessions;
            && |ys| == |xs|
            && forall i | 0 <= i < |xs| :: ys[i] == if xs[i].id == id then xs[i].(title := title) else xs[i]
  {
    hide Subsequence, WithoutMessage, WithoutSession, Renamed, Reduce;
    MessagesReduce(s, RemoveMessageById(id));
    SessionsReduce(s, id, title);
    WithoutMessageInOrder(s.facts.currentMessages, id);
    WithoutSessionInOrder(s.shell.sessions, id);
    forall m
      ensures multiset(WithoutMessage(s.facts.currentMessages, id))[m]
           == if m.id == id then 0 else multiset(s.facts.currentMessages)[m]
    {
      WithoutMessageCounts(s.facts.currentMessages, id, m);
    }
    forall x
      ensures multiset(WithoutSession(s.shell.sessions, id))[x] == if x.id == id then 0
                else multiset(s.shell.sessions)[x]
    {
      WithoutSessionCounts(s.shell.sessions, id, x);
    }
    RenamedMeans(s.shell.sessions, id, title);
  }

  lemma SessionsReduce(s: State, id: string, title: string)
    ensures Reduce(s, RemoveSession(id)).shell.sessions == WithoutSession(s.shell.sessions, id)
    ensures Reduce(s, RenameSession(id, title)).shell.sessions == Renamed(s.shell.sessions, id, title)
  {
    hide ReduceThread, ReduceRun, ReduceMessages, ReduceSteps, ReduceChoices, ReduceCanvas,
      WithoutSession, Renamed;
  }

  /* ----- A new chat ----- */

  /** The facts a client starts with. */
  const NEW_CHAT := Facts(
    None, None, None, None, NoSource, 0, [], Paging(None, false, false), [], None, LoadState(Idle, None), None, None,
    None, None, None, None, None, None, false, false, false, false, false, false, None, None, None, NormalInput)

  /** Clearing the chat leaves the facts a client starts with, but for a refresh key that has moved on. */
  lemma ClearStartsAnew(s: State)
    ensures var r := Reduce(s, ClearChat);
            r.facts == NEW_CHAT.(tripRunRefreshKey := s.facts.tripRunRefreshKey + 1)
            && r.shell == s.shell.(deliverableView := InteractiveItinerary)
  {
  }

  /* ----- Thinking steps ----- */

  /**
   Finishing the last step gives it an end if it has none, and a thinking step the time between its own stamp and the
   next if both are there, in order, and no duration is known; finishing it again changes nothing.
   */
  lemma FinishMeans(s: State, endTime: Time, next: Option<int>)
    requires s.facts.thinkingSteps != []
    ensures var xs, r := s.facts.thinkingSteps, Reduce(s, FinishLastThinkingStep(endTime, next));
            var ys, k := r.facts.thinkingSteps, |s.facts.thinkingSteps| - 1;
            && |ys| == |xs| && (forall i | 0 <= i < k :: ys[i] == xs[i])
            && ys[k] == xs[k].(endTime := ys[k].endTime, serverDurationMs := ys[k].serverDurationMs)
            && ys[k].endTime == (if xs[k].endTime.Some? then xs[k].endTime else Some(endTime))
            && (ys[k].serverDurationMs != xs[k].serverDurationMs <==>
                  !xs[k].isToolCall && xs[k].serverDurationMs == None && xs[k].tsMs.Some? && next.Some?
                  && xs[k].tsMs.value <= next.value)
            && (ys[k].serverDurationMs != xs[k].serverDurationMs ==>
                  ys[k].serverDurationMs == Some(next.value - xs[k].tsMs.value))
            && MirrorsSteps(s.facts.currentMessages, r.facts.currentMessages, ys)
            && Reduce(r, FinishLastThinkingStep(endTime, next)) == r
  {
    hide Reduce, Mirrored, MirrorsSteps;
    FinishReduces(s, endTime, next);
    FinishReduces(Reduce(s, FinishLastThinkingStep(endTime, next)), endTime, next);
    var xs, k := s.facts.thinkingSteps, |s.facts.thinkingSteps| - 1;
    var ys := WithLastStepFinished(s.facts, endTime, next).thinkingSteps;
    assert ys == xs[k := Finished(xs[k], endTime, next)];
    assert ys[k := Finished(ys[k], endTime, next)] == ys;
    MirroredMirrors(s.facts.currentMessages, ys);
    MirroredTwice(s.facts.currentMessages, ys);
  }

  lemma MirroredTwice(msgs: seq<Message>, steps: seq<Step>)
    ensures Mirrored(Mirrored(msgs, steps, true), steps, true) == Mirrored(msgs, steps, true)
  {
  }

  lemma FinishReduces(s: State, endTime: Time, next: Option<int>)
    ensures Reduce(s, FinishLastThinkingStep(endTime, next))
              == s.(facts := WithLastStepFinished(s.facts, endTime, next))
  {
    hide ReduceShell, ReduceThread, ReduceRun, ReduceMessages, ReduceChoices, ReduceCanvas,
      WithLastStepFinished;
  }

  /**
   Streamed reasoning opens a step if there is none, extends the last one and names its agent if that is no tool call,
   and is dropped otherwise.
   */
  lemma ReasoningStep(s: State, agent: string, text: string, freshId: string, now: Time)
    ensures var xs, r := s.facts.thinkingSteps, Reduce(s, AppendThinkingContent(agent, text, freshId, now));
            var ys, k := r.facts.thinkingSteps, |s.facts.thinkingSteps| - 1;
            && (xs == [] ==>
                  && |ys| == 1 && (ys[0].id, ys[0].agentName, ys[0].content) == (freshId, agent, text)
                  && ys[0].stepName == THINKING_STEP_NAME && ys[0].timestamp == now && !ys[0].isToolCall
                  && ys[0].endTime == None && ys[0].toolStatus == None && ys[0].toolName == None
                  && StartsMirror(s.facts.currentMessages, r.facts.currentMessages, ys))
            && (xs != [] && xs[k].isToolCall ==> r == s)
            && (xs != [] && !xs[k].isToolCall ==>
                  && |ys| == |xs| && (forall i | 0 <= i < k :: ys[i] == xs[i])
                  && ys[k] == xs[k].(agentName := agent, stepName := THINKING_STEP_NAME, content := ys[k].content)
                  && ys[k].content == xs[k].content + text
                  && MirrorsSteps(s.facts.currentMessages, r.facts.currentMessages, ys))
  {
    hide Reduce, Mirrored, MirrorsSteps, StartsMirror;
    AppendReduces(s, agent, text, freshId, now);
    var ys := WithThinkingContent(s.facts, agent, text, freshId, now).thinkingSteps;
    MirroredMirrors(s.facts.currentMessages, ys);
    MirrorStarts(s.facts.currentMessages, ys);
  }

  lemma AppendReduces(s: State, agent: string, text: string, freshId: string, now: Time)
    ensures Reduce(s, AppendThinkingContent(agent, text, freshId, now))
         == s.(facts := WithThinkingContent(s.facts, agent, text, freshId, now))
  {
    hide Reduce, WithThinkingContent;
    ReducesSteps(s, AppendThinkingContent(agent, text, freshId, now));
  }

  /** A step that still runs and is of the agent and the tool the update names, if it names them. */
  predicate StillRuns(step: Step, u: ToolUpdate) {
    && step.isToolCall && step.toolStatus == Some(Running)
    && (u.agentName == None || u.agentName == Some("") || u.agentName == Some(step.agentName))
    && (u.toolName == None || u.toolName == Some("") || u.toolName == step.toolName)
  }

  /** The step an update without a known call id is for: the last that still runs, else the last of all. */
  ghost predicate IsMeant(steps: seq<Step>, u: ToolUpdate, k: nat) {
    && k < |steps|
    && if exists i | 0 <= i < |steps| :: StillRuns(steps[i], u) then
         StillRuns(steps[k], u) && forall i | k < i < |steps| :: !StillRuns(steps[i], u)
       else k == |steps| - 1
  }

  /** A result whose call is not known lands on the step meant, if that is a tool's; otherwise nothing changes. */
  lemma UnnamedResultLands(s: State, u: ToolUpdate, k: nat)
    requires IsMeant(s.facts.thinkingSteps, u, k)
    requires u.toolCallId.None? || u.toolCallId == Some("")
              || Address(s.facts.thinkingSteps, u) == |s.facts.thinkingSteps|
    ensures var xs, r := s.facts.thinkingSteps, Reduce(s, UpdateLastToolStep(u));
            && (!xs[k].isToolCall ==> r == s)
            && (xs[k].isToolCall ==>
                  && |r.facts.thinkingSteps| == |xs| && ShowsResult(xs[k], r.facts.thinkingSteps[k], u)
                  && (forall i | 0 <= i < |xs| && i != k :: r.facts.thinkingSteps[i] == xs[i])
                  && MirrorsSteps(s.facts.currentMessages, r.facts.currentMessages, r.facts.thinkingSteps))
  {
    var xs := s.facts.thinkingSteps;
    UpdateReduces(s, u);
    assert forall i | 0 <= i < |xs| :: StillRuns(xs[i], u) <==> RunningMatch(xs[i], u);
    hide StillRuns, RunningMatch, LastRunning, StepNamed, ToolDone, Mirrored, MirrorsSteps, ShowsResult, Reduce;
    assert TargetStep(xs, u) == k;
    ToolDoneShows(xs[k], ToolDone(xs[k], u), u);
    MirroredMirrors(s.facts.currentMessages, xs[k := ToolDone(xs[k], u)]);
  }

  lemma UpdateReduces(s: State, u: ToolUpdate)
    ensures Reduce(s, UpdateLastToolStep(u)) == s.(facts := WithToolResult(s.facts, u))
  {
    hide ReduceShell, ReduceThread, ReduceRun, ReduceMessages, ReduceChoices, ReduceCanvas, WithToolResult;
  }

  /* ----- What is set is what was given, and nothing else ----- */

  lemma ShellStores(s: State, a: Action)
    ensures var h, r := s.shell, Reduce(s, a);
            match a
            case SetActiveView(v) =>
              r == s.(shell := h.(activeView := v),
                      facts := s.facts.(splitViewActive := s.facts.splitViewActive && v.Chat?))
            case ToggleSidebar => r == s.(shell := h.(sidebarCollapsed := r.shell.sidebarCollapsed)) && r != s
            case SetSidebarCollapsed(c) => r == s.(shell := h.(sidebarCollapsed := c))
            case SetDeliverableView(d) => r == s.(shell := h.(deliverableView := d))
            case SetSessions(list) => r == s.(shell := h.(sessions := list))
            case AddSession(x) => r == s.(shell := h.(sessions := [x] + h.sessions))
            case RemoveSession(_) => r == s.(shell := h.(sessions := r.shell.sessions))
            case RenameSession(_, _) => r == s.(shell := h.(sessions := r.shell.sessions))
            case SetActivePreset(None) => r == s.(shell := h.(activePresetId := None, activePresetName := None))
            case SetActivePreset(Some(p)) => r == s.(shell := h.(activePresetId := Some(p.0),
                                                                 activePresetName := Some(p.1)))
            case FlashBoardingPass => r == s.(shell := h.(boardingPassFlash := h.boardingPassFlash + 1))
            case _ => true
  {
    hide ReduceThread, ReduceRun, ReduceMessages, ReduceSteps, ReduceChoices, ReduceCanvas;
  }

  lemma ThreadStores(s: State, a: Action)
    ensures var f, r := s.facts, Reduce(s, a);
            match a
            case SetSessionId(id) => r == s.(facts := f.(currentSessionId := id))
            case RestoreSessionRuntime(c) =>
              r == State(s.shell.(deliverableView := InteractiveItinerary), s.conversationEpoch + 1, c.facts)
            case SetMessages(list) =>
              && (list == [] && f.currentMessages == [] ==> r == s)
              && (list != [] || f.currentMessages != [] ==>
                    r == State(s.shell, s.conversationEpoch + 1, f.(currentMessages := list, tripSummaryCard := None)))
            case _ => true
  {
    hide ReduceShell, ReduceRun, ReduceMessages, ReduceSteps, ReduceChoices, ReduceCanvas;
  }

  lemma RunStores(s: State, a: Action)
    ensures var f, r := s.facts, Reduce(s, a);
            match a
            case SetDeliveryBundleLoadState(l) => r == s.(facts := f.(deliveryBundleLoadState := l))
            case BumpTripRunRefresh => r == s.(facts := f.(tripRunRefreshKey := f.tripRunRefreshKey + 1))
            case SetTripSummaryCard(c) => r == s.(facts := f.(tripSummaryCard := c))
            case SetPlanApprovalGate(g) => r == s.(facts := f.(planApprovalGate := g))
            case UsageUpdate(_) => r == s.(facts := f.(runCostLive := r.facts.runCostLive))
            case SetRunCostSummary(c) => r == s.(facts := f.(runCostSummary := c))
            case ClearTrace =>
              r == s.(facts := f.(tripSummaryCard := None, planApprovalGate := None, runCostLive := None,
                                  runCostSummary := None))
            case _ => true
  {
    hide ReduceShell, ReduceThread, ReduceMessages, ReduceSteps, ReduceChoices, ReduceCanvas, WithUsage;
  }

  /** Every action on the thread's messages leaves all but them alone; a page and a cancellation set a little more. */
  lemma MessagesStore(s: State, a: Action)
    requires IsMessages(a)
    ensures var f, r := s.facts, Reduce(s, a);
            match a
            case SetHistoryPagingLoading(l) => r == s.(facts := f.(historyPaging := f.historyPaging.(loading := l)))
            case PrependHistory(earlier, before, more) =>
              r == s.(facts := f.(currentMessages := earlier + f.currentMessages,
                                  historyPaging := Paging(before, more, false)))
            case MarkPendingDecisionsCancelled =>
              && r == s.(facts := f.(currentMessages := r.facts.currentMessages, inputMode := NormalInput,
                                     planApprovalGate := r.facts.planApprovalGate))
              && (r.facts.planApprovalGate.Some? <==> f.planApprovalGate.Some?)
              && (f.planApprovalGate.Some? ==>
                    r.facts.planApprovalGate == Some(Gate(f.planApprovalGate.value.body, true)))
            case AddMessage(m) => r == s.(facts := f.(currentMessages := f.currentMessages + [m]))
            case _ => r == s.(facts := f.(currentMessages := r.facts.currentMessages))
  {
    hide Reduce, AllSettled, AllResolved, LastPatched, PatchedById, Remapped, WithoutMessage, Inserted;
    ReducesMessages(s, a);
  }

  predicate OnlySteps(f: Facts, g: Facts) {
    g == f.(thinkingSteps := g.thinkingSteps, currentMessages := g.currentMessages)
  }

  lemma FinishOnlySteps(f: Facts, endTime: Time, next: Option<int>)
    ensures OnlySteps(f, WithLastStepFinished(f, endTime, next))
  {
    hide Mirrored, Finished;
  }

  lemma AppendOnlySteps(f: Facts, agent: string, text: string, freshId: string, now: Time)
    ensures OnlySteps(f, WithThinkingContent(f, agent, text, freshId, now))
  {
    hide Mirrored, FreshStep, OnlySteps;
    if f.thinkingSteps == [] {
      var steps := [FreshStep(agent, text, freshId, now)];
      SetsOnlySteps(f, steps, Mirrored(f.currentMessages, steps, false));
    } else if f.thinkingSteps[|f.thinkingSteps| - 1].isToolCall {
      SetsOnlySteps(f, f.thinkingSteps, f.currentMessages);
      SameFacts(f);
    } else {
      var k := |f.thinkingSteps| - 1;
      var last := f.thinkingSteps[k];
      var steps := f.thinkingSteps[
        k := last.(agentName := agent, content := last.content + text, stepName := THINKING_STEP_NAME)];
      SetsOnlySteps(f, steps, Mirrored(f.currentMessages, steps, true));
    }
  }

  lemma SetsOnlySteps(f: Facts, steps: seq<Step>, messages: seq<Message>)
    ensures OnlySteps(f, f.(thinkingSteps := steps, currentMessages := messages))
  {
  }

  lemma SameFacts(f: Facts)
    ensures f == f.(thinkingSteps := f.thinkingSteps, currentMessages := f.currentMessages)
  {
  }

  lemma ResultOnlySteps(f: Facts, u: ToolUpdate)
    ensures OnlySteps(f, WithToolResult(f, u))
  {
    hide Mirrored, TargetStep, ToolDone;
  }

  lemma ReducesSteps(s: State, a: Action)
    requires IsSteps(a)
    ensures Reduce(s, a) == ReduceSteps(s, a)
  {
    hide ReduceShell, ReduceThread, ReduceRun, ReduceMessages, ReduceSteps, ReduceChoices, ReduceCanvas;
  }

  /** What happens to the steps touches the steps and their copy in the last message, and nothing else. */
  lemma StepsStore(s: State, a: Action)
    requires IsSteps(a)
    ensures var r := Reduce(s, a);
            && r == s.(facts := r.facts) && OnlySteps(s.facts, r.facts)
            && (a.SetThinkingSteps? ==> r.facts == s.facts.(thinkingSteps := a.steps))
  {
    hide Reduce, Mirrored, WithLastStepFinished, WithThinkingContent, WithToolResult, OnlySteps;
    ReducesSteps(s, a);
    SetsOnlySteps(s.facts, if a.SetThinkingSteps? then a.steps else [], s.facts.currentMessages);
    if a.AddThinkingStep? {
      var steps := s.facts.thinkingSteps + [a.step];
      SetsOnlySteps(s.facts, steps, Mirrored(s.facts.currentMessages, steps, false));
    }
    match a {
      case FinishLastThinkingStep(endTime, next) => FinishOnlySteps(s.facts, endTime, next);
      case AppendThinkingContent(agent, text, freshId, now) => AppendOnlySteps(s.facts, agent, text, freshId, now);
      case UpdateLastToolStep(u) => ResultOnlySteps(s.facts, u);
      case _ =>
    }
  }

  /** An added step is mirrored by the last assistant message, whether it showed steps before or not. */
  lemma AddedStepShows(s: State, step: Step)
    ensures var r := Reduce(s, AddThinkingStep(step)).facts;
            && r.thinkingSteps == s.facts.thinkingSteps + [step]
            && StartsMirror(s.facts.currentMessages, r.currentMessages, r.thinkingSteps)
  {
    hide ReduceShell, ReduceThread, ReduceRun, ReduceMessages, ReduceChoices, ReduceCanvas, Mirrored,
      StartsMirror;
    MirrorStarts(s.facts.currentMessages, s.facts.thinkingSteps + [step]);
  }

  predicate StartsMirror(before: seq<Message>, after: seq<Message>, steps: seq<Step>) {
    && |after| == |before| && (forall i | 0 <= i < |before| - 1 :: after[i] == before[i])
    && (before != [] ==>
          var last := before[|before| - 1];
          after[|before| - 1] == if last.role.Assistant? then last.(thinkingSteps := Some(steps)) else last)
  }

  lemma MirrorStarts(msgs: seq<Message>, steps: seq<Step>)
    ensures StartsMirror(msgs, Mirrored(msgs, steps, false), steps)
  {
  }

  lemma ChoicesStore(s: State, a: Action)
    ensures var f, r := s.facts, Reduce(s, a);
            match a
            case SetGuidedIntake(g) => r == s.(facts := f.(pendingGuidedIntake := g))
            case SetRouteConfirmation(c) => r == s.(facts := f.(pendingRouteConfirmation := c))
            case SetLastRouteDecision(d) => r == s.(facts := f.(lastRouteDecision := d))
            case SetControlledTripIdentity(i) => r == s.(facts := f.(controlledTripIdentity := i))
            case SetStreaming(b) => r == s.(facts := f.(isStreaming := b, isSynthesizing := b && f.isSynthesizing))
            case SetSynthesizing(b) => r == s.(facts := f.(isSynthesizing := b))
            case SetInputMode(mode) => r == s.(facts := f.(inputMode := mode))
            case _ => true
  {
    hide ReduceShell, ReduceThread, ReduceRun, ReduceMessages, ReduceSteps, ReduceCanvas;
  }

  /** Closing the canvas leaves full screen, full screen opens the canvas, and another day drops the selection. */
  lemma CanvasStores(s: State, a: Action)
    ensures var f, r := s.facts, Reduce(s, a);
            match a
            case SetSplitView(b) => r == s.(facts := f.(splitViewActive := b))
            case SetCanvasOpen(b) => r == s.(facts := f.(canvasOpen := b, canvasFullscreen := b && f.canvasFullscreen))
            case SetCanvasFullscreen(b) => r == s.(facts := f.(canvasFullscreen := b, canvasOpen := b || f.canvasOpen))
            case SetMobileCanvasOpen(b) => r == s.(facts := f.(mobileCanvasOpen := b))
            case SetActiveDay(d) =>
              r == s.(facts := f.(activeDayIndex := d, activeItemId := None, activePlaceId := None))
            case SetActiveItem(i) => r == s.(facts := f.(activeItemId := i))
            case SetActivePlace(p) => r == s.(facts := f.(activePlaceId := p))
            case _ => true
  {
    hide ReduceShell, ReduceThread, ReduceRun, ReduceMessages, ReduceSteps, ReduceChoices;
  }
}
