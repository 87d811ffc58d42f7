/** What every action of the reducer keeps. */
module ReducerLaws {
  import opened Options
  import opened AppState

  /** Actions that do not say which session is on screen. */
  predicate KeepsSession(a: Action) {
    !a.SetSessionId? && !a.RestoreSessionRuntime? && !a.ClearChat?
  }

  lemma ShellClosed(s: State, t: State, a: Action)
    requires s.facts == t.facts
    ensures ReduceShell(s, a).facts == ReduceShell(t, a).facts
    ensures ReduceShell(s, a).conversationEpoch == s.conversationEpoch
    ensures KeepsSession(a) ==> ReduceShell(s, a).facts.currentSessionId == s.facts.currentSessionId
  {
  }

  lemma ThreadClosed(s: State, t: State, a: Action)
    requires s.facts == t.facts
    ensures ReduceThread(s, a).facts == ReduceThread(t, a).facts
    ensures ReduceThread(s, a).conversationEpoch == s.conversationEpoch + (if SwitchesThread(s, a) then 1 else 0)
    ensures KeepsSession(a) ==> ReduceThread(s, a).facts.currentSessionId == s.facts.currentSessionId
  {
  }

  lemma RunClosed(s: State, t: State, a: Action)
    requires s.facts == t.facts
    ensures ReduceRun(s, a).facts == ReduceRun(t, a).facts
    ensures ReduceRun(s, a).conversationEpoch == s.conversationEpoch
    ensures KeepsSession(a) ==> ReduceRun(s, a).facts.currentSessionId == s.facts.currentSessionId
  {
  }

  lemma MessagesClosed(s: State, t: State, a: Action)
    requires s.facts == t.facts
    ensures ReduceMessages(s, a).facts == ReduceMessages(t, a).facts
    ensures ReduceMessages(s, a).conversationEpoch == s.conversationEpoch
    ensures KeepsSession(a) ==> ReduceMessages(s, a).facts.currentSessionId == s.facts.currentSessionId
  {
  }

  lemma StepsClosed(s: State, t: State, a: Action)
    requires s.facts == t.facts
    ensures ReduceSteps(s, a).facts == ReduceSteps(t, a).facts
    ensures ReduceSteps(s, a).conversationEpoch == s.conversationEpoch
    ensures KeepsSession(a) ==> ReduceSteps(s, a).facts.currentSessionId == s.facts.currentSessionId
  {
  }

  lemma ChoicesClosed(s: State, t: State, a: Action)
    requires s.facts == t.facts
    ensures ReduceChoices(s, a).facts == ReduceChoices(t, a).facts
    ensures ReduceChoices(s, a).conversationEpoch == s.conversationEpoch
    ensures KeepsSession(a) ==> ReduceChoices(s, a).facts.currentSessionId == s.facts.currentSessionId
  {
  }

  lemma CanvasClosed(s: State, t: State, a: Action)
    requires s.facts == t.facts
    ensures ReduceCanvas(s, a).facts == ReduceCanvas(t, a).facts
    ensures ReduceCanvas(s, a).conversationEpoch == s.conversationEpoch
    ensures KeepsSession(a) ==> ReduceCanvas(s, a).facts.currentSessionId == s.facts.currentSessionId
  {
  }

  /**
   The session part after any action is a function of the session part before it:
   nothing outside the snapshot leaks in.
   */
  lemma SessionPartIsClosed(s: State, t: State, a: Action)
    requires s.facts == t.facts
    ensures Reduce(s, a).facts == Reduce(t, a).facts
  {
    hide ReduceShell, ReduceThread, ReduceRun, ReduceMessages, ReduceSteps, ReduceChoices, ReduceCanvas;
    if IsShell(a) { ShellClosed(s, t, a); }
    else if IsThread(a) { ThreadClosed(s, t, a); }
    else if IsRun(a) { RunClosed(s, t, a); }
    else if IsMessages(a) { MessagesClosed(s, t, a); }
    else if IsSteps(a) { StepsClosed(s, t, a); }
    else if IsChoices(a) { ChoicesClosed(s, t, a); }
    else { CanvasClosed(s, t, a); }
  }

  lemma {:induction false} RunsAgree(s: State, t: State, actions: seq<Action>)
    requires s.facts == t.facts
    ensures ReduceAll(s, actions).facts == ReduceAll(t, actions).facts
  {
    hide Reduce;
    if actions != [] {
      var k := |actions| - 1;
      RunsAgree(s, t, actions[..k]);
      SessionPartIsClosed(ReduceAll(s, actions[..k]), ReduceAll(t, actions[..k]), actions[k]);
    }
  }

  /* ----- Invariants ----- */

  predicate Sound(f: Facts) {
    && (f.deliveryBundle.Some? ==> f.currentTripRunId == Some(f.deliveryBundle.value.manifest.runId))
    && (f.canvasFullscreen ==> f.canvasOpen)
  }

  lemma ShellSound(s: State, a: Action)
    requires Sound(s.facts) && (a.RestoreSessionRuntime? ==> Sound(a.snapshot.facts))
    ensures Sound(ReduceShell(s, a).facts)
  {
  }

  lemma ThreadSound(s: State, a: Action)
    requires Sound(s.facts) && (a.RestoreSessionRuntime? ==> Sound(a.snapshot.facts))
    ensures Sound(ReduceThread(s, a).facts)
  {
  }

  lemma RunSound(s: State, a: Action)
    requires Sound(s.facts) && (a.RestoreSessionRuntime? ==> Sound(a.snapshot.facts))
    ensures Sound(ReduceRun(s, a).facts)
  {
  }

  lemma MessagesSound(s: State, a: Action)
    requires Sound(s.facts) && (a.RestoreSessionRuntime? ==> Sound(a.snapshot.facts))
    ensures Sound(ReduceMessages(s, a).facts)
  {
  }

  lemma StepsSound(s: State, a: Action)
    requires Sound(s.facts) && (a.RestoreSessionRuntime? ==> Sound(a.snapshot.facts))
    ensures Sound(ReduceSteps(s, a).facts)
  {
  }

  lemma ChoicesSound(s: State, a: Action)
    requires Sound(s.facts) && (a.RestoreSessionRuntime? ==> Sound(a.snapshot.facts))
    ensures Sound(ReduceChoices(s, a).facts)
  {
  }

  lemma CanvasSound(s: State, a: Action)
    requires Sound(s.facts) && (a.RestoreSessionRuntime? ==> Sound(a.snapshot.facts))
    ensures Sound(ReduceCanvas(s, a).facts)
  {
  }

  /** The delivery shown belongs to the current run, and full screen implies open, after any action. */
  lemma ReduceSound(s: State, a: Action)
    requires Sound(s.facts) && (a.RestoreSessionRuntime? ==> Sound(a.snapshot.facts))
    ensures Sound(Reduce(s, a).facts)
  {
    hide ReduceShell, ReduceThread, ReduceRun, ReduceMessages, ReduceSteps, ReduceChoices, ReduceCanvas;
    ShellSound(s, a);
    ThreadSound(s, a);
    RunSound(s, a);
    MessagesSound(s, a);
    StepsSound(s, a);
    ChoicesSound(s, a);
    CanvasSound(s, a);
  }

  predicate SwitchesThread(s: State, a: Action) {
    a.RestoreSessionRuntime? || a.ClearChat? || (a.SetMessages? && !(s.facts.currentMessages == [] && a.messages == []))
  }

  /** The epoch grows by one exactly on a thread switch. */
  lemma EpochCountsSwitches(s: State, a: Action)
    ensures Reduce(s, a).conversationEpoch == s.conversationEpoch + (if SwitchesThread(s, a) then 1 else 0)
  {
    hide ReduceShell, ReduceThread, ReduceRun, ReduceMessages, ReduceSteps, ReduceChoices, ReduceCanvas;
    if IsShell(a) { ShellClosed(s, s, a); }
    else if IsThread(a) { ThreadClosed(s, s, a); }
    else if IsRun(a) { RunClosed(s, s, a); }
    else if IsMessages(a) { MessagesClosed(s, s, a); }
    else if IsSteps(a) { StepsClosed(s, s, a); }
    else if IsChoices(a) { ChoicesClosed(s, s, a); }
    else { CanvasClosed(s, s, a); }
  }

  lemma SessionIdKept(s: State, a: Action)
    requires KeepsSession(a)
    ensures Reduce(s, a).facts.currentSessionId == s.facts.currentSessionId
  {
    hide ReduceShell, ReduceThread, ReduceRun, ReduceMessages, ReduceSteps, ReduceChoices, ReduceCanvas;
    if IsShell(a) { ShellClosed(s, s, a); }
    else if IsThread(a) { ThreadClosed(s, s, a); }
    else if IsRun(a) { RunClosed(s, s, a); }
    else if IsMessages(a) { MessagesClosed(s, s, a); }
    else if IsSteps(a) { StepsClosed(s, s, a); }
    else if IsChoices(a) { ChoicesClosed(s, s, a); }
    else { CanvasClosed(s, s, a); }
  }

  /* ----- Results of parallel tool calls ----- */

  /** The update names, by call id, a tool step that is present. */
  predicate Addresses(steps: seq<Step>, u: ToolUpdate) {
    Truthy(u.toolCallId) && Address(steps, u) < |steps| && steps[Address(steps, u)].isToolCall
  }

  /** The first step that carries the update's call id, or |steps|. */
  function Address(steps: seq<Step>, u: ToolUpdate): nat {
    StepNamed(steps, Or(u.toolCallId, ""))
  }

  /** Updates for distinct calls whose steps are present and distinct. */
  ghost predicate Parallel(steps: seq<Step>, us: seq<ToolUpdate>) {
    && (forall u | u in us :: Addresses(steps, u))
    && (forall i, j | 0 <= i < j < |us| ::
          us[i].toolCallId != us[j].toolCallId && Address(steps, us[i]) != Address(steps, us[j]))
  }

  /** What was given, or what was there. */
  predicate Given<T(==)>(now: Option<T>, given: Option<T>, was: Option<T>) {
    if given.Some? then now == given else now == was
  }

  /**
   The step shows the result: the status reported, or completed if none is, the result and the time of the update;
   whatever else the update gives, and all it does not, as it was.
   */
  predicate ShowsResult(was: Step, now: Step, u: ToolUpdate) {
    && now.toolStatus == Some(if u.toolStatus.Some? then u.toolStatus.value else Completed)
    && now.toolResult == u.toolResult && now.endTime == Some(u.now)
    && Given(now.toolCallId, u.toolCallId, was.toolCallId) && Given(now.toolCategory, u.toolCategory, was.toolCategory)
    && Given(now.fromCache, u.fromCache, was.fromCache)
    && Given(now.serverDurationMs, u.serverDurationMs, was.serverDurationMs)
    && Given(now.toolDegraded, u.toolDegraded, was.toolDegraded)
    && Given(now.fallbackFrom, u.fallbackFrom, was.fallbackFrom) && Given(now.fallbackTo, u.fallbackTo, was.fallbackTo)
    && now.id == was.id && now.agentName == was.agentName && now.content == was.content
    && now.stepName == was.stepName && now.timestamp == was.timestamp && now.tsMs == was.tsMs
    && now.isToolCall == was.isToolCall && now.toolName == was.toolName && now.toolArgs == was.toolArgs
  }

  lemma ToolDoneShows(was: Step, now: Step, u: ToolUpdate)
    ensures ShowsResult(was, now, u) <==> now == ToolDone(was, u)
  {
  }

  /** The last message, if it is the assistant's and shows steps, shows these; no other message changes. */
  predicate MirrorsSteps(before: seq<Message>, after: seq<Message>, steps: seq<Step>) {
    && |after| == |before|
    && (forall i | 0 <= i < |before| - 1 :: after[i] == before[i])
    && (before != [] ==>
          var last := before[|before| - 1];
          after[|before| - 1]
          == if last.role.Assistant? && last.thinkingSteps.Some? then last.(thinkingSteps := Some(steps)) else last)
  }

  lemma MirroredMirrors(before: seq<Message>, steps: seq<Step>)
    ensures MirrorsSteps(before, Mirrored(before, steps, true), steps)
  {
  }

  lemma MirrorsDetermine(before: seq<Message>, a: seq<Message>, b: seq<Message>, steps: seq<Step>)
    requires MirrorsSteps(before, a, steps) && MirrorsSteps(before, b, steps)
    ensures a == b
  {
  }

  /** Each step after all the updates: the result addressed to it, or itself. */
  ghost predicate AllApplied(before: seq<Step>, us: seq<ToolUpdate>, after: seq<Step>) {
    && |after| == |before|
    && forall k | 0 <= k < |before| ::
         && (forall u | u in us && Address(before, u) == k :: ShowsResult(before[k], after[k], u))
         && ((forall u | u in us :: Address(before, u) != k) ==> after[k] == before[k])
  }

  /** The address is the first step that carries the call id, as its own call's or as its own. */
  lemma AddressMeans(steps: seq<Step>, u: ToolUpdate, k: nat)
    requires u.toolCallId.Some? && k < |steps|
    ensures Address(steps, u) == k <==>
              && (steps[k].toolCallId == u.toolCallId || steps[k].id == u.toolCallId.value)
              && forall i | 0 <= i < k :: steps[i].toolCallId != u.toolCallId && steps[i].id != u.toolCallId.value
  {
    hide StepNamed;
    if Address(steps, u) < |steps| { assert NamedBy(steps[Address(steps, u)], u.toolCallId.value); }
    assert forall i | 0 <= i < k :: !NamedBy(steps[i], u.toolCallId.value) || Address(steps, u) <= i;
    if NamedBy(steps[k], u.toolCallId.value) && forall i | 0 <= i < k :: !NamedBy(steps[i], u.toolCallId.value) {
      AddressUnique(steps, u, k);
    }
  }

  function Updates(us: seq<ToolUpdate>): seq<Action> {
    seq(|us|, i requires 0 <= i < |us| => UpdateLastToolStep(us[i]))
  }

  lemma AddressUnique(steps: seq<Step>, u: ToolUpdate, k: nat)
    requires k < |steps| && NamedBy(steps[k], Or(u.toolCallId, ""))
    requires forall i | 0 <= i < k :: !NamedBy(steps[i], Or(u.toolCallId, ""))
    ensures Address(steps, u) == k
  {
  }

  /** Settling some calls moves no other call's address. */
  lemma AddressStable(before: seq<Step>, us: seq<ToolUpdate>, after: seq<Step>, u: ToolUpdate)
    requires AllApplied(before, us, after) && Addresses(before, u)
    requires forall w | w in us ::
               Addresses(before, w) && w.toolCallId != u.toolCallId && Address(before, w) != Address(before, u)
    ensures Addresses(after, u) && Address(after, u) == Address(before, u)
    ensures after[Address(before, u)] == before[Address(before, u)]
  {
    hide StepNamed;
    var id := u.toolCallId.value;
    var k := Address(before, u);
    assert after[k] == before[k];
    forall i | 0 <= i < k
      ensures !NamedBy(after[i], id)
    {
      assert !NamedBy(before[i], id);
      if w :| w in us && Address(before, w) == i {
        assert ShowsResult(before[i], after[i], w);
        assert after[i].id == before[i].id && after[i].toolCallId == w.toolCallId;
      }
    }
    AddressUnique(after, u, k);
  }

  /** A result whose call is present lands on its step and on the mirrored copy, and nowhere else. */
  lemma ResultLands(s: State, u: ToolUpdate)
    requires Addresses(s.facts.thinkingSteps, u)
    ensures var k := Address(s.facts.thinkingSteps, u);
            var steps := s.facts.thinkingSteps[k := ToolDone(s.facts.thinkingSteps[k], u)];
            Reduce(s, UpdateLastToolStep(u)) ==
            s.(facts := s.facts.(thinkingSteps := steps,
                                 currentMessages := Mirrored(s.facts.currentMessages, steps, true)))
  {
    hide StepNamed, LastRunning, ToolDone, Mirrored;
    assert TargetStep(s.facts.thinkingSteps, u) == Address(s.facts.thinkingSteps, u);
  }

  /** Every step holds the result addressed to it, the last message mirrors the steps, and nothing else changes. */
  ghost predicate Landed(s: State, us: seq<ToolUpdate>, r: State) {
    && AllApplied(s.facts.thinkingSteps, us, r.facts.thinkingSteps)
    && r == s.(facts := s.facts.(thinkingSteps := r.facts.thinkingSteps, currentMessages := r.facts.currentMessages))
    && (us == [] ==> r == s)
    && (us != [] ==> MirrorsSteps(s.facts.currentMessages, r.facts.currentMessages, r.facts.thinkingSteps))
  }

  lemma LandOneMore(s: State, us: seq<ToolUpdate>, prior: State, u: ToolUpdate)
    requires Landed(s, us, prior) && Addresses(s.facts.thinkingSteps, u)
    requires forall w | w in us ::
               && Addresses(s.facts.thinkingSteps, w) && w.toolCallId != u.toolCallId
               && Address(s.facts.thinkingSteps, w) != Address(s.facts.thinkingSteps, u)
    ensures Landed(s, us + [u], Reduce(prior, UpdateLastToolStep(u)))
  {
    hide Reduce, ToolDone, Mirrored, StepNamed, ShowsResult, MirrorsSteps, Address, Addresses, AllApplied;
    var before, mid := s.facts.thinkingSteps, prior.facts.thinkingSteps;
    AddressStable(before, us, mid, u);
    ResultLands(prior, u);
    var r := Reduce(prior, UpdateLastToolStep(u));
    AddressInRange(before, us, mid, u);
    AppliedOneMore(before, us, mid, u, r.facts.thinkingSteps);
    MirroredMirrors(prior.facts.currentMessages, r.facts.thinkingSteps);
    if us != [] {
      MirrorTwice(s.facts.currentMessages, prior.facts.currentMessages, r.facts.currentMessages, mid,
                  r.facts.thinkingSteps);
    }
  }

  lemma AddressInRange(before: seq<Step>, us: seq<ToolUpdate>, mid: seq<Step>, u: ToolUpdate)
    requires AllApplied(before, us, mid) && Addresses(before, u)
    ensures Address(before, u) < |before| == |mid|
  {
  }

  lemma {:induction false} ResultsLand(s: State, us: seq<ToolUpdate>)
    requires Parallel(s.facts.thinkingSteps, us)
    ensures Landed(s, us, ReduceAll(s, Updates(us)))
  {
    hide Reduce, StepNamed, Address, Addresses;
    if us == [] {
      assert Updates(us) == [];
    } else {
      var n := |us| - 1;
      assert us == us[..n] + [us[n]] && us[n] in us;
      assert Updates(us)[..n] == Updates(us[..n]);
      ResultsLand(s, us[..n]);
      hide Landed;
      LandOneMore(s, us[..n], ReduceAll(s, Updates(us[..n])), us[n]);
    }
  }

  lemma AppliedOneMore(before: seq<Step>, us: seq<ToolUpdate>, mid: seq<Step>, u: ToolUpdate, after: seq<Step>)
    requires AllApplied(before, us, mid) && Addresses(before, u)
    requires forall w | w in us :: Address(before, w) != Address(before, u)
    requires mid[Address(before, u)] == before[Address(before, u)]
    requires after == mid[Address(before, u) := ToolDone(before[Address(before, u)], u)]
    ensures AllApplied(before, us + [u], after)
  {
    hide ToolDone, StepNamed, Address, ShowsResult;
    ToolDoneShows(before[Address(before, u)], after[Address(before, u)], u);
    var all := us + [u];
    assert u in all;
    forall k | 0 <= k < |before|
      ensures forall w | w in all && Address(before, w) == k :: ShowsResult(before[k], after[k], w)
      ensures (forall w | w in all :: Address(before, w) != k) ==> after[k] == before[k]
    {
      assert forall w | w in us :: w in all;
    }
  }

  lemma MirrorTwice(msgs: seq<Message>, mid: seq<Message>, after: seq<Message>, a: seq<Step>, b: seq<Step>)
    requires MirrorsSteps(msgs, mid, a) && MirrorsSteps(mid, after, b)
    ensures MirrorsSteps(msgs, after, b)
  {
  }

  /** Results of parallel calls commute: any order of arrival gives the same state. */
  lemma ParallelResultsCommute(s: State, us: seq<ToolUpdate>, vs: seq<ToolUpdate>)
    requires Parallel(s.facts.thinkingSteps, us) && multiset(us) == multiset(vs)
    ensures ReduceAll(s, Updates(us)) == ReduceAll(s, Updates(vs))
  {
    SamePermutation(s.facts.thinkingSteps, us, vs);
    ResultsLand(s, us);
    ResultsLand(s, vs);
    var a, b := ReduceAll(s, Updates(us)).facts.thinkingSteps, ReduceAll(s, Updates(vs)).facts.thinkingSteps;
    hide StepNamed, ReduceAll, ToolDone;
    forall k | 0 <= k < |s.facts.thinkingSteps|
      ensures a[k] == b[k]
    {
      if u :| u in us && Address(s.facts.thinkingSteps, u) == k {
        assert u in vs;
        ToolDoneShows(s.facts.thinkingSteps[k], a[k], u);
        ToolDoneShows(s.facts.thinkingSteps[k], b[k], u);
      }
    }
    assert a == b;
    if us != [] {
      MirrorsDetermine(s.facts.currentMessages, ReduceAll(s, Updates(us)).facts.currentMessages,
                       ReduceAll(s, Updates(vs)).facts.currentMessages, a);
    }
  }

  lemma SamePermutation(steps: seq<Step>, us: seq<ToolUpdate>, vs: seq<ToolUpdate>)
    requires Parallel(steps, us) && multiset(us) == multiset(vs)
    ensures Parallel(steps, vs) && (us == [] <==> vs == []) && forall u :: u in us <==> u in vs
  {
    hide StepNamed, Address;
    assert forall u :: u in us <==> u in multiset(us);
    assert forall u :: u in vs <==> u in multiset(vs);
    assert |us| == |multiset(us)| == |multiset(vs)| == |vs|;
    Once(us);
    forall i, j | 0 <= i < j < |vs|
      ensures vs[i].toolCallId != vs[j].toolCallId && Address(steps, vs[i]) != Address(steps, vs[j])
    {
      assert vs[i] in us && vs[j] in us;
      if vs[i] == vs[j] {
        TwiceIsTwo(vs, i, j);
      } else {
        var x :| 0 <= x < |us| && us[x] == vs[i];
        var y :| 0 <= y < |us| && us[y] == vs[j];
        assert x != y;
      }
    }
  }

  lemma TwiceIsTwo(vs: seq<ToolUpdate>, i: nat, j: nat)
    requires i < j < |vs| && vs[i] == vs[j]
    ensures multiset(vs)[vs[i]] >= 2
  {
    assert vs == vs[..j] + vs[j..];
    assert multiset(vs)[vs[i]] == multiset(vs[..j])[vs[i]] + multiset(vs[j..])[vs[i]];
    assert vs[i] in vs[..j] && vs[j] in vs[j..];
  }

  lemma {:induction false} Once(us: seq<ToolUpdate>)
    requires forall i, j | 0 <= i < j < |us| :: us[i].toolCallId != us[j].toolCallId
    ensures forall u | u in us :: multiset(us)[u] == 1
  {
    if us != [] {
      Once(us[1..]);
      assert us == [us[0]] + us[1..];
      assert us[0] !in us[1..];
    }
  }

  /* ----- Racing deliveries of one run ----- */

  /** b is strictly ahead of a: no revision lower, one higher. */
  predicate Ahead(b: Manifest, a: Manifest) {
    && b.workspaceRevision >= a.workspaceRevision && b.factRevision >= a.factRevision
    && b.weatherRevision >= a.weatherRevision
    && (b.workspaceRevision > a.workspaceRevision || b.factRevision > a.factRevision
        || b.weatherRevision > a.weatherRevision)
  }

  predicate NotBehind(b: Manifest, a: Manifest) {
    && b.workspaceRevision >= a.workspaceRevision && b.factRevision >= a.factRevision
    && b.weatherRevision >= a.weatherRevision
  }

  /** Deliveries of one run whose bundle id determines the manifest. */
  ghost predicate OneRun(run: string, bundles: seq<Bundle>) {
    && (forall b | b in bundles :: b.manifest.runId == run)
    && (forall a, b | a in bundles && b in bundles && a.manifest.bundleId == b.manifest.bundleId ::
          a.manifest == b.manifest)
  }

  /** Nothing of this run is on screen yet. */
  predicate NotYetShown(s: State, run: string) {
    s.facts.deliveryBundle.Some? ==> s.facts.deliveryBundle.value.manifest.runId != run
  }

  function Confirms(bundles: seq<Bundle>): seq<Action> {
    seq(|bundles|, i requires 0 <= i < |bundles| => ConfirmDeliveryBundle(bundles[i]))
  }

  /** The delivery on screen after a list of confirmations. */
  function Shown(s: State, bundles: seq<Bundle>): Option<Bundle> {
    ReduceAll(s, Confirms(bundles)).facts.deliveryBundle
  }

  /** A manifest that is ahead of every other one delivered. */
  ghost predicate Greatest(m: Manifest, bundles: seq<Bundle>) {
    && (exists b :: b in bundles && b.manifest == m)
    && forall b | b in bundles :: b.manifest == m || Ahead(m, b.manifest)
  }

  lemma ShownStep(s: State, bundles: seq<Bundle>, b: Bundle)
    ensures Shown(s, bundles + [b]) == if CanConfirm(Shown(s, bundles), b) then Some(b) else Shown(s, bundles)
  {
    assert Confirms(bundles + [b]) == Confirms(bundles) + [ConfirmDeliveryBundle(b)];
    assert (Confirms(bundles) + [ConfirmDeliveryBundle(b)])[..|bundles|] == Confirms(bundles);
  }

  lemma FirstShown(s: State, run: string, bundles: seq<Bundle>)
    requires NotYetShown(s, run) && |bundles| > 0 && bundles[0].manifest.runId == run
    ensures Shown(s, bundles[..1]) == Some(bundles[0])
  {
    assert bundles[..0] + [bundles[0]] == bundles[..1];
    assert Confirms(bundles[..0]) == [];
    ShownStep(s, bundles[..0], bundles[0]);
    hide Reduce, Confirms;
  }

  /** A delivery offered to one of the same run leaves something shown that is the same or strictly ahead. */
  lemma OfferMovesAhead(shown: Bundle, b: Bundle)
    requires shown.manifest.runId == b.manifest.runId
    requires shown.manifest.bundleId == b.manifest.bundleId ==> shown.manifest == b.manifest
    ensures var now := if CanConfirm(Some(shown), b) then b else shown;
            now.manifest == shown.manifest || Ahead(now.manifest, shown.manifest)
  {
  }

  /** What is shown is one of the deliveries, and no revision shown ever decreases. */
  lemma {:induction false} ShownNeverGoesBack(s: State, run: string, bundles: seq<Bundle>, n: nat)
    requires NotYetShown(s, run) && OneRun(run, bundles) && 0 < n <= |bundles|
    ensures Shown(s, bundles[..n]).Some? && Shown(s, bundles[..n]).value in bundles[..n]
    ensures forall k | 0 < k <= n && Shown(s, bundles[..k]).Some? ::
              NotBehind(Shown(s, bundles[..n]).value.manifest, Shown(s, bundles[..k]).value.manifest)
    ensures var m := Shown(s, bundles[..n]).value.manifest; m == bundles[0].manifest || Ahead(m, bundles[0].manifest)
  {
    hide Shown, Confirms, CanConfirm, NotYetShown;
    if n == 1 {
      FirstShown(s, run, bundles);
    } else {
      var last := bundles[n - 1];
      assert bundles[..n] == bundles[..n - 1] + [last];
      ShownStep(s, bundles[..n - 1], last);
      ShownNeverGoesBack(s, run, bundles, n - 1);
      var before := Shown(s, bundles[..n - 1]).value;
      assert before in bundles && last in bundles;
      OfferMovesAhead(before, last);
    }
  }

  /** Once the greatest delivery has arrived it stays. */
  lemma {:induction false} GreatestStays(s: State, run: string, bundles: seq<Bundle>, m: Manifest, n: nat)
    requires NotYetShown(s, run) && OneRun(run, bundles) && Greatest(m, bundles) && n <= |bundles|
    ensures (exists b :: b in bundles[..n] && b.manifest == m) ==>
              Shown(s, bundles[..n]).Some? && Shown(s, bundles[..n]).value.manifest == m
  {
    if n > 0 {
      var last := bundles[n - 1];
      assert bundles[..n] == bundles[..n - 1] + [last];
      ShownStep(s, bundles[..n - 1], last);
      GreatestStays(s, run, bundles, m, n - 1);
      if n > 1 {
        ShownNeverGoesBack(s, run, bundles, n - 1);
        var before := Shown(s, bundles[..n - 1]).value;
        assert before in bundles && last in bundles;
      }
    }
  }

  /** Two delivery lists over the same set of bundles. */
  ghost predicate SameDeliveries(a: seq<Bundle>, b: seq<Bundle>) {
    forall x :: x in a <==> x in b
  }

  /** Every order, with any duplicates, ends at the same manifest. */
  ghost predicate Converges(s: State, bundles: seq<Bundle>, m: Manifest) {
    forall order: seq<Bundle> | SameDeliveries(order, bundles) ::
      Shown(s, order).Some? && Shown(s, order).value.manifest == m
  }

  /**
   Racing deliveries end at one manifest whatever their order and repetition
   exactly when one of them is ahead of all the others, and then it is that one.
   */
  lemma DeliveriesConverge(s: State, run: string, bundles: seq<Bundle>, m: Manifest)
    requires NotYetShown(s, run) && OneRun(run, bundles) && bundles != []
    ensures Converges(s, bundles, m) <==> Greatest(m, bundles)
  {
    if Greatest(m, bundles) {
      forall order: seq<Bundle> | SameDeliveries(order, bundles)
        ensures Shown(s, order).Some? && Shown(s, order).value.manifest == m
      {
        assert OneRun(run, order) && Greatest(m, order);
        GreatestStays(s, run, order, m, |order|);
        assert order[..|order|] == order;
      }
    }
    if Converges(s, bundles, m) {
      forall b | b in bundles
        ensures b.manifest == m || Ahead(m, b.manifest)
        ensures exists x :: x in bundles && x.manifest == m
      {
        var order := [b] + bundles;
        assert SameDeliveries(order, bundles);
        ShownNeverGoesBack(s, run, order, |order|);
        assert order[..|order|] == order && order[0] == b;
      }
      assert bundles[0] in bundles;
    }
  }

  /** Two deliveries of a run, neither behind the other in all revisions: whichever comes first stays. */
  lemma IncomparableDeliveriesRace(s: State, run: string, a: Bundle, b: Bundle)
    requires NotYetShown(s, run) && a.manifest.runId == b.manifest.runId == run
              && a.manifest.bundleId != b.manifest.bundleId
    requires !NotBehind(a.manifest, b.manifest) && !NotBehind(b.manifest, a.manifest)
    ensures Shown(s, [a, b]) == Some(a) && Shown(s, [b, a]) == Some(b)
  {
    FirstShown(s, run, [a]);
    FirstShown(s, run, [b]);
    hide Shown, Confirms, CanConfirm;
    assert [a][..1] == [a] && [b][..1] == [b];
    ShownStep(s, [a], b);
    ShownStep(s, [b], a);
    assert [a] + [b] == [a, b] && [b] + [a] == [b, a];
    IncomparableRefused(a, b);
    IncomparableRefused(b, a);
  }

  lemma IncomparableRefused(a: Bundle, b: Bundle)
    requires a.manifest.runId == b.manifest.runId && a.manifest.bundleId != b.manifest.bundleId
    requires !NotBehind(b.manifest, a.manifest)
    ensures CanConfirm(None, b) && !CanConfirm(Some(a), b)
  {
  }
}
