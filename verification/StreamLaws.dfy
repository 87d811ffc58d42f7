/**
 What whole lists of stream actions leave behind: reasoning text, usage totals, the order of messages.
 */
module StreamLaws {
  import opened Options
  import opened AppState

  /* ----- Reasoning text ----- */

  datatype Chunk = Chunk(agentName: string, text: string, freshId: string, now: Time)

  function Appends(chunks: seq<Chunk>): seq<Action> {
    seq(|chunks|, i requires 0 <= i < |chunks| =>
          AppendThinkingContent(chunks[i].agentName, chunks[i].text, chunks[i].freshId, chunks[i].now))
  }

  function Joined(chunks: seq<Chunk>): string {
    if chunks == [] then "" else Joined(chunks[..|chunks| - 1]) + chunks[|chunks| - 1].text
  }

  /** All reasoning text on screen, step after step. */
  function TextOf(steps: seq<Step>): string {
    if steps == [] then "" else TextOf(steps[..|steps| - 1]) + steps[|steps| - 1].content
  }

  predicate EndsInToolCall(steps: seq<Step>) {
    steps != [] && steps[|steps| - 1].isToolCall
  }

  lemma AppendReduces(s: State, agent: string, text: string, freshId: string, now: Time)
    ensures Reduce(s, AppendThinkingContent(agent, text, freshId, now)).facts
              == WithThinkingContent(s.facts, agent, text, freshId, now)
  {
    hide ReduceShell, ReduceThread, ReduceRun, ReduceMessages, ReduceChoices, ReduceCanvas, WithThinkingContent;
  }

  lemma AppendsOneMore(s: State, chunks: seq<Chunk>)
    requires chunks != []
    ensures var n := |chunks| - 1;
            var c, before := chunks[n], ReduceAll(s, Appends(chunks[..n])).facts;
            ReduceAll(s, Appends(chunks)).facts == WithThinkingContent(before, c.agentName, c.text, c.freshId, c.now)
  {
    var n := |chunks| - 1;
    assert Appends(chunks)[..n] == Appends(chunks[..n]);
    hide WithThinkingContent, Reduce;
    AppendReduces(ReduceAll(s, Appends(chunks[..n])), chunks[n].agentName, chunks[n].text, chunks[n].freshId,
        chunks[n].now);
  }

  lemma ReplacedText(steps: seq<Step>, step: Step)
    requires steps != []
    ensures TextOf(steps[|steps| - 1 := step]) == TextOf(steps[..|steps| - 1]) + step.content
  {
    assert steps[|steps| - 1 := step][..|steps| - 1] == steps[..|steps| - 1];
  }

  lemma OneChunk(f: Facts, c: Chunk)
    ensures var g := WithThinkingContent(f, c.agentName, c.text, c.freshId, c.now);
            && TextOf(g.thinkingSteps)
                  == TextOf(f.thinkingSteps) + (if EndsInToolCall(f.thinkingSteps) then "" else c.text)
            && EndsInToolCall(g.thinkingSteps) == EndsInToolCall(f.thinkingSteps)
            && (EndsInToolCall(f.thinkingSteps) ==> g == f)
  {
    var steps := f.thinkingSteps;
    if steps == [] {
      FirstText(FreshStep(c.agentName, c.text, c.freshId, c.now), steps);
    } else {
      var last := steps[|steps| - 1];
      ReplacedText(steps, last.(agentName := c.agentName, content := last.content + c.text,
                                stepName := THINKING_STEP_NAME));
      SplitText(steps, c.text);
    }
    hide TextOf, Mirrored;
  }

  lemma FirstText(step: Step, none: seq<Step>)
    requires none == []
    ensures TextOf([step]) == TextOf(none) + step.content
  {
    assert [step][..0] == [];
  }

  lemma SplitText(steps: seq<Step>, text: string)
    requires steps != []
    ensures TextOf(steps[..|steps| - 1]) + (steps[|steps| - 1].content + text) == TextOf(steps) + text
  {
  }

  lemma {:induction false} ChunksJoin(s: State, chunks: seq<Chunk>)
    ensures var r := ReduceAll(s, Appends(chunks)).facts;
            && EndsInToolCall(r.thinkingSteps) == EndsInToolCall(s.facts.thinkingSteps)
            && (if EndsInToolCall(s.facts.thinkingSteps) then r == s.facts
                else TextOf(r.thinkingSteps) == TextOf(s.facts.thinkingSteps) + Joined(chunks))
  {
    hide WithThinkingContent, TextOf, EndsInToolCall, Reduce;
    if chunks != [] {
      var n := |chunks| - 1;
      ChunksJoin(s, chunks[..n]);
      hide ReduceAll, Appends;
      AppendsOneMore(s, chunks);
      OneChunk(ReduceAll(s, Appends(chunks[..n])).facts, chunks[n]);
    } else {
      assert Appends(chunks) == [];
    }
  }

  /**
   However it is cut into chunks, streamed reasoning is added to the text on screen word for word, exactly when the
   last step is not a tool call; after a tool call all of it is dropped.
   */
  lemma ReasoningIsKeptIff(s: State, chunks: seq<Chunk>)
    requires Joined(chunks) != ""
    ensures TextOf(ReduceAll(s, Appends(chunks)).facts.thinkingSteps) == TextOf(s.facts.thinkingSteps) + Joined(chunks)
            <==> !EndsInToolCall(s.facts.thinkingSteps)
  {
    hide TextOf, EndsInToolCall, ReduceAll, Appends, Joined;
    ChunksJoin(s, chunks);
    var before, joined := TextOf(s.facts.thinkingSteps), Joined(chunks);
    assert |before + joined| > |before|;
  }

  /* ----- Usage ----- */

  function Usages(us: seq<Usage>): seq<Action> {
    seq(|us|, i requires 0 <= i < |us| => UsageUpdate(us[i]))
  }

  datatype Total = Total(calls: int, input: int, output: int, tokens: int, cost: real, known: bool, estimated: int)

  function Add(a: Total, b: Total): Total {
    Total(a.calls + b.calls, a.input + b.input, a.output + b.output, a.tokens + b.tokens, a.cost + b.cost,
          a.known || b.known, a.estimated + b.estimated)
  }

  /** What one update reports; missing totals are the sum of the two sides, a missing cost is not known. */
  function Reported(u: Usage): Total {
    Total(1, Or(u.inputTokens, 0), Or(u.outputTokens, 0),
          Or(u.totalTokens, Or(u.inputTokens, 0) + Or(u.outputTokens, 0)),
          Or(u.costUsd, 0.0), u.costUsd.Some?, if u.estimated then 1 else 0)
  }

  const ZERO := Total(0, 0, 0, 0, 0.0, false, 0)

  function SumOf(us: seq<Usage>): Total {
    if us == [] then ZERO else Add(SumOf(us[..|us| - 1]), Reported(us[|us| - 1]))
  }

  /** The totals shown for a run; another run's totals do not count. */
  function Shown(live: Option<CostLive>, runId: string): Total {
    if live.Some? && live.value.runId == runId then
      var l := live.value;
      Total(l.callCount, l.totalInputTokens, l.totalOutputTokens, l.totalTokens, l.totalCostUsd, l.costKnown,
          l.estimatedCount)
    else ZERO
  }

  lemma OneUsage(live: Option<CostLive>, u: Usage)
    ensures Shown(Some(WithUsage(live, u)), u.runId) == Add(Shown(live, u.runId), Reported(u))
    ensures WithUsage(live, u).runId == u.runId
  {
  }

  lemma UsageReduces(s: State, u: Usage)
    ensures Reduce(s, UsageUpdate(u)).facts.runCostLive == Some(WithUsage(s.facts.runCostLive, u))
  {
    hide ReduceShell, ReduceThread, ReduceMessages, ReduceSteps, ReduceChoices, ReduceCanvas, WithUsage;
  }

  lemma UsagesOneMore(s: State, us: seq<Usage>)
    requires us != []
    ensures var n := |us| - 1;
            ReduceAll(s, Usages(us)).facts.runCostLive
            == Some(WithUsage(ReduceAll(s, Usages(us[..n])).facts.runCostLive, us[n]))
  {
    var n := |us| - 1;
    assert Usages(us)[..n] == Usages(us[..n]);
    hide WithUsage, Reduce;
    UsageReduces(ReduceAll(s, Usages(us[..n])), us[n]);
  }

  lemma AddAssoc(a: Total, b: Total, c: Total)
    ensures Add(Add(a, b), c) == Add(a, Add(b, c))
  {
  }

  lemma ShownIsOfOneRun(live: CostLive, runId: string)
    requires live.runId != runId
    ensures Shown(Some(live), runId) == ZERO
  {
  }

  lemma SumOneMore(us: seq<Usage>, k: nat)
    requires k <= |us|
    ensures k == |us| ==> SumOf(us[k..]) == ZERO
    ensures k < |us| ==> SumOf(us[k..]) == Add(SumOf(us[..|us| - 1][k..]), Reported(us[|us| - 1]))
  {
    hide Add, Reported;
    if k < |us| {
      assert us[..|us| - 1][k..] == us[k..][..|us| - 1 - k];
    }
  }

  lemma NothingReduced(s: State, us: seq<Usage>)
    requires us == []
    ensures ReduceAll(s, Usages(us)) == s
  {
    assert Usages(us) == [];
  }

  /** The last update decides whose totals are shown, and adds what it reports to those of its run. */
  lemma LastUsage(s: State, us: seq<Usage>)
    requires us != []
    ensures var u := us[|us| - 1];
            var before, live := ReduceAll(s, Usages(us[..|us| - 1])).facts.runCostLive,
                                ReduceAll(s, Usages(us)).facts.runCostLive;
            && live.Some? && live.value.runId == u.runId
            && Shown(live, u.runId) == Add(Shown(before, u.runId), Reported(u))
            && (u.node.Some? ==> live.value.lastNode == u.node) && (u.agent.Some? ==> live.value.lastAgent == u.agent)
            && (before.Some? && before.value.runId == u.runId ==>
                  && (u.node.None? ==> live.value.lastNode == before.value.lastNode)
                  && (u.agent.None? ==> live.value.lastAgent == before.value.lastAgent))
            && (!(before.Some? && before.value.runId == u.runId) ==>
                  live.value.lastNode == u.node && live.value.lastAgent == u.agent)
            && forall other | other != u.runId :: Shown(live, other) == ZERO
  {
    hide Reduce, ReduceAll, Usages, Shown, Reported, Add;
    var u, before := us[|us| - 1], ReduceAll(s, Usages(us[..|us| - 1])).facts.runCostLive;
    UsagesOneMore(s, us);
    OneUsage(before, u);
    forall other | other != u.runId
      ensures Shown(Some(WithUsage(before, u)), other) == ZERO
    {
      ShownIsOfOneRun(WithUsage(before, u), other);
    }
  }

  /**
   After any usage updates of any runs, the totals of a run are everything reported since its updates last began: on top
   of what was shown before if no other run's update came first, and from nothing otherwise.
   */
  lemma {:induction false} UsageAddsUp(s: State, us: seq<Usage>, k: nat, runId: string)
    requires k <= |us| && (k > 0 ==> us[k - 1].runId != runId)
    requires forall i | k <= i < |us| :: us[i].runId == runId
    ensures Shown(ReduceAll(s, Usages(us)).facts.runCostLive, runId)
         == Add(if k == 0 then Shown(s.facts.runCostLive, runId) else ZERO, SumOf(us[k..]))
  {
    hide Reduce, ReduceAll, Usages, WithUsage, Shown, Reported, Add, SumOf;
    var start := if k == 0 then Shown(s.facts.runCostLive, runId) else ZERO;
    AddZero(start);
    SumOneMore(us, k);
    if us == [] {
      NothingReduced(s, us);
    } else {
      var n := |us| - 1;
      LastUsage(s, us);
      if k < |us| {
        UsageAddsUp(s, us[..n], k, runId);
        AddAssoc(start, SumOf(us[..n][k..]), Reported(us[n]));
      }
    }
  }

  lemma AddZero(a: Total)
    ensures Add(a, ZERO) == a
  {
  }

  /* ----- Paging history while messages arrive ----- */

  predicate PagesOrAdds(actions: seq<Action>) {
    forall i | 0 <= i < |actions| :: actions[i].PrependHistory? || actions[i].AddMessage?
  }

  /** The pages, the latest loaded one first. */
  function Pages(actions: seq<Action>): seq<Message> {
    if actions == [] then []
    else
      var last := actions[|actions| - 1];
      (if last.PrependHistory? then last.earlier else []) + Pages(actions[..|actions| - 1])
  }

  function Arrivals(actions: seq<Action>): seq<Message> {
    if actions == [] then []
    else
      var last := actions[|actions| - 1];
      Arrivals(actions[..|actions| - 1]) + (if last.AddMessage? then [last.message] else [])
  }

  /**
   However loading history interleaves with new messages, the thread is the pages, what was there, and the arrivals.
   */
  lemma {:induction false} ThreadKeepsItsOrder(s: State, actions: seq<Action>)
    requires PagesOrAdds(actions)
    ensures ReduceAll(s, actions).facts.currentMessages
              == Pages(actions) + (s.facts.currentMessages + Arrivals(actions))
  {
    hide Reduce;
    if actions != [] {
      var n := |actions| - 1;
      ThreadKeepsItsOrder(s, actions[..n]);
      OnePageOrMessage(ReduceAll(s, actions[..n]), actions[n]);
      var pages, old_, new_ := Pages(actions[..n]), s.facts.currentMessages, Arrivals(actions[..n]);
      if actions[n].AddMessage? {
        JoinRight(pages, old_, new_, [actions[n].message]);
      } else {
        JoinLeft(actions[n].earlier, pages, old_ + new_);
      }
    }
  }

  lemma OnePageOrMessage(s: State, a: Action)
    ensures a.PrependHistory? ==> Reduce(s, a).facts.currentMessages == a.earlier + s.facts.currentMessages
    ensures a.AddMessage? ==> Reduce(s, a).facts.currentMessages == s.facts.currentMessages + [a.message]
  {
  }

  lemma JoinRight(a: seq<Message>, b: seq<Message>, c: seq<Message>, d: seq<Message>)
    ensures (a + (b + c)) + d == [] + a + (b + (c + d)) == a + (b + (c + d))
  {
  }

  lemma JoinLeft(a: seq<Message>, b: seq<Message>, c: seq<Message>)
    ensures a + (b + c) == (a + b) + c
  {
  }
}
