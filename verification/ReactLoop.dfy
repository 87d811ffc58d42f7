/**
 streaming_react_loop (agents/utils.py): model rounds, tool calls, and the transcript they build.

 The model, the tools and the clock are an adversary: a script answers every question.  The answer of a tool call is
 what the workflow cache or execute_tool hands back.
 */
module ReactLoop {
  import opened Options
  import opened RunClock
  import opened Lists

  datatype Call = Call(id: string, name: string)

  /** Messages in the transcript; a Notice is the user-role message the loop adds by itself. */
  datatype Message =
    | System(content: string)
    | User(text: string)
    | Assistant(reply: string, calls: seq<Call>)
    | Tool(id: string, result: ToolResult)
    | Notice(allFailed: bool, unavailable: seq<string>)

  /** What a tool call comes to: a question for the user, a status, or an exception that is no cancellation. */
  datatype ToolAnswer =
    | Question(question: string)
    | Succeeded(text: string)
    | Failed(text: string)
    | Declared(text: string)
    | Raised(error: string)

  datatype ToolResult = Activated(names: seq<string>) | Content(answer: ToolAnswer)

  /**
   One call's part of the script: `unique` is the uuid at hand, `matches` what search_tools finds, `cancelledAfter` a
   cancellation that the call raises or that is noticed behind it.
   */
  datatype CallScript = CallScript(
    clock: Clock, unique: string, matches: seq<string>, answer: ToolAnswer, cancelledAfter: bool)

  datatype ModelAnswer =
    | Broke(partial: string)
    | Replied(content: string, blank: bool, calls: seq<Call>)

  datatype RoundScript = RoundScript(clock: Clock, model: ModelAnswer, calls: nat -> CallScript)

  datatype Config = Config(maxIterations: int, canAskUser: bool, deferred: bool, catalog: string, catalogAlone: string,
    initialTools: seq<string>)

  /** Why the loop ended, and with what text. */
  datatype Ending =
    | Text(text: string)
    | Pending(text: string, question: string)
    | RunCancelled
    | Propagated(error: string)
    | NameUnbound

  predicate IsSearch(c: Call) {
    c.name == "search_tools"
  }

  /** The id a tool message carries: the call's own, or an invented one when that is empty. */
  function ReplyId(c: Call, s: CallScript): string {
    if c.id != "" then c.id else "tool_" + s.unique
  }

  /* ----- Rounds and the transcript ----- */

  /** What one round leaves in the transcript: the reply, its tool messages, perhaps a notice. */
  datatype Round = Round(reply: string, calls: seq<Call>, tools: seq<Message>, notice: Option<Message>)

  predicate RoundForm(r: Round) {
    && |r.calls| > 0 && |r.tools| <= |r.calls|
    && (forall i | 0 <= i < |r.tools| :: r.tools[i].Tool?)
    && (r.notice.Some? ==> r.notice.value.Notice?)
  }

  function Messages(r: Round): seq<Message> {
    [Assistant(r.reply, r.calls)] + (r.tools + (if r.notice.Some? then [r.notice.value] else []))
  }

  function Transcript(rounds: seq<Round>): seq<Message> {
    if rounds == [] then [] else Messages(rounds[0]) + Transcript(rounds[1..])
  }

  lemma {:induction false} TranscriptGrows(rounds: seq<Round>, r: Round)
    ensures Transcript(rounds + [r]) == Transcript(rounds) + Messages(r)
  {
    if rounds == [] {
      assert rounds + [r] == [r] && Transcript([r][1..]) == [];
    } else {
      TranscriptGrows(rounds[1..], r);
      assert (rounds + [r])[1..] == rounds[1..] + [r];
    }
  }

  /** One tool message per call, same ids, same order. */
  predicate Answers(calls: seq<Call>, tools: seq<Message>) {
    |tools| == |calls| && forall i | 0 <= i < |calls| :: tools[i].Tool? && tools[i].id == calls[i].id
  }

  /**
   A transcript as providers want it: every assistant message with calls is followed by exactly one tool message per
   call, same ids and order, then at most one notice.
   */
  predicate WellFormed(m: seq<Message>)
    decreases |m|
  {
    m == [] ||
    (m[0].Assistant? && m[0].calls != [] && |m[0].calls| < |m| &&
     Answers(m[0].calls, m[1..|m[0].calls| + 1]) && WellFormed(PastNotice(m[|m[0].calls| + 1..])))
  }

  function PastNotice(m: seq<Message>): (rest: seq<Message>)
    ensures |rest| <= |m|
  {
    if m != [] && m[0].Notice? then m[1..] else m
  }

  /**
   The transcript of the rounds is well formed exactly when every round answered all its calls under their own ids.
   */
  lemma {:induction false} WellFormedRounds(rounds: seq<Round>)
    requires forall i | 0 <= i < |rounds| :: RoundForm(rounds[i])
    ensures WellFormed(Transcript(rounds)) <==>
              forall i | 0 <= i < |rounds| :: Answers(rounds[i].calls, rounds[i].tools)
  {
    if rounds != [] {
      var r, rest := rounds[0], rounds[1..];
      WellFormedRounds(rest);
      WellFormedStep(r, Transcript(rest));
      TranscriptOpens(rest);
      assert Transcript(rounds) == Messages(r) + Transcript(rest);
      hide WellFormed, Transcript, Answers, Messages;
      assert forall i | 0 <= i < |rest| :: rest[i] == rounds[i + 1];
      assert forall i | 0 < i < |rounds| :: rounds[i] == rest[i - 1];
    } else {
      assert Transcript(rounds) == [];
    }
  }

  lemma TranscriptOpens(rounds: seq<Round>)
    ensures Transcript(rounds) != [] ==> Transcript(rounds)[0].Assistant?
  {
  }

  lemma WellFormedUnfolds(m: seq<Message>, calls: seq<Call>, tools: seq<Message>, rest: seq<Message>)
    requires m != [] && m[0].Assistant? && m[0].calls == calls && calls != [] && |calls| < |m|
    requires m[1..|calls| + 1] == tools && PastNotice(m[|calls| + 1..]) == rest
    ensures WellFormed(m) <==> Answers(calls, tools) && WellFormed(rest)
  {
    hide Answers, PastNotice;
  }

  lemma WellFormedStep(r: Round, rest: seq<Message>)
    requires RoundForm(r) && (rest != [] ==> rest[0].Assistant?)
    ensures WellFormed(Messages(r) + rest) <==> Answers(r.calls, r.tools) && WellFormed(rest)
  {
    hide Messages, PastNotice, WellFormed;
    var m, n := Messages(r) + rest, |r.calls|;
    var tail := (if r.notice.Some? then [r.notice.value] else []) + rest;
    RoundOpens(r, rest, m, tail);
    TailPastNotice(r, rest, tail);
    if |r.tools| == n {
      hide Answers;
      WellFormedUnfolds(m, r.calls, r.tools, rest);
    } else {
      assert !Answers(r.calls, r.tools);
      ShortRound(r, m, tail);
    }
  }

  lemma ShortRound(r: Round, m: seq<Message>, tail: seq<Message>)
    requires |r.tools| < |r.calls| && (tail != [] ==> !tail[0].Tool?)
    requires |m| == 1 + |r.tools| + |tail| && m[0] == Assistant(r.reply, r.calls) && m[|r.tools| + 1..] == tail
    ensures !WellFormed(m)
  {
    hide WellFormed;
    if |r.calls| < |m| {
      assert m[1..|r.calls| + 1][|r.tools|] == tail[0];
    }
    UnansweredIsIllFormed(m);
  }

  lemma UnansweredIsIllFormed(m: seq<Message>)
    requires m != [] && m[0].Assistant? && (|m[0].calls| < |m| ==> !Answers(m[0].calls, m[1..|m[0].calls| + 1]))
    ensures !WellFormed(m)
  {
    hide Answers, PastNotice;
  }

  lemma RoundOpens(r: Round, rest: seq<Message>, m: seq<Message>, tail: seq<Message>)
    requires m == Messages(r) + rest && tail == (if r.notice.Some? then [r.notice.value] else []) + rest
    ensures |m| == 1 + |r.tools| + |tail| && m[0] == Assistant(r.reply, r.calls)
    ensures m[1..|r.tools| + 1] == r.tools && m[|r.tools| + 1..] == tail
  {
    assert m == [Assistant(r.reply, r.calls)] + (r.tools + tail);
  }

  lemma TailPastNotice(r: Round, rest: seq<Message>, tail: seq<Message>)
    requires RoundForm(r) && (rest != [] ==> rest[0].Assistant?)
    requires tail == (if r.notice.Some? then [r.notice.value] else []) + rest
    ensures PastNotice(tail) == rest && (tail != [] ==> !tail[0].Tool?)
  {
  }

  /* ----- The calls of one round ----- */

  datatype CallsEnd = AllAnswered | Denied | Asked(question: string) | CutOff | Stopped | Crashed(error: string)

  /** Why a call gets no tool message, if it gets none. */
  function StopAt(cfg: Config, c: Call, s: CallScript): Option<CallsEnd> {
    if s.clock.Cancelled? then Some(Stopped)
    else if s.clock.Closed? then Some(CutOff)
    else if IsSearch(c) then None
    else if s.answer.Raised? then Some(Crashed(s.answer.error))
    else if s.cancelledAfter then Some(Stopped)
    else if s.answer.Question? then Some(if cfg.canAskUser then Asked(s.answer.question) else Denied)
    else None
  }

  /**
   The outcomes of the first `n` calls: failures, successes, and the tools whose data source declared it has nothing.
   */
  datatype Tally = Tally(failed: nat, succeeded: nat, unavailable: seq<string>)

  function Counted(t: Tally, c: Call, a: ToolAnswer): Tally {
    if IsSearch(c) then t
    else match a
      case Failed(_) => t.(failed := t.failed + 1)
      case Succeeded(_) => t.(succeeded := t.succeeded + 1)
      case Declared(_) => t.(unavailable := t.unavailable + [c.name])
      case Question(_) | Raised(_) => t
  }

  function TallyOf(calls: seq<Call>, script: nat -> CallScript, n: nat): Tally
    requires n <= |calls|
  {
    if n == 0 then Tally(0, 0, []) else Counted(TallyOf(calls, script, n - 1), calls[n - 1], script(n - 1).answer)
  }

  /** The tools activated once `names` were found: each named one once, after those already active. */
  function Activate(active: seq<string>, names: seq<string>): (r: seq<string>)
    ensures active <= r && (NoDuplicates(active) ==> NoDuplicates(r))
    ensures forall x :: x in r <==> x in active || (x in names && x != "")
  {
    if names == [] then active
    else
      assert names == names[..|names| - 1] + [names[|names| - 1]];
      var before := Activate(active, names[..|names| - 1]);
      if names[|names| - 1] == "" then before else Add(before, names[|names| - 1])
  }

  method ActivateMatches(active: seq<string>, matches: seq<string>) returns (activated: seq<string>)
    ensures activated == Activate(active, matches)
  {
    activated := active;
    for i := 0 to |matches|
      invariant activated == Activate(active, matches[..i])
    {
      assert matches[..i + 1][..i] == matches[..i];
      if matches[i] != "" && matches[i] !in activated {
        activated := activated + [matches[i]];
      }
    }
    assert matches[..|matches|] == matches;
  }

  function ActiveAfter(active: seq<string>, calls: seq<Call>, script: nat -> CallScript, n: nat): (r: seq<string>)
    requires n <= |calls|
    ensures active <= r && (NoDuplicates(active) ==> NoDuplicates(r))
  {
    if n == 0 then active
    else if IsSearch(calls[n - 1]) then Activate(ActiveAfter(active, calls, script, n - 1), script(n - 1).matches)
    else ActiveAfter(active, calls, script, n - 1)
  }

  /** The tool messages of a round answer its calls from the first on, up to the first that stops. */
  ghost predicate Replies(cfg: Config, calls: seq<Call>, script: nat -> CallScript, tools: seq<Message>) {
    && |tools| <= |calls|
    && (forall i | 0 <= i < |tools| ::
          && tools[i].Tool? && StopAt(cfg, calls[i], script(i)) == None
          && (!IsSearch(calls[i]) ==> tools[i].result == Content(script(i).answer))
          && tools[i].id == (if calls[i].id != "" then calls[i].id else "tool_" + script(i).unique))
  }

  lemma RepliesGrow(cfg: Config, calls: seq<Call>, script: nat -> CallScript, tools: seq<Message>, m: Message)
    requires Replies(cfg, calls, script, tools) && |tools| < |calls|
    requires var c, s := calls[|tools|], script(|tools|);
             && m.Tool? && m.id == ReplyId(c, s) && StopAt(cfg, c, s) == None
             && (!IsSearch(c) ==> m.result == Content(s.answer))
    ensures Replies(cfg, calls, script, tools + [m])
  {
  }

  /** The message of a search names the tools it activated: those active after the call and not before. */
  ghost predicate TellsFinds(calls: seq<Call>, script: nat -> CallScript, active: seq<string>, tools: seq<Message>) {
    |tools| <= |calls| &&
    forall i | 0 <= i < |tools| && IsSearch(calls[i]) ::
      && tools[i].Tool? && tools[i].result.Activated?
      && ActiveAfter(active, calls, script, i) + tools[i].result.names == ActiveAfter(active, calls, script, i + 1)
  }

  lemma TellsMore(calls: seq<Call>, script: nat -> CallScript, active: seq<string>, tools: seq<Message>, m: Message)
    requires |tools| < |calls| && TellsFinds(calls, script, active, tools)
    requires IsSearch(calls[|tools|]) ==>
               && m.Tool? && m.result.Activated?
               && ActiveAfter(active, calls, script, |tools|) + m.result.names
               == ActiveAfter(active, calls, script, |tools| + 1)
    ensures TellsFinds(calls, script, active, tools + [m])
  {
    hide ActiveAfter, IsSearch;
  }

  /** What holds once the first calls are answered: the messages, the tools activated and the tally so far. */
  ghost predicate Answered(cfg: Config, calls: seq<Call>, script: nat -> CallScript, active: seq<string>,
                           tools: seq<Message>, activated: seq<string>, tally: Tally)
  {
    && |tools| <= |calls| && Replies(cfg, calls, script, tools) && TellsFinds(calls, script, active, tools)
    && tally == TallyOf(calls, script, |tools|) && activated == ActiveAfter(active, calls, script, |tools|)
  }

  lemma NoneAnswered(cfg: Config, calls: seq<Call>, script: nat -> CallScript, active: seq<string>, tools: seq<Message>)
    requires tools == []
    ensures Answered(cfg, calls, script, active, tools, active, Tally(0, 0, []))
  {
  }

  lemma TallyStep(calls: seq<Call>, script: nat -> CallScript, active: seq<string>, n: nat)
    requires n < |calls|
    ensures TallyOf(calls, script, n + 1) == Counted(TallyOf(calls, script, n), calls[n], script(n).answer)
    ensures ActiveAfter(active, calls, script, n + 1)
         == if IsSearch(calls[n]) then Activate(ActiveAfter(active, calls, script, n), script(n).matches)
            else ActiveAfter(active, calls, script, n)
  {
  }

  lemma SearchAnswered(cfg: Config, calls: seq<Call>, script: nat -> CallScript, active: seq<string>,
                       tools: seq<Message>, activated: seq<string>, tally: Tally, more: seq<string>, m: Message)
    requires Answered(cfg, calls, script, active, tools, activated, tally) && |tools| < |calls|
    requires var c, s := calls[|tools|], script(|tools|);
             && IsSearch(c) && StopAt(cfg, c, s) == None && more == Activate(activated, s.matches)
             && m == Tool(ReplyId(c, s), Activated(more[|activated|..]))
    ensures Answered(cfg, calls, script, active, tools + [m], more, tally)
  {
    hide TallyOf, ActiveAfter, Replies, TellsFinds, StopAt, IsSearch, NoDuplicates;
    TallyStep(calls, script, active, |tools|);
    RepliesGrow(cfg, calls, script, tools, m);
    TellsMore(calls, script, active, tools, m);
  }

  lemma ToolAnswered(cfg: Config, calls: seq<Call>, script: nat -> CallScript, active: seq<string>,
                     tools: seq<Message>, activated: seq<string>, tally: Tally, m: Message)
    requires Answered(cfg, calls, script, active, tools, activated, tally) && |tools| < |calls|
    requires var c, s := calls[|tools|], script(|tools|);
             !IsSearch(c) && StopAt(cfg, c, s) == None && m == Tool(ReplyId(c, s), Content(s.answer))
    ensures Answered(cfg, calls, script, active, tools + [m], activated,
                     Counted(tally, calls[|tools|], script(|tools|).answer))
  {
    hide TallyOf, Counted, ActiveAfter, Activate, Replies, TellsFinds, StopAt, IsSearch, NoDuplicates;
    TallyStep(calls, script, active, |tools|);
    RepliesGrow(cfg, calls, script, tools, m);
    TellsMore(calls, script, active, tools, m);
  }

  /** The inner loop over the calls of one assistant message. */
  method AnswerCalls(cfg: Config, calls: seq<Call>, script: nat -> CallScript, active: seq<string>)
    returns (tools: seq<Message>, end: CallsEnd, activated: seq<string>, tally: Tally)
    ensures Answered(cfg, calls, script, active, tools, activated, tally) && |tools| <= |calls|
    ensures if |tools| == |calls| then end == AllAnswered else StopAt(cfg, calls[|tools|], script(|tools|)) == Some(end)
  {
    tools, end, activated, tally := [], AllAnswered, active, Tally(0, 0, []);
    NoneAnswered(cfg, calls, script, active, tools);
    hide Answered, Activate, ReplyId, NoDuplicates, IsSearch;
    var i := 0;
    while i < |calls|
      invariant i <= |calls| && |tools| == i && end == AllAnswered
      invariant Answered(cfg, calls, script, active, tools, activated, tally)
    {
      var c, s := calls[i], script(i);
      var id := ReplyId(c, s);
      if s.clock.Cancelled? { end := Stopped; return; }
      if s.clock.Closed? { end := CutOff; return; }
      if IsSearch(c) {
        var more := ActivateMatches(activated, s.matches);
        var m := Tool(id, Activated(more[|activated|..]));
        SearchAnswered(cfg, calls, script, active, tools, activated, tally, more, m);
        tools, activated := tools + [m], more;
      } else {
        if s.answer.Raised? { end := Crashed(s.answer.error); return; }
        if s.cancelledAfter { end := Stopped; return; }
        if s.answer.Question? {
          end := if cfg.canAskUser then Asked(s.answer.question) else Denied;
          return;
        }
        var m := Tool(id, Content(s.answer));
        ToolAnswered(cfg, calls, script, active, tools, activated, tally, m);
        match s.answer {
          case Declared(_) => tally := tally.(unavailable := tally.unavailable + [c.name]);
          case Succeeded(_) => tally := tally.(succeeded := tally.succeeded + 1);
          case Failed(_) => tally := tally.(failed := tally.failed + 1);
        }
        tools := tools + [m];
      }
      i := i + 1;
    }
  }

  /**
   The notice after a round of `total` calls: nothing executed succeeded, or only data sources with nothing to say.
   */
  function NoticeFor(total: nat, t: Tally): Option<Message> {
    var allFailed := t.failed > 0 && t.failed == total - |t.unavailable|;
    var declared := t.unavailable != [] && t.succeeded == 0;
    if allFailed || declared then Some(Notice(allFailed, if declared then Distinct(t.unavailable) else [])) else None
  }

  /**
   The circuit breaker speaks exactly when every call was answered, something failed, and everything not declared
   unavailable failed; in a round left at its n-th call it is silent.
   */
  lemma BreakerMeaning(calls: seq<Call>, script: nat -> CallScript, n: nat)
    requires n <= |calls|
    ensures var t := TallyOf(calls, script, n);
            (t.failed > 0 && t.failed == |calls| - |t.unavailable|) <==>
            && n == |calls|
            && (exists i | 0 <= i < |calls| :: !IsSearch(calls[i]) && script(i).answer.Failed?)
            && (forall i | 0 <= i < |calls| ::
                  !IsSearch(calls[i]) && (script(i).answer.Failed? || script(i).answer.Declared?))
  {
    BreakerCounts(calls, script, n);
  }

  /* ----- What the notice says ----- */

  predicate Declares(c: Call, s: CallScript) {
    c.name != "search_tools" && s.answer.Declared?
  }

  /** All calls were answered, something failed, and nothing but failures and declarations came back. */
  ghost predicate AllFailed(s: RoundScript, r: Round) {
    && |r.tools| == |r.calls|
    && (exists i | 0 <= i < |r.calls| :: r.calls[i].name != "search_tools" && s.calls(i).answer.Failed?)
    && forall i | 0 <= i < |r.calls| ::
         r.calls[i].name != "search_tools" && (s.calls(i).answer.Failed? || s.calls(i).answer.Declared?)
  }

  /** Of the calls answered some were declared to have no data, and none succeeded. */
  ghost predicate NothingToSay(s: RoundScript, r: Round)
    requires |r.tools| <= |r.calls|
  {
    && (exists i | 0 <= i < |r.tools| :: Declares(r.calls[i], s.calls(i)))
    && forall i | 0 <= i < |r.tools| :: r.calls[i].name != "search_tools" ==> !s.calls(i).answer.Succeeded?
  }

  /** The tools declared to have no data, each once, in the order of their first declared calls. */
  ghost predicate ListsDeclared(calls: seq<Call>, script: nat -> CallScript, n: nat, names: seq<string>)
    requires n <= |calls|
  {
    && NoDuplicates(names)
    && (forall x :: x in names <==> exists i | 0 <= i < n :: Declares(calls[i], script(i)) && calls[i].name == x)
    && forall a, b | 0 <= a < b < |names| ::
         DeclaredBefore(calls, script, n, names[a], names[b])
  }

  /** What the model is told after a round, by what the calls came to. */
  ghost predicate NoticeTells(s: RoundScript, r: Round) {
    && |r.tools| <= |r.calls|
    && (r.notice == None <==> !AllFailed(s, r) && !NothingToSay(s, r))
    && (r.notice.Some? ==>
          && r.notice.value.Notice? && (r.notice.value.allFailed <==> AllFailed(s, r))
          && if NothingToSay(s, r) then ListsDeclared(r.calls, s.calls, |r.tools|, r.notice.value.unavailable)
             else r.notice.value.unavailable == [])
  }

  /** Where the calls stand whose names the tally lists. */
  ghost predicate StandAt(calls: seq<Call>, script: nat -> CallScript, n: nat, names: seq<string>, at: seq<nat>)
    requires n <= |calls|
  {
    && |at| == |names| && (forall k, l | 0 <= k < l < |at| :: at[k] < at[l])
    && (forall k | 0 <= k < |at| ::
          at[k] < n && Declares(calls[at[k]], script(at[k])) && calls[at[k]].name == names[k])
    && forall i | 0 <= i < n && Declares(calls[i], script(i)) :: i in at
  }

  lemma {:induction false} DeclaredStandAt(calls: seq<Call>, script: nat -> CallScript, n: nat) returns (at: seq<nat>)
    requires n <= |calls|
    ensures StandAt(calls, script, n, TallyOf(calls, script, n).unavailable, at)
  {
    at := [];
    if n > 0 {
      at := DeclaredStandAt(calls, script, n - 1);
      if Declares(calls[n - 1], script(n - 1)) {
        assert (at + [n - 1])[|at|] == n - 1;
        at := at + [n - 1];
      }
    }
  }

  /** Some declared call of the one tool comes before every declared call of the other. */
  ghost predicate DeclaredBefore(calls: seq<Call>, script: nat -> CallScript, n: nat, x: string, y: string)
    requires n <= |calls|
  {
    exists i | 0 <= i < n :: Declares(calls[i], script(i)) && calls[i].name == x &&
      forall j | 0 <= j <= i && Declares(calls[j], script(j)) :: calls[j].name != y
  }

  lemma NamesAreDeclared(calls: seq<Call>, script: nat -> CallScript, n: nat, names: seq<string>, at: seq<nat>,
                         x: string)
    requires n <= |calls| && StandAt(calls, script, n, names, at)
    ensures x in names <==> exists i | 0 <= i < n :: Declares(calls[i], script(i)) && calls[i].name == x
  {
    hide Declares;
    if x in names {
      var k :| 0 <= k < |names| && names[k] == x;
      assert Declares(calls[at[k]], script(at[k]));
    }
    if i :| 0 <= i < n && Declares(calls[i], script(i)) && calls[i].name == x {
      var k :| 0 <= k < |at| && at[k] == i;
      assert names[k] == x;
    }
  }

  lemma NamesInOrder(calls: seq<Call>, script: nat -> CallScript, n: nat, names: seq<string>, at: seq<nat>, x: string,
                     y: string)
    requires n <= |calls| && StandAt(calls, script, n, names, at)
    requires x in names && y in names && IndexOf(names, x) < IndexOf(names, y)
    ensures DeclaredBefore(calls, script, n, x, y)
  {
    hide Declares, IndexOf;
    var k, l := IndexOf(names, x), IndexOf(names, y);
    var i := at[k];
    forall j | 0 <= j <= i && Declares(calls[j], script(j))
      ensures calls[j].name != y
    {
      var m :| 0 <= m < |at| && at[m] == j;
      assert m <= k < l;
      assert names[..l][m] == names[m];
    }
    assert Declares(calls[i], script(i));
  }

  lemma DistinctListsDeclared(calls: seq<Call>, script: nat -> CallScript, n: nat, names: seq<string>, at: seq<nat>)
    requires n <= |calls| && StandAt(calls, script, n, names, at)
    ensures ListsDeclared(calls, script, n, Distinct(names))
  {
    hide Distinct, Declares, IndexOf, StandAt, DeclaredBefore;
    var once := Distinct(names);
    forall x
      ensures x in once <==> exists i | 0 <= i < n :: Declares(calls[i], script(i)) && calls[i].name == x
    {
      NamesAreDeclared(calls, script, n, names, at, x);
    }
    forall a, b | 0 <= a < b < |once|
      ensures DeclaredBefore(calls, script, n, once[a], once[b])
    {
      DistinctByFirstAppearance(names, once[a], once[b]);
      IndexOfUnique(once, a);
      IndexOfUnique(once, b);
      NamesInOrder(calls, script, n, names, at, once[a], once[b]);
    }
  }

  lemma {:induction false} SucceededCounts(calls: seq<Call>, script: nat -> CallScript, n: nat)
    requires n <= |calls|
    ensures TallyOf(calls, script, n).succeeded == 0 <==>
              forall i | 0 <= i < n :: calls[i].name != "search_tools" ==> !script(i).answer.Succeeded?
    ensures TallyOf(calls, script, n).unavailable == [] <==>
              forall i | 0 <= i < n :: !Declares(calls[i], script(i))
  {
    if n > 0 {
      SucceededCounts(calls, script, n - 1);
    }
  }

  /**
   The notice after a round that does not end the loop: it claims that all failed exactly when all did, names the tools
   whose data source has nothing exactly when nothing succeeded beside them, and is left out when neither holds.
   */
  lemma NoticeMeans(cfg: Config, s: RoundScript, r: Round)
    requires Faithful(cfg, s, r)
    ensures NoticeTells(s, r)
  {
    hide TallyOf, Replies, StopAt, ListsDeclared, Distinct;
    var n := |r.tools|;
    FaithfulFits(cfg, s, r);
    BreakerMeaning(r.calls, s.calls, n);
    SucceededCounts(r.calls, s.calls, n);
    var at := DeclaredStandAt(r.calls, s.calls, n);
    DistinctListsDeclared(r.calls, s.calls, n, TallyOf(r.calls, s.calls, n).unavailable, at);
  }

  lemma FaithfulFits(cfg: Config, s: RoundScript, r: Round)
    requires Faithful(cfg, s, r)
    ensures |r.tools| <= |r.calls|
  {
  }

  lemma {:induction false} BreakerCounts(calls: seq<Call>, script: nat -> CallScript, n: nat)
    requires n <= |calls|
    ensures var t := TallyOf(calls, script, n);
            && t.failed + t.succeeded + |t.unavailable| <= n
            && (t.failed > 0 <==> exists i | 0 <= i < n :: !IsSearch(calls[i]) && script(i).answer.Failed?)
            && (t.failed + |t.unavailable| == n <==>
                  forall i | 0 <= i < n ::
                      !IsSearch(calls[i]) && (script(i).answer.Failed? || script(i).answer.Declared?))
  {
    if n > 0 {
      BreakerCounts(calls, script, n - 1);
    }
  }

  /* ----- The loop ----- */

  /** The transcript the loop starts from: with deferred exposure, the catalog joins or becomes the system message. */
  function Base(cfg: Config, m: seq<Message>): seq<Message> {
    if !cfg.deferred then m
    else if m != [] && m[0].System? then [System(m[0].content + cfg.catalog)] + m[1..]
    else [System(cfg.catalogAlone)] + m
  }

  function EffectiveIterations(cfg: Config): int {
    cfg.maxIterations + (if cfg.deferred then 1 else 0)
  }

  /** What the model was given: the transcript and the tools it may name. */
  datatype ModelCall = ModelCall(messages: seq<Message>, tools: seq<string>)

  /** The last reply with any text in the first `n` rounds. */
  function LastText(script: nat -> RoundScript, n: nat): string {
    if n == 0 then ""
    else match script(n - 1).model
      case Replied(content, false, _) => content
      case _ => LastText(script, n - 1)
  }

  function Either(text: string, otherwise: string): string {
    if text != "" then text else otherwise
  }

  function OrLast(script: nat -> RoundScript, n: nat): string
    requires n > 0
  {
    match script(n - 1).model
    case Replied(content, _, _) => if content != "" then content else LastText(script, n)
    case Broke(_) => LastText(script, n)
  }

  /** Round `r` is what the script's answers make of it; it was left early only by a question nobody may ask. */
  ghost predicate Faithful(cfg: Config, s: RoundScript, r: Round) {
    && s.model.Replied? && s.model.calls != [] && r.calls == s.model.calls && r.reply == s.model.content
    && Replies(cfg, r.calls, s.calls, r.tools)
    && (|r.tools| < |r.calls| ==> StopAt(cfg, r.calls[|r.tools|], s.calls(|r.tools|)) == Some(Denied))
    && r.notice == NoticeFor(|r.calls|, TallyOf(r.calls, s.calls, |r.tools|))
  }

  ghost predicate AllFaithful(cfg: Config, script: nat -> RoundScript, rounds: seq<Round>) {
    forall j | 0 <= j < |rounds| :: Faithful(cfg, script(j), rounds[j])
  }

  /** The tools activated in the first `n` rounds. */
  function ActiveTools(cfg: Config, script: nat -> RoundScript, rounds: seq<Round>, n: nat): (r: seq<string>)
    requires n <= |rounds| && AllFaithful(cfg, script, rounds)
    ensures NoDuplicates(r)
  {
    if n == 0 then []
    else
      ActiveAfter(ActiveTools(cfg, script, rounds, n - 1), rounds[n - 1].calls, script(n - 1).calls,
          |rounds[n - 1].tools|)
  }

  /** Every model call saw the base and all rounds before it, and the tools activated so far. */
  ghost predicate SawEverything(cfg: Config, base: seq<Message>, script: nat -> RoundScript, rounds: seq<Round>,
                                seen: seq<ModelCall>)
    requires AllFaithful(cfg, script, rounds)
  {
    |rounds| <= |seen| <= |rounds| + 1 &&
    forall j | 0 <= j < |seen| ::
      seen[j] == ModelCall(base + Transcript(rounds[..j]), cfg.initialTools + ActiveTools(cfg, script, rounds, j))
  }

  /** A round whose calls all carry ids and none of whose tools puts a question to the user. */
  ghost predicate Clean(s: RoundScript) {
    s.model.Replied? && forall i | 0 <= i < |s.model.calls| ::
      s.model.calls[i].id != "" && (!IsSearch(s.model.calls[i]) ==> !s.calls(i).answer.Question?)
  }

  lemma CleanRoundAnswers(cfg: Config, s: RoundScript, r: Round)
    requires Faithful(cfg, s, r)
    ensures RoundForm(r) && (Answers(r.calls, r.tools) <==> Clean(s))
  {
    hide IsSearch, TallyOf;
    var n := |r.tools|;
    if n < |r.calls| {
      assert StopAt(cfg, r.calls[n], s.calls(n)) == Some(Denied);
      assert !IsSearch(s.model.calls[n]) && s.calls(n).answer.Question?;
    } else {
      if Answers(r.calls, r.tools) {
        forall i | 0 <= i < |r.calls|
          ensures r.calls[i].id != "" && (!IsSearch(r.calls[i]) ==> !s.calls(i).answer.Question?)
        {
          assert r.tools[i].id == r.calls[i].id;
        }
      }
      if Clean(s) {
        forall i | 0 <= i < |r.tools|
          ensures r.tools[i].id == r.calls[i].id
        {
          assert s.model.calls[i].id != "";
        }
      }
    }
  }

  /** How a round's calls end: all are answered, or the first that gets no tool message says why. */
  ghost predicate CallsEndAs(cfg: Config, s: RoundScript, end: CallsEnd)
    requires s.model.Replied?
  {
    exists i | 0 <= i <= |s.model.calls| :: FirstStop(cfg, s, i, end)
  }

  ghost predicate FirstStop(cfg: Config, s: RoundScript, i: nat, end: CallsEnd)
    requires s.model.Replied? && i <= |s.model.calls|
  {
    && (forall j | 0 <= j < i :: StopAt(cfg, s.model.calls[j], s.calls(j)) == None)
    && if i == |s.model.calls| then end == AllAnswered else StopAt(cfg, s.model.calls[i], s.calls(i)) == Some(end)
  }

  /** A round that leads to the next one. */
  ghost predicate GoesOn(cfg: Config, s: RoundScript) {
    && s.clock.Open? && s.model.Replied? && s.model.calls != []
    && (CallsEndAs(cfg, s, AllAnswered) || CallsEndAs(cfg, s, Denied))
  }

  ghost predicate AllGoOn(cfg: Config, script: nat -> RoundScript, k: nat) {
    forall j | 0 <= j < k :: GoesOn(cfg, script(j))
  }

  /** The loop ends at the top of round `k`, without a further model call. */
  ghost predicate EndsAtTop(cfg: Config, script: nat -> RoundScript, k: nat, ending: Ending) {
    if k >= EffectiveIterations(cfg) then
      ending == if k == 0 then NameUnbound else Text(OrLast(script, k))
    else
      match script(k).clock
      case Open => false
      case Cancelled => ending == RunCancelled
      case Closed => ending == Text(LastText(script, k))
  }

  /** The loop ends in round `k`, once the model was called. */
  ghost predicate EndsInRound(cfg: Config, script: nat -> RoundScript, k: nat, ending: Ending) {
    && k < EffectiveIterations(cfg) && script(k).clock.Open?
    && match script(k).model
       case Broke(partial) => ending == Text(partial)
       case Replied(content, _, calls) =>
         if calls == [] then ending == Text(content)
         else exists end :: CallsEndAs(cfg, script(k), end) && EndsBy(script, k, end, ending)
  }

  /** The ending that follows when the calls of round `k` end this way. */
  predicate EndsBy(script: nat -> RoundScript, k: nat, end: CallsEnd, ending: Ending)
    requires script(k).model.Replied?
  {
    match end
    case AllAnswered | Denied => false
    case Asked(q) => ending == Pending(script(k).model.content, q)
    case CutOff => ending == Text(OrLast(script, k + 1))
    case Stopped => ending == RunCancelled
    case Crashed(error) => ending == Propagated(error)
  }

  /** After `k` rounds that each led to the next, and `n` model calls, the loop ends this way. */
  ghost predicate EndsAs(cfg: Config, script: nat -> RoundScript, k: nat, n: nat, ending: Ending) {
    && AllGoOn(cfg, script, k) && (k > 0 ==> k <= EffectiveIterations(cfg))
    && (|| (n == k && EndsAtTop(cfg, script, k, ending))
        || (n == k + 1 && EndsInRound(cfg, script, k, ending)))
  }

  lemma FirstStopIsUnique(cfg: Config, s: RoundScript, i: nat, end: CallsEnd, i': nat, end': CallsEnd)
    requires s.model.Replied? && i <= |s.model.calls| && i' <= |s.model.calls|
    requires FirstStop(cfg, s, i, end) && FirstStop(cfg, s, i', end')
    ensures i == i' && end == end'
  {
    hide StopAt;
  }

  lemma CallsEndOnce(cfg: Config, s: RoundScript)
    requires s.model.Replied?
    ensures forall end, end' :: CallsEndAs(cfg, s, end) && CallsEndAs(cfg, s, end') ==> end == end'
  {
    hide FirstStop;
    forall end, end' | CallsEndAs(cfg, s, end) && CallsEndAs(cfg, s, end')
      ensures end == end'
    {
      var i :| 0 <= i <= |s.model.calls| && FirstStop(cfg, s, i, end);
      var i' :| 0 <= i' <= |s.model.calls| && FirstStop(cfg, s, i', end');
      FirstStopIsUnique(cfg, s, i, end, i', end');
    }
  }

  lemma EndingStopsHere(cfg: Config, script: nat -> RoundScript, k: nat, ending: Ending)
    ensures EndsInRound(cfg, script, k, ending) ==> !GoesOn(cfg, script(k))
    ensures k < EffectiveIterations(cfg) && EndsAtTop(cfg, script, k, ending) ==> !GoesOn(cfg, script(k))
  {
    hide CallsEndAs, LastText, OrLast;
    if script(k).model.Replied? { CallsEndOnce(cfg, script(k)); }
  }

  /** A script and a bound fix how many rounds are played, how often the model is called, and the ending. */
  lemma OneEnding(cfg: Config, script: nat -> RoundScript, k: nat, n: nat, ending: Ending, k': nat, n': nat,
                  ending': Ending)
    requires EndsAs(cfg, script, k, n, ending) && EndsAs(cfg, script, k', n', ending')
    ensures k == k' && n == n' && ending == ending'
  {
    hide GoesOn, EndsAtTop, EndsInRound;
    EndingStopsHere(cfg, script, k, ending);
    EndingStopsHere(cfg, script, k', ending');
    EndsOnceHere(cfg, script, k, ending, ending');
    EndsOnceHere(cfg, script, k, ending', ending);
    assert k < k' ==> GoesOn(cfg, script(k));
    assert k' < k ==> GoesOn(cfg, script(k'));
  }

  lemma EndsOnceHere(cfg: Config, script: nat -> RoundScript, k: nat, ending: Ending, ending': Ending)
    ensures EndsAtTop(cfg, script, k, ending) && EndsAtTop(cfg, script, k, ending') ==> ending == ending'
    ensures EndsInRound(cfg, script, k, ending) && EndsInRound(cfg, script, k, ending') ==> ending == ending'
    ensures !(EndsAtTop(cfg, script, k, ending) && EndsInRound(cfg, script, k, ending'))
  {
    hide CallsEndAs, LastText, OrLast;
    if script(k).model.Replied? { CallsEndOnce(cfg, script(k)); }
  }

  /** Every search was answered by the tools it activated. */
  ghost predicate AllFindsTold(cfg: Config, script: nat -> RoundScript, rounds: seq<Round>)
    requires AllFaithful(cfg, script, rounds)
  {
    forall j | 0 <= j < |rounds| ::
      TellsFinds(rounds[j].calls, script(j).calls, ActiveTools(cfg, script, rounds, j), rounds[j].tools)
  }

  /** What holds from the first model call on: each saw everything before it, and nothing of that is ever rewritten. */
  ghost predicate History(cfg: Config, base: seq<Message>, script: nat -> RoundScript, rounds: seq<Round>,
                          seen: seq<ModelCall>, messages: seq<Message>)
  {
    && AllFaithful(cfg, script, rounds) && AllFindsTold(cfg, script, rounds)
    && SawEverything(cfg, base, script, rounds, seen) && base + Transcript(rounds) <= messages
  }

  /** The loop's state at the top of a round. */
  ghost predicate AtTop(cfg: Config, base: seq<Message>, script: nat -> RoundScript, rounds: seq<Round>,
                        seen: seq<ModelCall>, messages: seq<Message>, active: seq<string>)
  {
    && History(cfg, base, script, rounds, seen, messages) && |seen| == |rounds|
    && messages == base + Transcript(rounds) && active == ActiveTools(cfg, script, rounds, |rounds|)
  }

  lemma Starts(cfg: Config, script: nat -> RoundScript, base: seq<Message>, rounds: seq<Round>, seen: seq<ModelCall>)
    requires rounds == [] && seen == []
    ensures AtTop(cfg, base, script, rounds, seen, base, [])
    ensures LastText(script, |seen|) == "" && AllGoOn(cfg, script, |seen|)
  {
  }

  /** The model calls so far and one more, on `messages` and the tools now exposed. */
  function WithCall(cfg: Config, seen: seq<ModelCall>, messages: seq<Message>, active: seq<string>): (r: seq<ModelCall>)
    ensures |r| == |seen| + 1
  {
    seen + [ModelCall(messages, cfg.initialTools + active)]
  }

  lemma CallStep(cfg: Config, base: seq<Message>, script: nat -> RoundScript, rounds: seq<Round>, seen: seq<ModelCall>,
                 messages: seq<Message>, active: seq<string>)
    requires AtTop(cfg, base, script, rounds, seen, messages, active)
    ensures History(cfg, base, script, rounds, WithCall(cfg, seen, messages, active), messages)
  {
    hide Transcript, ActiveTools, AllFaithful, AllFindsTold;
    assert rounds[..|rounds|] == rounds;
  }

  lemma MoreMessages(cfg: Config, base: seq<Message>, script: nat -> RoundScript, rounds: seq<Round>,
                     seen: seq<ModelCall>, messages: seq<Message>, more: seq<Message>)
    requires History(cfg, base, script, rounds, seen, messages)
    ensures History(cfg, base, script, rounds, seen, messages + more)
  {
    hide Transcript, SawEverything, AllFaithful, AllFindsTold;
  }

  lemma {:induction false} ActiveToolsStable(cfg: Config, script: nat -> RoundScript, rounds: seq<Round>, r: Round,
                                             n: nat)
    requires n <= |rounds| && AllFaithful(cfg, script, rounds) && AllFaithful(cfg, script, rounds + [r])
    ensures ActiveTools(cfg, script, rounds + [r], n) == ActiveTools(cfg, script, rounds, n)
  {
    hide ActiveAfter, Faithful;
    if n > 0 {
      ActiveToolsStable(cfg, script, rounds, r, n - 1);
      assert (rounds + [r])[n - 1] == rounds[n - 1];
    }
  }

  lemma FaithfulGrows(cfg: Config, script: nat -> RoundScript, rounds: seq<Round>, r: Round)
    requires AllFaithful(cfg, script, rounds) && Faithful(cfg, script(|rounds|), r)
    ensures AllFaithful(cfg, script, rounds + [r])
  {
    hide Faithful;
  }

  lemma SawStable(cfg: Config, base: seq<Message>, script: nat -> RoundScript, rounds: seq<Round>, seen: seq<ModelCall>,
                  r: Round)
    requires AllFaithful(cfg, script, rounds) && AllFaithful(cfg, script, rounds + [r])
    requires SawEverything(cfg, base, script, rounds, seen) && |seen| == |rounds| + 1
    ensures SawEverything(cfg, base, script, rounds + [r], seen)
  {
    hide AllFaithful, ActiveTools, Transcript;
    forall j | 0 <= j < |seen|
      ensures seen[j] == ModelCall(base + Transcript((rounds + [r])[..j]),
                cfg.initialTools + ActiveTools(cfg, script, rounds + [r], j))
    {
      assert (rounds + [r])[..j] == rounds[..j];
      ActiveToolsStable(cfg, script, rounds, r, j);
    }
  }

  lemma FindsStable(cfg: Config, script: nat -> RoundScript, rounds: seq<Round>, r: Round)
    requires AllFaithful(cfg, script, rounds) && AllFaithful(cfg, script, rounds + [r])
    requires AllFindsTold(cfg, script, rounds)
    requires TellsFinds(r.calls, script(|rounds|).calls, ActiveTools(cfg, script, rounds, |rounds|), r.tools)
    ensures AllFindsTold(cfg, script, rounds + [r])
  {
    hide AllFaithful, Faithful, ActiveTools, TellsFinds;
    var longer := rounds + [r];
    forall j | 0 <= j < |longer|
      ensures TellsFinds(longer[j].calls, script(j).calls, ActiveTools(cfg, script, longer, j), longer[j].tools)
    {
      ActiveToolsStable(cfg, script, rounds, r, j);
    }
  }

  lemma ActiveStep(cfg: Config, script: nat -> RoundScript, rounds: seq<Round>, r: Round)
    requires AllFaithful(cfg, script, rounds) && AllFaithful(cfg, script, rounds + [r])
    ensures ActiveTools(cfg, script, rounds + [r], |rounds| + 1)
         == ActiveAfter(ActiveTools(cfg, script, rounds, |rounds|), r.calls, script(|rounds|).calls, |r.tools|)
  {
    ActiveToolsStable(cfg, script, rounds, r, |rounds|);
    hide ActiveAfter, AllFaithful;
    assert (rounds + [r])[|rounds|] == r;
  }

  lemma RoundStep(cfg: Config, base: seq<Message>, script: nat -> RoundScript, rounds: seq<Round>, seen: seq<ModelCall>,
                  messages: seq<Message>, active: seq<string>, r: Round, activated: seq<string>)
    requires AtTop(cfg, base, script, rounds, seen, messages, active) && Faithful(cfg, script(|rounds|), r)
    requires TellsFinds(r.calls, script(|rounds|).calls, active, r.tools)
    requires activated == ActiveAfter(active, r.calls, script(|rounds|).calls, |r.tools|)
    ensures AtTop(cfg, base, script, rounds + [r], WithCall(cfg, seen, messages, active),
                  messages + Messages(r), activated)
  {
    hide Transcript, AllFaithful, AllFindsTold, TellsFinds, SawEverything, ActiveAfter, Messages, Faithful, ActiveTools;
    CallStep(cfg, base, script, rounds, seen, messages, active);
    FaithfulGrows(cfg, script, rounds, r);
    SawStable(cfg, base, script, rounds, WithCall(cfg, seen, messages, active), r);
    FindsStable(cfg, script, rounds, r);
    TranscriptGrows(rounds, r);
    ActiveStep(cfg, script, rounds, r);
    assert messages + Messages(r) == base + (Transcript(rounds) + Messages(r));
  }

  lemma EndsBeforeModel(cfg: Config, script: nat -> RoundScript, k: nat)
    requires AllGoOn(cfg, script, k) && k < EffectiveIterations(cfg)
    ensures script(k).clock.Cancelled? ==> EndsAs(cfg, script, k, k, RunCancelled)
    ensures script(k).clock.Closed? ==> EndsAs(cfg, script, k, k, Text(LastText(script, k)))
  {
    hide LastText, OrLast;
  }

  lemma EndsWithModel(cfg: Config, script: nat -> RoundScript, k: nat, s: RoundScript)
    requires AllGoOn(cfg, script, k) && k < EffectiveIterations(cfg) && s == script(k) && s.clock.Open?
    ensures s.model.Broke? ==> EndsAs(cfg, script, k, k + 1, Text(s.model.partial))
    ensures s.model.Replied? && s.model.calls == [] ==> EndsAs(cfg, script, k, k + 1, Text(s.model.content))
  {
    hide LastText, OrLast;
  }

  lemma EndsWithCalls(cfg: Config, script: nat -> RoundScript, k: nat, s: RoundScript, end: CallsEnd, ending: Ending)
    requires AllGoOn(cfg, script, k) && k < EffectiveIterations(cfg) && s == script(k) && s.clock.Open?
    requires s.model.Replied? && s.model.calls != [] && CallsEndAs(cfg, s, end) && EndsBy(script, k, end, ending)
    ensures EndsAs(cfg, script, k, k + 1, ending)
  {
    hide GoesOn, EndsBy, CallsEndAs;
  }

  lemma EndsExhausted(cfg: Config, script: nat -> RoundScript, k: nat, content: string)
    requires AllGoOn(cfg, script, k) && k >= EffectiveIterations(cfg) && (k > 0 ==> k == EffectiveIterations(cfg))
    requires k > 0 ==> script(k - 1).model.Replied? && content == script(k - 1).model.content
    ensures EndsAs(cfg, script, k, k, if k == 0 then NameUnbound else Text(Either(content, LastText(script, k))))
  {
    hide LastText;
  }

  lemma GoOnStep(cfg: Config, script: nat -> RoundScript, k: nat, end: CallsEnd)
    requires AllGoOn(cfg, script, k) && script(k).clock.Open?
    requires script(k).model.Replied? && script(k).model.calls != [] && CallsEndAs(cfg, script(k), end)
    requires end.AllAnswered? || end.Denied?
    ensures AllGoOn(cfg, script, k + 1)
  {
    hide CallsEndAs;
  }

  /** What calls that end in such a way make of the loop; `text` is the last reply with any text. */
  function EndingOf(end: CallsEnd, content: string, text: string): Option<Ending> {
    match end
    case AllAnswered | Denied => None
    case Asked(q) => Some(Pending(content, q))
    case CutOff => Some(Text(Either(content, text)))
    case Stopped => Some(RunCancelled)
    case Crashed(error) => Some(Propagated(error))
  }

  lemma EndingOfEndsBy(script: nat -> RoundScript, k: nat, end: CallsEnd, text: string)
    requires script(k).model.Replied? && text == LastText(script, k + 1)
    ensures var e := EndingOf(end, script(k).model.content, text); e.Some? ==> EndsBy(script, k, end, e.value)
  {
    hide LastText;
  }

  lemma LastTextStep(script: nat -> RoundScript, n: nat, s: RoundScript)
    requires s == script(n)
    ensures LastText(script, n + 1)
         == if s.model.Replied? && !s.model.blank then s.model.content else LastText(script, n)
  {
  }

  /** What a round leaves that the loop ends in once the model has replied with calls. */
  ghost predicate LeftOpen(cfg: Config, s: RoundScript, more: seq<Message>) {
    && s.model.Replied? && |more| > 0 && more[0] == Assistant(s.model.content, s.model.calls)
    && Replies(cfg, s.model.calls, s.calls, more[1..]) && |more| <= |s.model.calls|
    && StopAt(cfg, s.model.calls[|more| - 1], s.calls(|more| - 1)).Some?
  }

  /** What the transcript holds behind the `k` whole rounds when the loop ends. */
  ghost predicate Unfinished(cfg: Config, script: nat -> RoundScript, k: nat, n: nat, more: seq<Message>) {
    if n == k || script(k).model.Broke? || script(k).model.calls == [] then more == []
    else LeftOpen(cfg, script(k), more)
  }

  /** A round once the model has replied with calls: its messages, and a notice unless the loop ends inside it. */
  method PlayRound(cfg: Config, s: RoundScript, active: seq<string>, messages: seq<Message>)
    returns (after: seq<Message>, end: CallsEnd, activated: seq<string>, ghost r: Round, ghost more: seq<Message>)
    requires s.model.Replied? && s.model.calls != []
    ensures after == messages + more && CallsEndAs(cfg, s, end)
    ensures if end.AllAnswered? || end.Denied? then
              && Faithful(cfg, s, r) && more == Messages(r) && TellsFinds(r.calls, s.calls, active, r.tools)
              && activated == ActiveAfter(active, r.calls, s.calls, |r.tools|)
            else LeftOpen(cfg, s, more)
  {
    hide Faithful, Messages, Answered, StopAt, LeftOpen, CallsEndAs, TellsFinds, ActiveAfter, Distinct;
    var tools, tally;
    tools, end, activated, tally := AnswerCalls(cfg, s.model.calls, s.calls, active);
    CallsEndHere(cfg, s, active, tools, activated, tally, end);
    var executed := |s.model.calls| - |tally.unavailable|;
    var allFailed := tally.failed > 0 && tally.failed == executed;
    var unavailable: seq<string> := [];
    if tally.unavailable != [] && tally.succeeded == 0 {
      unavailable := Distinct(tally.unavailable);
    }
    var notice := if allFailed || unavailable != [] then Some(Notice(allFailed, unavailable)) else None;
    DistinctOfSome(tally.unavailable);
    assert notice == NoticeFor(|s.model.calls|, tally);
    r := Round(s.model.content, s.model.calls, tools, notice);
    more := [Assistant(s.model.content, s.model.calls)] + tools;
    after := messages + ([Assistant(s.model.content, s.model.calls)] + tools);
    if end.AllAnswered? || end.Denied? {
      IsFaithful(cfg, s, r, active, activated, tally, end);
      if notice.Some? { after := after + [notice.value]; }
      MessagesOf(messages, r, after);
      more := Messages(r);
    }
  }

  lemma DistinctOfSome(names: seq<string>)
    ensures Distinct(names) == [] <==> names == []
  {
    if names != [] { assert names[0] in Distinct(names); }
  }

  /** One turn of the loop: it ends the loop, or leaves it at the top of the next round. */
  method PlayTurn(cfg: Config, script: nat -> RoundScript, messages: seq<Message>, seen: seq<ModelCall>,
                  active: seq<string>, last: string, ghost base: seq<Message>, ghost rounds: seq<Round>)
    returns (after: seq<Message>, calls: seq<ModelCall>, activated: seq<string>, content: string, text: string,
             ending: Option<Ending>, ghost played: seq<Round>, ghost more: seq<Message>)
    requires AtTop(cfg, base, script, rounds, seen, messages, active) && |seen| < EffectiveIterations(cfg)
    requires AllGoOn(cfg, script, |seen|) && last == LastText(script, |seen|)
    ensures if ending.Some? then
              && History(cfg, base, script, played, calls, after)
              && EndsAs(cfg, script, |played|, |calls|, ending.value)
              && after == base + Transcript(played) + more && Unfinished(cfg, script, |played|, |calls|, more)
            else
              && AtTop(cfg, base, script, played, calls, after, activated) && |calls| == |seen| + 1
              && AllGoOn(cfg, script, |calls|) && text == LastText(script, |calls|)
              && script(|seen|).model.Replied? && content == script(|seen|).model.content
  {
    hide *;
    after, calls, activated, content, text, ending := messages, seen, active, "", last, None;
    played, more := rounds, [];
    var k := |seen|;
    var s := script(k);
    EndsBeforeModel(cfg, script, k);
    TopHistory(cfg, base, script, rounds, seen, messages, active);
    NothingUnfinished(cfg, script, k);
    if s.clock.Cancelled? { ending := Some(RunCancelled); return; }
    if s.clock.Closed? { ending := Some(Text(last)); return; }
    CallStep(cfg, base, script, rounds, seen, messages, active);
    calls := WithCall(cfg, seen, messages, active);
    EndsWithModel(cfg, script, k, s);
    if s.model.Broke? { ending := Some(Text(s.model.partial)); return; }
    content := s.model.content;
    if s.model.calls == [] { ending := Some(Text(content)); return; }
    LastTextStep(script, k, s);
    if !s.model.blank { text := content; }
    var end;
    ghost var r;
    after, end, activated, r, more := PlayRound(cfg, s, active, messages);
    MoreMessages(cfg, base, script, rounds, calls, messages, more);
    EndingOfEndsBy(script, k, end, text);
    if end.Stopped? {
      ending := Some(RunCancelled);
    } else if end.CutOff? {
      ending := Some(Text(Either(content, text)));
    } else if end.Asked? {
      ending := Some(Pending(content, end.question));
    } else if end.Crashed? {
      ending := Some(Propagated(end.error));
    }
    EndingOfAll(end, content, text);
    if ending.Some? {
      EndsWithCalls(cfg, script, k, s, end, ending.value);
      LeavesOpen(cfg, script, k, more);
      return;
    }
    GoOnStep(cfg, script, k, end);
    RoundStep(cfg, base, script, rounds, seen, messages, active, r, activated);
    played := rounds + [r];
  }

  lemma EndingOfAll(end: CallsEnd, content: string, text: string)
    ensures EndingOf(end, content, text)
         == if end.Stopped? then Some(RunCancelled)
            else if end.CutOff? then Some(Text(Either(content, text)))
            else if end.Asked? then Some(Pending(content, end.question))
            else if end.Crashed? then Some(Propagated(end.error))
            else None
  {
  }

  /**
   streaming_react_loop.  `OneEnding` shows that the last two clauses fix the ending, the number of whole rounds and
   the number of model calls.
   */
  method StreamingReactLoop(cfg: Config, initial: seq<Message>, script: nat -> RoundScript)
    returns (messages: seq<Message>, seen: seq<ModelCall>, ending: Ending, ghost rounds: seq<Round>,
             ghost more: seq<Message>)
    ensures var bound := cfg.maxIterations + (if cfg.deferred then 1 else 0);
            && |seen| <= (if bound > 0 then bound else 0) && (ending.NameUnbound? <==> bound <= 0)
            && (bound > 0 && AllGoOn(cfg, script, bound) ==> |seen| == |rounds| == bound)
    ensures seen != [] ==> ShowsCatalog(cfg, initial, seen[0].messages)
    ensures History(cfg, Base(cfg, initial), script, rounds, seen, messages)
    ensures messages == Base(cfg, initial) + Transcript(rounds) + more
    ensures Unfinished(cfg, script, |rounds|, |seen|, more)
    ensures EndsAs(cfg, script, |rounds|, |seen|, ending)
    ensures forall j | 0 <= j < |rounds| :: NoticeTells(script(j), rounds[j])
  {
    hide *;
    messages := Base(cfg, initial);
    ghost var base := messages;
    seen, rounds, more := [], [], [];
    var active: seq<string> := [];
    var content, last := "", "";
    Starts(cfg, script, base, rounds, seen);
    for k := 0 to if EffectiveIterations(cfg) > 0 then EffectiveIterations(cfg) else 0
      invariant |seen| == k && AtTop(cfg, base, script, rounds, seen, messages, active) && last == LastText(script, k)
      invariant AllGoOn(cfg, script, k)
      invariant k > 0 ==> script(k - 1).model.Replied? && content == script(k - 1).model.content
    {
      var over;
      messages, seen, active, content, last, over, rounds, more :=
        PlayTurn(cfg, script, messages, seen, active, last, base, rounds);
      if over.Some? {
        EndingFacts(cfg, script, |rounds|, |seen|, over.value);
        HistoryTells(cfg, initial, script, rounds, seen, messages);
        return messages, seen, over.value, rounds, more;
      }
    }
    TopHistory(cfg, base, script, rounds, seen, messages, active);
    EndsExhausted(cfg, script, |seen|, content);
    NothingUnfinished(cfg, script, |seen|);
    more, ending := [], if |seen| == 0 then NameUnbound else Text(Either(content, last));
    EndingFacts(cfg, script, |rounds|, |seen|, ending);
    HistoryTells(cfg, initial, script, rounds, seen, messages);
  }

  lemma NothingUnfinished(cfg: Config, script: nat -> RoundScript, k: nat)
    ensures Unfinished(cfg, script, k, k, [])
    ensures script(k).model.Broke? || script(k).model.calls == [] ==> Unfinished(cfg, script, k, k + 1, [])
  {
  }

  lemma LeavesOpen(cfg: Config, script: nat -> RoundScript, k: nat, more: seq<Message>)
    requires script(k).model.Replied? && script(k).model.calls != [] && LeftOpen(cfg, script(k), more)
    ensures Unfinished(cfg, script, k, k + 1, more)
  {
    hide LeftOpen;
  }

  lemma EndingFacts(cfg: Config, script: nat -> RoundScript, k: nat, n: nat, ending: Ending)
    requires EndsAs(cfg, script, k, n, ending)
    ensures var bound := cfg.maxIterations + (if cfg.deferred then 1 else 0);
            && n <= (if bound > 0 then bound else 0) && (ending.NameUnbound? <==> bound <= 0)
            && (bound > 0 && AllGoOn(cfg, script, bound) ==> n == k == bound)
  {
    hide CallsEndAs, GoesOn, LastText, OrLast;
    EndingStopsHere(cfg, script, k, ending);
    var bound := cfg.maxIterations + (if cfg.deferred then 1 else 0);
    assert bound > 0 && AllGoOn(cfg, script, bound) && k < bound ==> GoesOn(cfg, script(k));
  }

  /**
   With deferred exposure the catalog of tools is in the first message, and nothing else of the transcript changes.
   */
  predicate ShowsCatalog(cfg: Config, initial: seq<Message>, shown: seq<Message>) {
    if !cfg.deferred then shown == initial
    else
      && shown != [] && shown[0].System?
      && if initial != [] && initial[0].System? then
           shown[0].content == initial[0].content + cfg.catalog && shown[1..] == initial[1..]
         else shown[0].content == cfg.catalogAlone && shown[1..] == initial
  }

  lemma HistoryTells(cfg: Config, initial: seq<Message>, script: nat -> RoundScript, rounds: seq<Round>,
                     seen: seq<ModelCall>, messages: seq<Message>)
    requires History(cfg, Base(cfg, initial), script, rounds, seen, messages)
    ensures forall j | 0 <= j < |rounds| :: NoticeTells(script(j), rounds[j])
    ensures seen != [] ==> ShowsCatalog(cfg, initial, seen[0].messages)
  {
    hide Faithful, NoticeTells, ActiveTools, AllFindsTold;
    forall j | 0 <= j < |rounds|
      ensures NoticeTells(script(j), rounds[j])
    {
      NoticeMeans(cfg, script(j), rounds[j]);
    }
    if seen != [] {
      assert rounds[..0] == [];
      assert seen[0].messages == Base(cfg, initial) + [] == Base(cfg, initial);
    }
  }

  lemma TopHistory(cfg: Config, base: seq<Message>, script: nat -> RoundScript, rounds: seq<Round>,
                   seen: seq<ModelCall>, messages: seq<Message>, active: seq<string>)
    requires AtTop(cfg, base, script, rounds, seen, messages, active)
    ensures History(cfg, base, script, rounds, seen, messages) && |seen| == |rounds|
    ensures messages == base + Transcript(rounds) == base + Transcript(rounds) + []
  {
    hide History, Transcript, ActiveTools;
  }

  lemma CallsEndHere(cfg: Config, s: RoundScript, active: seq<string>, tools: seq<Message>, activated: seq<string>,
                     tally: Tally, end: CallsEnd)
    requires s.model.Replied? && |tools| <= |s.model.calls|
    requires Answered(cfg, s.model.calls, s.calls, active, tools, activated, tally)
    requires if |tools| == |s.model.calls| then end == AllAnswered
             else StopAt(cfg, s.model.calls[|tools|], s.calls(|tools|)) == Some(end)
    ensures CallsEndAs(cfg, s, end)
    ensures !end.AllAnswered? ==> LeftOpen(cfg, s, [Assistant(s.model.content, s.model.calls)] + tools)
  {
    hide StopAt, TallyOf, ActiveAfter, TellsFinds;
    assert FirstStop(cfg, s, |tools|, end);
    assert ([Assistant(s.model.content, s.model.calls)] + tools)[1..] == tools;
  }

  lemma IsFaithful(cfg: Config, s: RoundScript, r: Round, active: seq<string>, activated: seq<string>, tally: Tally,
                   end: CallsEnd)
    requires s.model.Replied? && s.model.calls != [] && r.calls == s.model.calls && r.reply == s.model.content
    requires Answered(cfg, r.calls, s.calls, active, r.tools, activated, tally) && (end.AllAnswered? || end.Denied?)
    requires |r.tools| <= |r.calls|
    requires if |r.tools| == |r.calls| then end == AllAnswered
             else StopAt(cfg, r.calls[|r.tools|], s.calls(|r.tools|)) == Some(end)
    requires r.notice == NoticeFor(|r.calls|, tally)
    ensures Faithful(cfg, s, r) && TellsFinds(r.calls, s.calls, active, r.tools)
    ensures activated == ActiveAfter(active, r.calls, s.calls, |r.tools|)
  {
    hide Replies, TallyOf, NoticeFor, TellsFinds, ActiveAfter;
  }

  lemma MessagesOf(before: seq<Message>, r: Round, after: seq<Message>)
    requires var m := before + ([Assistant(r.reply, r.calls)] + r.tools);
             after == if r.notice.Some? then m + [r.notice.value] else m
    ensures after == before + Messages(r)
  {
  }

  /* ----- What the model is given ----- */

  /**
   The transcript behind the base is well formed at a model call exactly when every earlier round was clean: all its
   calls carried ids, and no tool put a question to the user.
   */
  lemma TranscriptWellFormedIff(cfg: Config, base: seq<Message>, script: nat -> RoundScript, rounds: seq<Round>,
                                seen: seq<ModelCall>, messages: seq<Message>, k: nat)
    requires History(cfg, base, script, rounds, seen, messages) && k < |seen|
    ensures base <= seen[k].messages
    ensures WellFormed(seen[k].messages[|base|..]) <==> forall j | 0 <= j < k :: Clean(script(j))
  {
    hide Faithful, Clean, Answers, WellFormed, Transcript, ActiveTools;
    assert seen[k].messages[|base|..] == Transcript(rounds[..k]);
    forall j | 0 <= j < k
      ensures RoundForm(rounds[..k][j])
      ensures Answers(rounds[j].calls, rounds[j].tools) <==> Clean(script(j))
    {
      assert Faithful(cfg, script(j), rounds[j]);
      CleanRoundAnswers(cfg, script(j), rounds[j]);
    }
    WellFormedRounds(rounds[..k]);
    assert forall j | 0 <= j < k :: rounds[..k][j] == rounds[j];
  }

  lemma {:induction false} ActiveToolsGrow(cfg: Config, script: nat -> RoundScript, rounds: seq<Round>, j: nat, k: nat)
    requires AllFaithful(cfg, script, rounds) && j <= k <= |rounds|
    ensures ActiveTools(cfg, script, rounds, j) <= ActiveTools(cfg, script, rounds, k)
  {
    hide AllFaithful;
    if j < k {
      ActiveToolsGrow(cfg, script, rounds, j, k - 1);
    }
  }

  lemma {:induction false} TranscriptPrefix(rounds: seq<Round>, j: nat, k: nat)
    requires j <= k <= |rounds|
    ensures Transcript(rounds[..j]) <= Transcript(rounds[..k])
  {
    hide Messages;
    if j < k {
      TranscriptPrefix(rounds, j, k - 1);
      TranscriptGrows(rounds[..k - 1], rounds[k - 1]);
      assert rounds[..k - 1] + [rounds[k - 1]] == rounds[..k];
    }
  }

  /**
   History is only ever extended: a later model call sees all an earlier one saw, and every tool, each activated once.
   */
  lemma LaterCallsSeeMore(cfg: Config, base: seq<Message>, script: nat -> RoundScript, rounds: seq<Round>,
                          seen: seq<ModelCall>, messages: seq<Message>, j: nat, k: nat)
    requires History(cfg, base, script, rounds, seen, messages) && j <= k < |seen|
    ensures seen[j].messages <= seen[k].messages <= messages && seen[j].tools <= seen[k].tools
    ensures cfg.initialTools <= seen[k].tools && NoDuplicates(seen[k].tools[|cfg.initialTools|..])
  {
    ActiveToolsGrow(cfg, script, rounds, j, k);
    TranscriptPrefix(rounds, j, k);
    TranscriptPrefix(rounds, k, |rounds|);
    assert rounds[..|rounds|] == rounds;
    hide Transcript, ActiveTools, AllFaithful;
    assert seen[k].tools[|cfg.initialTools|..] == ActiveTools(cfg, script, rounds, k);
  }

  /** Every tool a search call found is exposed from the next model call on. */
  lemma SearchedToolsAreExposed(cfg: Config, base: seq<Message>, script: nat -> RoundScript, rounds: seq<Round>,
                                seen: seq<ModelCall>, messages: seq<Message>, j: nat, i: nat, tool: string)
    requires History(cfg, base, script, rounds, seen, messages) && j < |rounds| && j + 1 < |seen|
              && i < |rounds[j].tools|
    requires Faithful(cfg, script(j), rounds[j])
    requires IsSearch(rounds[j].calls[i]) && tool in script(j).calls(i).matches && tool != ""
    ensures tool in seen[j + 1].tools
  {
    FoundIsActive(ActiveTools(cfg, script, rounds, j), rounds[j].calls, script(j).calls, i, |rounds[j].tools|, tool);
    hide Transcript, Faithful, AllFaithful, ActiveAfter;
    assert tool in ActiveTools(cfg, script, rounds, j + 1);
  }

  lemma {:induction false} FoundIsActive(active: seq<string>, calls: seq<Call>, script: nat -> CallScript, i: nat,
                                         n: nat, tool: string)
    requires i < n <= |calls| && IsSearch(calls[i]) && tool in script(i).matches && tool != ""
    ensures tool in ActiveAfter(active, calls, script, n)
  {
    hide IsSearch;
    if i < n - 1 {
      FoundIsActive(active, calls, script, i, n - 1, tool);
    }
  }

  /** A call without an id is answered under an invented one, if at all: the round leaves the transcript ill-formed. */
  lemma MissingIdBreaksTranscript(cfg: Config, s: RoundScript, r: Round, i: nat)
    requires Faithful(cfg, s, r) && i < |r.calls| && r.calls[i].id == ""
    ensures !WellFormed(Messages(r))
  {
    CleanRoundAnswers(cfg, s, r);
    WellFormedAlone(r);
    hide Faithful, Answers, WellFormed, Messages;
  }

  /** A question that does not end the loop ends the round: its call and all later ones go unanswered. */
  lemma DeniedQuestionBreaksTranscript(cfg: Config, s: RoundScript, r: Round, i: nat)
    requires Faithful(cfg, s, r) && i < |r.calls| && !IsSearch(r.calls[i]) && s.calls(i).answer.Question?
    ensures !WellFormed(Messages(r)) && |r.tools| <= i
  {
    assert StopAt(cfg, r.calls[i], s.calls(i)).Some?;
    assert forall k | 0 <= k < |r.tools| :: StopAt(cfg, r.calls[k], s.calls(k)) == None;
    CleanRoundAnswers(cfg, s, r);
    WellFormedAlone(r);
    hide Faithful, Answers, WellFormed, Messages;
  }

  lemma WellFormedAlone(r: Round)
    requires RoundForm(r)
    ensures WellFormed(Messages(r)) <==> Answers(r.calls, r.tools)
  {
    WellFormedStep(r, []);
    assert Messages(r) + [] == Messages(r);
    hide Answers, Messages;
  }

  /** Both kinds of round occur: a first call without an id, and a first call that asks while nobody may. */
  lemma BrokenRoundsOccur(cfg: Config, s: RoundScript, r: Round)
    requires s.model.Replied? && |s.model.calls| == 1 && !IsSearch(s.model.calls[0])
    requires s.calls(0).clock.Open? && !s.calls(0).cancelledAfter
    requires s.calls(0).answer.Succeeded? || (s.calls(0).answer.Question? && !cfg.canAskUser)
    requires r == Round(s.model.content, s.model.calls,
                        if s.calls(0).answer.Question? then []
                        else [Tool(ReplyId(s.model.calls[0], s.calls(0)), Content(s.calls(0).answer))], None)
    ensures Faithful(cfg, s, r)
  {
    TallyStep(r.calls, s.calls, [], 0);
    assert TallyOf(r.calls, s.calls, 0) == Tally(0, 0, []);
    hide IsSearch;
  }
}
