/**
 The ready/terminal handshake of one chat stream (useSendMessage.ts): a delivery is
 final once its bundle frame and its terminal frame have both arrived and agree.
 */
module DeliveryHandshake {
  import opened Options
  import opened Json

  const MAX_SAFE_INTEGER := 9_007_199_254_740_991

  /** A bundle that passed the public-bundle guard, with the identity its manifest names. */
  datatype Delivered = Delivered(json: Json, manifest: Json, runId: string, bundleId: string)

  datatype Frame =
    | Ready(eventSeq: Option<int>, runId: Option<string>, bundleId: Option<string>,
            manifest: Option<Json>, manifestBundleId: Option<string>, bundle: Option<Delivered>)
    | Terminal(eventSeq: Option<int>, runId: Option<string>, bundleId: Option<string>, status: Option<string>)

  /** What the stream does to the client. */
  datatype Effect = Confirmed(bundle: Delivered) | Finalized

  predicate ValidSequence(seq_: Option<int>) {
    seq_.Some? && 0 < seq_.value <= MAX_SAFE_INTEGER
  }

  /** The checks on one frame alone. */
  predicate Admissible(f: Frame) {
    && ValidSequence(f.eventSeq)
    && match f
       case Ready(_, runId, bundleId, manifest, manifestBundleId, bundle) =>
         && bundle.Some? && manifest.Some?
         && bundleId == Some(bundle.value.bundleId) && runId == Some(bundle.value.runId)
         && manifestBundleId == Some(bundle.value.bundleId)
         && Canonical(manifest.value) == Canonical(bundle.value.manifest)
       case Terminal(_, runId, bundleId, status) =>
         status == Some("completed") && Truthy(bundleId) && Truthy(runId)
  }

  predicate RepeatsReady(first: Frame, again: Frame)
    requires first.Ready? && again.Ready? && first.bundle.Some? && again.bundle.Some?
  {
    && first.eventSeq == again.eventSeq && first.runId == again.runId && first.bundleId == again.bundleId
    && Canonical(first.bundle.value.json) == Canonical(again.bundle.value.json)
  }

  predicate RepeatsTerminal(first: Frame, again: Frame)
    requires first.Terminal? && again.Terminal?
  {
    first.eventSeq == again.eventSeq && first.runId == again.runId && first.bundleId == again.bundleId
  }

  predicate Completes(ready: Frame, terminal: Frame)
    requires ready.Ready? && terminal.Terminal? && ready.eventSeq.Some? && terminal.eventSeq.Some?
  {
    && terminal.eventSeq.value > ready.eventSeq.value && terminal.status == Some("completed")
    && terminal.runId == ready.runId && terminal.bundleId == ready.bundleId
  }

  /** The stream's variables.  A protocol error ends the stream. */
  datatype Hand = Hand(
    ready: Option<Frame>, terminal: Option<Frame>, finalized: bool, failed: bool, effects: seq<Effect>)

  const START := Hand(None, None, false, false, [])

  ghost predicate Typed(h: Hand) {
    && (h.ready.Some? ==> h.ready.value.Ready? && Admissible(h.ready.value))
    && (h.terminal.Some? ==> h.terminal.value.Terminal? && Admissible(h.terminal.value))
  }

  /** One frame, as a value. */
  function Accepted(h: Hand, f: Frame): Hand
    requires Typed(h)
  {
    if h.failed then h
    else if !Admissible(f) then h.(failed := true)
    else if f.Ready? && h.ready.Some? then
      if RepeatsReady(h.ready.value, f) then h else h.(failed := true)
    else if f.Terminal? && h.terminal.Some? then
      if RepeatsTerminal(h.terminal.value, f) then h else h.(failed := true)
    else
      var taken :=
        if f.Ready? then h.(ready := Some(f), effects := h.effects + [Confirmed(f.bundle.value)])
        else h.(terminal := Some(f));
      if taken.finalized || taken.ready.None? || taken.terminal.None? then taken
      else if Completes(taken.ready.value, taken.terminal.value)
      then taken.(finalized := true, effects := taken.effects + [Finalized])
      else taken.(failed := true)
  }

  function AcceptedAll(frames: seq<Frame>): (h: Hand)
    ensures Typed(h)
  {
    if frames == [] then START
    else Accepted(AcceptedAll(frames[..|frames| - 1]), frames[|frames| - 1])
  }

  /** The variables a stream closes over, changed frame by frame. */
  class Handshake {
    var ready: Option<Frame>
    var terminal: Option<Frame>
    var finalized: bool
    var failed: bool
    var effects: seq<Effect>

    constructor ()
      ensures Model() == START
    {
      ready, terminal, finalized, failed, effects := None, None, false, false, [];
    }

    ghost function Model(): Hand
      reads this
    {
      Hand(ready, terminal, finalized, failed, effects)
    }

    method FinalizeIfComplete()
      requires Typed(Model()) && !failed
      modifies this
      ensures ready == old(ready) && terminal == old(terminal)
      ensures Model() ==
              if old(finalized) || ready.None? || terminal.None? then old(Model())
              else if Completes(ready.value, terminal.value)
              then old(Model()).(finalized := true, effects := old(effects) + [Finalized])
              else old(Model()).(failed := true)
    {
      if finalized || ready.None? || terminal.None? {
        return;
      }
      if !Completes(ready.value, terminal.value) {
        failed := true;
        return;
      }
      effects := effects + [Finalized];
      finalized := true;
    }

    method Accept(f: Frame)
      requires Typed(Model())
      modifies this
      ensures Model() == Accepted(old(Model()), f)
      ensures Typed(Model())
    {
      if failed {
        return;
      }
      if !Admissible(f) {
        failed := true;
        return;
      }
      match f {
        case Ready(_, _, _, _, _, bundle) =>
          if ready.Some? {
            failed := !RepeatsReady(ready.value, f);
            return;
          }
          ready := Some(f);
          effects := effects + [Confirmed(bundle.value)];
        case Terminal(_, _, _, _) =>
          if terminal.Some? {
            failed := !RepeatsTerminal(terminal.value, f);
            return;
          }
          terminal := Some(f);
      }
      FinalizeIfComplete();
    }
  }

  /* ----- When a list of frames is one coherent delivery ----- */

  ghost predicate Proper(f: Frame) {
    f.Ready? ==>
      && (f.manifest.Some? ==> WellFormed(f.manifest.value))
      && (f.bundle.Some? ==> WellFormed(f.bundle.value.json) && WellFormed(f.bundle.value.manifest))
  }

  /** A frame that is complete in itself: its manifest is the bundle's own, as JSON. */
  ghost predicate Valid(f: Frame) {
    && f.eventSeq.Some? && 1 <= f.eventSeq.value <= 9_007_199_254_740_991
    && match f
       case Ready(_, runId, bundleId, manifest, manifestBundleId, bundle) =>
         && bundle.Some? && manifest.Some?
         && bundleId == manifestBundleId == Some(bundle.value.bundleId) && runId == Some(bundle.value.runId)
         && Same(manifest.value, bundle.value.manifest)
       case Terminal(_, runId, bundleId, status) =>
         && status == Some("completed") && bundleId.Some? && bundleId.value != "" && runId.Some? && runId.value != ""
  }

  /** Two frames of the same delivery; a terminal frame is later than a ready frame. */
  ghost predicate Agree(f: Frame, g: Frame) {
    && f.runId == g.runId && f.bundleId == g.bundleId
    && f.eventSeq.Some? && g.eventSeq.Some?
    && (f.Ready? && g.Ready? ==>
          f.eventSeq == g.eventSeq && f.bundle.Some? && g.bundle.Some?
              && Same(f.bundle.value.json, g.bundle.value.json))
    && (f.Terminal? && g.Terminal? ==> f.eventSeq == g.eventSeq)
    && (f.Ready? && g.Terminal? ==> f.eventSeq.value < g.eventSeq.value)
    && (f.Terminal? && g.Ready? ==> g.eventSeq.value < f.eventSeq.value)
  }

  ghost predicate Coherent(frames: seq<Frame>) {
    (forall f | f in frames :: Valid(f)) && forall f, g | f in frames && g in frames :: Agree(f, g)
  }

  lemma AdmissibleIsValid(f: Frame)
    requires Proper(f)
    ensures Admissible(f) <==> Valid(f)
  {
    if f.Ready? && f.bundle.Some? && f.manifest.Some? {
      CanonicalTextIsEquality(f.manifest.value, f.bundle.value.manifest);
    }
  }

  lemma AgreeReady(f: Frame, g: Frame)
    requires Proper(f) && Proper(g) && f.Ready? && g.Ready? && Valid(f) && Valid(g)
    ensures Agree(f, g) <==> RepeatsReady(f, g)
  {
    CanonicalTextIsEquality(f.bundle.value.json, g.bundle.value.json);
  }

  lemma AgreeWithItself(f: Frame)
    requires Proper(f) && Valid(f)
    ensures Agree(f, f)
  {
    if f.Ready? { AgreeReady(f, f); }
  }

  /** Frames of one kind that agree with the same frame agree with each other, and with whatever it agrees with. */
  lemma AgreeCarries(f: Frame, g: Frame, h: Frame)
    requires Proper(f) && Proper(g) && Proper(h) && Valid(f) && Valid(g) && Valid(h)
    requires (f.Ready? <==> g.Ready?) && Agree(f, g)
    ensures Agree(f, h) <==> Agree(g, h)
    ensures Agree(h, f) <==> Agree(h, g)
  {
    if f.Ready? && h.Ready? {
      AgreeReady(f, g);
      AgreeReady(f, h);
      AgreeReady(g, h);
      AgreeReady(h, f);
      AgreeReady(h, g);
    }
  }

  /** What the variables say about the frames so far. */
  ghost predicate Reflects(h: Hand, frames: seq<Frame>) {
    && !h.failed && Coherent(frames)
    && (h.ready.Some? ==> h.ready.value.Ready? && h.ready.value in frames && h.ready.value.bundle.Some?)
    && (h.ready.None? ==> forall f | f in frames :: !f.Ready?)
    && (h.terminal.Some? ==> h.terminal.value.Terminal? && h.terminal.value in frames)
    && (h.terminal.None? ==> forall f | f in frames :: !f.Terminal?)
    && (h.finalized <==> h.ready.Some? && h.terminal.Some?)
    && h.ready == FirstReady(frames)
    && h.effects == (if h.ready.Some? then [Confirmed(h.ready.value.bundle.value)] else [])
                    + (if h.finalized then [Finalized] else [])
  }

  /** The first ready frame of the list, if there is one. */
  function FirstReady(frames: seq<Frame>): Option<Frame> {
    if frames == [] then None else if frames[0].Ready? then Some(frames[0]) else FirstReady(frames[1..])
  }

  lemma {:induction false} FirstReadyMore(frames: seq<Frame>, f: Frame)
    ensures FirstReady(frames + [f])
         == if FirstReady(frames).Some? then FirstReady(frames) else if f.Ready? then Some(f) else None
  {
    if frames == [] {
      assert frames + [f] == [f];
    } else {
      FirstReadyMore(frames[1..], f);
      assert (frames + [f])[1..] == frames[1..] + [f];
    }
  }

  /** A further frame is coherent with the rest when it agrees with the remembered ones. */
  lemma CoherentWithRemembered(h: Hand, frames: seq<Frame>, f: Frame)
    requires Reflects(h, frames) && Proper(f) && Valid(f) && forall g | g in frames :: Proper(g)
    ensures Coherent(frames + [f]) <==>
            (h.ready.Some? ==> Agree(h.ready.value, f)) && (h.terminal.Some? ==> Agree(h.terminal.value, f))
  {
    AgreeWithItself(f);
    if (h.ready.Some? ==> Agree(h.ready.value, f)) && (h.terminal.Some? ==> Agree(h.terminal.value, f)) {
      forall g | g in frames
        ensures Agree(g, f) && Agree(f, g)
      {
        var kept := if g.Ready? then h.ready.value else h.terminal.value;
        AgreeCarries(kept, g, f);
        AgreeSymmetric(kept, f);
        AgreeSymmetric(g, f);
      }
    } else {
      assert f in frames + [f];
      assert h.ready.Some? ==> h.ready.value in frames + [f];
      assert h.terminal.Some? ==> h.terminal.value in frames + [f];
    }
  }

  lemma AgreeSymmetric(f: Frame, g: Frame)
    requires Proper(f) && Proper(g) && Valid(f) && Valid(g)
    ensures Agree(f, g) <==> Agree(g, f)
  {
    if f.Ready? && g.Ready? {
      AgreeReady(f, g);
      AgreeReady(g, f);
    }
  }

  /** A frame that repeats a remembered one of its kind changes nothing; a different one fails. */
  lemma RepeatReflects(h: Hand, frames: seq<Frame>, f: Frame)
    requires Typed(h) && Reflects(h, frames) && Proper(f) && (forall g | g in frames :: Proper(g)) && Valid(f)
              && Admissible(f)
    requires if f.Ready? then h.ready.Some? else h.terminal.Some?
    ensures Coherent(frames + [f]) ==> Reflects(Accepted(h, f), frames + [f])
    ensures !Coherent(frames + [f]) ==> Accepted(h, f).failed
  {
    CoherentWithRemembered(h, frames, f);
    FirstReadyMore(frames, f);
    var kept := if f.Ready? then h.ready.value else h.terminal.value;
    RepeatsIsAgree(kept, f);
    if h.ready.Some? && h.terminal.Some? {
      assert Agree(h.ready.value, h.terminal.value) && Agree(h.terminal.value, h.ready.value);
      if Agree(kept, f) {
        AgreeCarries(kept, f, if f.Ready? then h.terminal.value else h.ready.value);
        AgreeSymmetric(f, if f.Ready? then h.terminal.value else h.ready.value);
      }
    }
    hide Agree, Valid, Admissible, RepeatsReady, RepeatsTerminal, Proper, Coherent;
  }

  lemma RepeatsIsAgree(kept: Frame, f: Frame)
    requires Proper(kept) && Proper(f) && Valid(kept) && Valid(f) && (kept.Ready? <==> f.Ready?)
    ensures f.Ready? ==> (Agree(kept, f) <==> RepeatsReady(kept, f))
    ensures f.Terminal? ==> (Agree(kept, f) <==> RepeatsTerminal(kept, f))
  {
    if f.Ready? { AgreeReady(kept, f); }
  }

  /** The first frame of its kind is remembered, and completes the delivery or fails against the other kind. */
  lemma FirstReflects(h: Hand, frames: seq<Frame>, f: Frame)
    requires Typed(h) && Reflects(h, frames) && Proper(f) && (forall g | g in frames :: Proper(g)) && Valid(f)
              && Admissible(f)
    requires if f.Ready? then h.ready.None? else h.terminal.None?
    ensures Coherent(frames + [f]) ==> Reflects(Accepted(h, f), frames + [f])
    ensures !Coherent(frames + [f]) ==> Accepted(h, f).failed
  {
    CoherentWithRemembered(h, frames, f);
    FirstReadyMore(frames, f);
    if f.Ready? && h.terminal.Some? {
      AgreeSymmetric(h.terminal.value, f);
      CompletesIsAgree(f, h.terminal.value);
    }
    if f.Terminal? && h.ready.Some? {
      CompletesIsAgree(h.ready.value, f);
    }
    hide Agree, Valid, Admissible, RepeatsReady, RepeatsTerminal, Proper, Coherent, Completes;
  }

  lemma CompletesIsAgree(ready: Frame, terminal: Frame)
    requires ready.Ready? && terminal.Terminal? && Valid(ready) && Valid(terminal)
    ensures Completes(ready, terminal) <==> Agree(ready, terminal)
  {
  }

  lemma StepReflects(h: Hand, frames: seq<Frame>, f: Frame)
    requires Typed(h) && Reflects(h, frames) && Proper(f) && forall g | g in frames :: Proper(g)
    ensures Coherent(frames + [f]) ==> Reflects(Accepted(h, f), frames + [f])
    ensures !Coherent(frames + [f]) ==> Accepted(h, f).failed
  {
    AdmissibleIsValid(f);
    hide Agree, Valid, Admissible, Reflects, Proper;
    if !Admissible(f) {
      InvalidIsIncoherent(h, frames, f);
    } else if f.Ready? && h.ready.Some? {
      RepeatReflects(h, frames, f);
    } else if f.Terminal? && h.terminal.Some? {
      RepeatReflects(h, frames, f);
    } else {
      FirstReflects(h, frames, f);
    }
  }

  lemma InvalidIsIncoherent(h: Hand, frames: seq<Frame>, f: Frame)
    requires Typed(h) && !Valid(f) && !Admissible(f)
    ensures !Coherent(frames + [f]) && Accepted(h, f).failed
  {
    assert f in frames + [f];
    hide Valid, Admissible, Agree;
  }

  lemma {:induction false} FramesReflect(frames: seq<Frame>)
    requires forall f | f in frames :: Proper(f)
    ensures Coherent(frames) ==> Reflects(AcceptedAll(frames), frames)
    ensures !Coherent(frames) ==> AcceptedAll(frames).failed
  {
    hide Accepted, Agree, Valid;
    if frames != [] {
      var n := |frames| - 1;
      var before := frames[..n];
      assert frames == before + [frames[n]];
      FramesReflect(before);
      if Coherent(before) {
        StepReflects(AcceptedAll(before), before, frames[n]);
      } else {
        FailureSticks(AcceptedAll(before), frames[n]);
        assert !Coherent(frames);
      }
    }
  }

  lemma FailureSticks(h: Hand, f: Frame)
    requires Typed(h) && h.failed
    ensures Accepted(h, f) == h
  {
  }

  /**
   A stream ends without a protocol error exactly when its frames are complete and agree pairwise.  Then it is final
   exactly when both kinds have arrived, and what it did is confirm the first bundle offered and, last, finalize.
   */
  lemma HandshakeAcceptsCoherentDeliveries(frames: seq<Frame>)
    requires forall f | f in frames :: Proper(f)
    ensures !AcceptedAll(frames).failed <==> Coherent(frames)
    ensures Coherent(frames) ==>
              var h := AcceptedAll(frames);
              && (h.finalized <==> (exists f :: f in frames && f.Ready?) && (exists f :: f in frames && f.Terminal?))
              && (FirstReady(frames).Some? ==> FirstReady(frames).value.Ready? && FirstReady(frames).value.bundle.Some?)
              && h.effects == (if FirstReady(frames).Some? then [Confirmed(FirstReady(frames).value.bundle.value)]
                    else [])
                              + (if h.finalized then [Finalized] else [])
  {
    hide Accepted, Agree, Valid, FirstReady;
    FramesReflect(frames);
  }

  /** Neither order nor repetition of the frames matters. */
  lemma OrderDoesNotMatter(frames: seq<Frame>, other: seq<Frame>)
    requires (forall f | f in frames :: Proper(f)) && forall f :: f in frames <==> f in other
    ensures AcceptedAll(frames).failed == AcceptedAll(other).failed
    ensures !AcceptedAll(frames).failed ==> AcceptedAll(frames).finalized == AcceptedAll(other).finalized
  {
    hide Accepted, Agree, Valid;
    HandshakeAcceptsCoherentDeliveries(frames);
    HandshakeAcceptsCoherentDeliveries(other);
  }

  function Count(effects: seq<Effect>, finals: bool): nat {
    if effects == [] then 0
    else Count(effects[..|effects| - 1], finals) + (if effects[|effects| - 1].Finalized? == finals then 1 else 0)
  }

  lemma CountAppend(effects: seq<Effect>, e: Effect, finals: bool)
    ensures Count(effects + [e], finals) == Count(effects, finals) + (if e.Finalized? == finals then 1 else 0)
  {
    assert (effects + [e])[..|effects|] == effects;
  }

  ghost predicate Counted(h: Hand) {
    && Count(h.effects, true) == (if h.finalized then 1 else 0)
    && Count(h.effects, false) == (if h.ready.Some? then 1 else 0)
    && (h.finalized ==> h.ready.Some? && h.terminal.Some?)
  }

  lemma StepCounted(h: Hand, f: Frame)
    requires Typed(h) && Counted(h)
    ensures Counted(Accepted(h, f))
  {
    hide Count, RepeatsReady, RepeatsTerminal, Completes, Canonical;
    if Admissible(f) && f.Ready? {
      var confirmed := h.effects + [Confirmed(f.bundle.value)];
      CountAppend(h.effects, Confirmed(f.bundle.value), true);
      CountAppend(h.effects, Confirmed(f.bundle.value), false);
      CountAppend(confirmed, Finalized, true);
      CountAppend(confirmed, Finalized, false);
    } else {
      CountAppend(h.effects, Finalized, true);
      CountAppend(h.effects, Finalized, false);
    }
  }

  /** Whatever arrives, coherent or not, a bundle is confirmed at most once and a delivery finalized at most once. */
  lemma {:induction false} OnceOnly(frames: seq<Frame>)
    ensures var h := AcceptedAll(frames);
            && Count(h.effects, true) == (if h.finalized then 1 else 0)
            && Count(h.effects, false) == (if h.ready.Some? then 1 else 0)
            && (h.finalized ==> h.ready.Some? && h.terminal.Some?)
  {
    hide Accepted;
    if frames != [] {
      var n := |frames| - 1;
      OnceOnly(frames[..n]);
      StepCounted(AcceptedAll(frames[..n]), frames[n]);
    }
  }
}
