/** The grammar of a rotation's events, in every run at all: forced, interleaved, with any failures. */
module RotationEvents {
  import opened KeyModel
  import opened RotationMachine

  ghost function Trace(events: seq<(Rid, Event)>, rid: Rid): seq<Event> {
    if events == [] then []
    else
      var last := events[|events| - 1];
      Trace(events[..|events| - 1], rid) + (if last.0 == rid then [last.1] else [])
  }

  /** The progress events a rotation has emitted once it has reached a stage. */
  ghost function ProgressOf(stage: RotationStage): seq<Event> {
    match stage
    case Generation => []
    case Propagation => [KeyGenerated]
    case Verification => [KeyGenerated, KeyPropagated]
    case Activation => [KeyGenerated, KeyPropagated, KeyVerified]
  }

  ghost function Expected(r: Rotation): seq<Event> {
    match r.pc
    case Unwind(true) | Done(true) => ProgressOf(Activation) + [KeyActivated]
    case Unwind(false) | Done(false) => ProgressOf(r.stage) + [RotationFailed(r.stage)]
    case _ => ProgressOf(r.stage)
  }

  /** The stage follows the program counter until something fails. */
  ghost predicate StageFits(r: Rotation) {
    match r.pc
    case ReadPrevious | Generate | SaveKey | EmitGenerated => r.stage == Generation
    case BeginSession | StorePending | EmitPropagated => r.stage == Propagation
    case Verify | EmitVerified => r.stage == Verification
    case ActivateGet | ActivateGetActive | ActivateExpire | ActivateUpdate | CompleteSession | EmitActivated =>
      r.stage == Activation
    case _ => true
  }

  ghost predicate EventsOk(s: State) {
    && (forall rid :: rid in s.rots ==> StageFits(s.rots[rid]) && Trace(s.events, rid) == Expected(s.rots[rid]))
    && (forall rid :: rid !in s.rots ==> Trace(s.events, rid) == [])
  }

  lemma TraceAppend(events: seq<(Rid, Event)>, e: (Rid, Event), rid: Rid)
    ensures Trace(events + [e], rid) == Trace(events, rid) + (if e.0 == rid then [e.1] else [])
  {
    assert (events + [e])[..|events|] == events;
  }

  predicate Emits(pc: Pc) {
    pc.EmitGenerated? || pc.EmitPropagated? || pc.EmitVerified? || pc.EmitActivated? || pc.EmitFailed?
  }

  lemma SilentProgress(cfg: Config, now: Time, next: nat, kept: bool, sl: Slice, r: Rotation, o: Outcome)
    requires Possible(r, o) && StageFits(r) && !Emits(r.pc) && !Ending(r.pc)
    ensures var l := Progress(cfg, now, next, kept, sl, r, o);
      StageFits(l.r) && Expected(l.r) == Expected(r) && l.emitted.None?
  {
    hide Find, Put, GetActive, Update, FirstCompensation, AfterCancel, AfterMark, ProgressOf;
  }

  lemma SilentCompensation(now: Time, sl: Slice, r: Rotation, o: Outcome)
    requires Possible(r, o) && StageFits(r) && !Emits(r.pc) && Ending(r.pc)
    ensures var l := Compensation(now, sl, r, o);
      StageFits(l.r) && Expected(l.r) == Expected(r) && l.emitted.None?
  {
    hide Find, Put, GetActive, Update, FirstCompensation, AfterCancel, AfterMark, ProgressOf;
  }

  lemma EmittingStep(cfg: Config, now: Time, next: nat, kept: bool, sl: Slice, r: Rotation, o: Outcome)
    requires Possible(r, o) && StageFits(r) && Emits(r.pc)
    ensures var l := StepLocal(cfg, now, next, kept, sl, r, o);
      StageFits(l.r) && l.emitted.Some? && Expected(l.r) == Expected(r) + [l.emitted.value]
  {
    hide Find, Put, GetActive, Update, FirstCompensation, AfterCancel, AfterMark;
  }

  lemma StepEmits(cfg: Config, now: Time, next: nat, kept: bool, sl: Slice, r: Rotation, o: Outcome)
    requires Possible(r, o) && StageFits(r)
    ensures var l := StepLocal(cfg, now, next, kept, sl, r, o);
      && StageFits(l.r)
      && Expected(l.r) == Expected(r) + (if l.emitted.Some? then [l.emitted.value] else [])
  {
    hide Progress, Compensation, StageFits, Expected;
    if Emits(r.pc) {
      EmittingStep(cfg, now, next, kept, sl, r, o);
    } else {
      if Ending(r.pc) {
        SilentCompensation(now, sl, r, o);
      } else {
        SilentProgress(cfg, now, next, kept, sl, r, o);
      }
      assert Expected(r) + [] == Expected(r);
    }
  }

  lemma StepKeepsEvents(cfg: Config, s: State, l: Label)
    requires EventsOk(s) && Enabled(s, l)
    ensures EventsOk(Apply(cfg, s, l))
  {
    hide StepLocal, StageFits, Expected;
    var s' := Apply(cfg, s, l);
    if l.Advance? {
      var r, m := s.rots[l.rid], LocalOf(cfg, s, l.rid, l.o);
      StepEmits(cfg, s.now, s.nextVersion, Kept(s.entries, l.rid), SliceOf(s, r.secret), r, l.o);
      forall rid ensures Trace(s'.events, rid) ==
        Trace(s.events, rid) + (if rid == l.rid && m.emitted.Some? then [m.emitted.value] else [])
      {
        if m.emitted.Some? {
          TraceAppend(s.events, (l.rid, m.emitted.value), rid);
        }
      }
    } else if l.Start? {
      assert EventsOk(s') by {
        var r := NewRotation(s, l.secret, l.overlapMs);
        assert StageFits(r) && Expected(r) == [] by { FreshRotation(s, l.secret, l.overlapMs); }
      }
    }
  }

  lemma FreshRotation(s: State, secret: string, overlapMs: int)
    ensures var r := NewRotation(s, secret, overlapMs); StageFits(r) && Expected(r) == []
  {
  }

  lemma {:induction false} RunKeepsEvents(cfg: Config, s: State, ls: seq<Label>)
    requires EventsOk(s) && Run(cfg, s, ls)
    ensures EventsOk(After(cfg, s, ls))
    decreases |ls|
  {
    hide EventsOk, Apply, Enabled;
    if ls != [] {
      StepKeepsEvents(cfg, s, ls[0]);
      RunKeepsEvents(cfg, Apply(cfg, s, ls[0]), ls[1..]);
    }
  }

  /** The events a failed rotation leaves: the first `n` of the three progress events, then the failure. */
  ghost predicate FailedAfter(trace: seq<Event>, n: nat) {
    && n <= 3 && |trace| == n + 1
    && trace[..n] == [KeyGenerated, KeyPropagated, KeyVerified][..n]
    && trace[n] == RotationFailed([Generation, Propagation, Verification, Activation][n])
  }

  lemma FailureTrace(stage: RotationStage)
    ensures exists n :: FailedAfter(ProgressOf(stage) + [RotationFailed(stage)], n)
  {
    var trace := ProgressOf(stage) + [RotationFailed(stage)];
    match stage
    case Generation => assert FailedAfter(trace, 0);
    case Propagation => assert FailedAfter(trace, 1);
    case Verification => assert FailedAfter(trace, 2);
    case Activation => assert FailedAfter(trace, 3);
  }

  lemma EndedTrace(r: Rotation)
    requires r.pc.Done?
    ensures if r.pc.success then Expected(r) == [KeyGenerated, KeyPropagated, KeyVerified, KeyActivated]
      else exists n :: FailedAfter(Expected(r), n)
  {
    if !r.pc.success {
      FailureTrace(r.stage);
      assert Expected(r) == ProgressOf(r.stage) + [RotationFailed(r.stage)];
    }
  }

  /**
   * Per rotation, whatever fails and even if the emitter throws: a successful rotation emits generated,
   * propagated, verified, activated; a failed one emits the first zero to three of these and then one
   * failure, whose stage tells how many.
   */
  lemma EventGrammar(cfg: Config, s: State, ls: seq<Label>, rid: Rid)
    requires s.rots == map[] && s.events == [] && Run(cfg, s, ls)
    requires rid in After(cfg, s, ls).rots && After(cfg, s, ls).rots[rid].pc.Done?
    ensures var s' := After(cfg, s, ls);
      var trace := Trace(s'.events, rid);
      if s'.rots[rid].pc.success then trace == [KeyGenerated, KeyPropagated, KeyVerified, KeyActivated]
      else exists n :: FailedAfter(trace, n)
  {
    hide Run, After, Apply, Enabled;
    RunKeepsEvents(cfg, s, ls);
    EndedTrace(After(cfg, s, ls).rots[rid]);
    assert Trace(After(cfg, s, ls).events, rid) == Expected(After(cfg, s, ls).rots[rid]);
  }
}
