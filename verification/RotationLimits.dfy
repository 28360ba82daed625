/**
 * The conditions of the main results are exact: from every reachable state, a step of a rotation meets what a result
 * asks of it if and only if no continuation of steps that meet it breaks the result.
 */
module RotationLimits {
  import opened Wrappers
  import opened KeyModel
  import opened RotationMachine
  import opened RotationInvariant
  import opened RotationTheorems
  import opened RotationResults
  import opened WorkflowSteps
  import Provider = StagedProvider

  // ---- Results broken -------------------------------------------------------------------------

  /** A main result that does not hold of a state. */
  datatype Flaw =
    | TwoActive(name: string)
    | Disagreement(name: string)
    | NotOneActive(name: string)
    | Unrestored(rid: Rid)

  ghost predicate Broken(s: State, f: Flaw) {
    match f
    case TwoActive(name) => !AtMostOneActive(KeysOf(s, name))
    case Disagreement(name) => Quiet(s, name) && !Agrees(SliceOf(s, name))
    case NotOneActive(name) => Quiet(s, name) && !ExactlyOneActive(KeysOf(s, name))
    case Unrestored(rid) =>
      && rid in s.rots && s.rots[rid].pc == Unwind(false)
      && !RestoredButForOneFailed(s.rots[rid].hist.begin, KeysOf(s, s.rots[rid].secret))
  }

  /** A run of good steps leads to a state in which the result does not hold. */
  ghost predicate CanBreak(cfg: Config, s: State, want: Claims, f: Flaw) {
    exists ls :: Run(cfg, s, ls) && GoodRun(cfg, s, ls, want) && Broken(After(cfg, s, ls), f)
  }

  lemma BreaksNow(cfg: Config, s: State, want: Claims, f: Flaw)
    requires Broken(s, f)
    ensures CanBreak(cfg, s, want, f)
  {
    hide Broken;
    assert Run(cfg, s, []) && GoodRun(cfg, s, [], want) && After(cfg, s, []) == s;
  }

  lemma BreaksLater(cfg: Config, s: State, l: Label, want: Claims, f: Flaw)
    requires GoodStep(s, l, want) && CanBreak(cfg, Apply(cfg, s, l), want, f)
    ensures CanBreak(cfg, s, want, f)
  {
    var s' := Apply(cfg, s, l);
    hide GoodStep, Apply, Broken, Enabled;
    var ls :| Run(cfg, s', ls) && GoodRun(cfg, s', ls, want) && Broken(After(cfg, s', ls), f);
    assert ([l] + ls)[1..] == ls && ([l] + ls)[0] == l;
    assert Enabled(s, l) by { GoodIsEnabled(s, l, want); }
    assert Run(cfg, s, [l] + ls) && GoodRun(cfg, s, [l] + ls, want) && Broken(After(cfg, s, [l] + ls), f);
  }

  lemma GoodIsEnabled(s: State, l: Label, want: Claims)
    requires GoodStep(s, l, want)
    ensures Enabled(s, l)
  {
  }

  /** A good call of a rotation takes it on, and what breaks later can break now. */
  lemma Goes(cfg: Config, s: State, rid: Rid, o: Outcome, next: Rotation, v: View, want: Claims, f: Flaw)
    returns (s': State)
    requires Moves(cfg, s, rid, o, next, v) && GoodStep(s, Advance(rid, o), want)
    ensures s'.rots == s.rots[rid := next] && Shows(s', v)
    ensures CanBreak(cfg, s', want, f) ==> CanBreak(cfg, s, want, f)
  {
    hide GoodStep, Apply, CanBreak, Shows;
    s' := Apply(cfg, s, Advance(rid, o));
    if CanBreak(cfg, s', want, f) {
      BreaksLater(cfg, s, Advance(rid, o), want, f);
    }
  }

  /** A call that returns is good. */
  lemma Returns(cfg: Config, s: State, rid: Rid, o: Outcome, next: Rotation, v: View, want: Claims, f: Flaw)
    returns (s': State)
    requires Moves(cfg, s, rid, o, next, v) && !o.Throw?
    ensures s'.rots == s.rots[rid := next] && Shows(s', v)
    ensures CanBreak(cfg, s', want, f) ==> CanBreak(cfg, s, want, f)
  {
    hide GoodStep, Apply, CanBreak, Shows;
    ReturnIsGood(s, rid, o, want);
    s' := Goes(cfg, s, rid, o, next, v, want, f);
  }

  function ViewOf(s: State): View {
    View(s.store, s.provider, s.entries, s.rotating, s.events, s.now, s.nextVersion)
  }

  lemma ViewShows(s: State)
    ensures Shows(s, ViewOf(s))
  {
  }

  lemma ShownKeys(s: State, v: View, name: string)
    requires Shows(s, v)
    ensures SliceOf(s, name) == Slice(KeysIn(v, name), SecretIn(v, name))
  {
  }

  // ---- How a failed rotation ends -------------------------------------------------------------

  /** No other rotation of the secret is in flight. */
  ghost predicate Alone(s: State, rid: Rid) {
    && InFlight(s, rid)
    && forall x :: InFlight(s, x) && x != rid ==> s.rots[x].secret != s.rots[rid].secret
  }

  /** The failure is reported. */
  lemma Reports(cfg: Config, s: State, v: View, rid: Rid, want: Claims, f: Flaw) returns (s': State)
    requires Ready(s, v, rid) && s.rots[rid].pc == EmitFailed
    ensures var r := s.rots[rid];
      && s'.rots == s.rots[rid := r.(pc := Unwind(false))]
      && Shows(s', WithEvent(v, rid, RotationFailed(r.stage)))
    ensures CanBreak(cfg, s', want, f) ==> CanBreak(cfg, s, want, f)
  {
    hide Moves, Shows, CanBreak;
    var r := s.rots[rid];
    AtEmitFailed(cfg, s, v, rid, Ok);
    s' := Returns(cfg, s, rid, Ok, r.(pc := Unwind(false)), WithEvent(v, rid, RotationFailed(r.stage)), want, f);
  }

  /** And the rotation leaves with the records and the provider as they are, its secret at rest. */
  lemma Leaves(cfg: Config, s: State, v: View, rid: Rid, want: Claims, f: Flaw) returns (s': State)
    requires Ready(s, v, rid) && s.rots[rid].pc == EmitFailed && Alone(s, rid)
    ensures Quiet(s', s.rots[rid].secret)
    ensures SliceOf(s', s.rots[rid].secret) == Slice(KeysIn(v, s.rots[rid].secret), SecretIn(v, s.rots[rid].secret))
    ensures CanBreak(cfg, s', want, f) ==> CanBreak(cfg, s, want, f)
  {
    hide Moves, SameMaps, CanBreak;
    var name := s.rots[rid].secret;
    var s1 := Reports(cfg, s, v, rid, want, f);
    var r, v1 := s1.rots[rid], WithEvent(v, rid, RotationFailed(s.rots[rid].stage));
    AtUnwind(cfg, s1, v1, rid);
    s' := Returns(cfg, s1, rid, Ok, r.(pc := Done(false)), v1.(rotating := v1.rotating - {name}), want, f);
    ShownKeys(s', v1.(rotating := v1.rotating - {name}), name);
    forall x | InFlight(s', x) ensures s'.rots[x].secret != name {
      assert x != rid && InFlight(s, x);
    }
  }

  // ---- What the invariant says where a failure is excluded ------------------------------------

  ghost predicate Allowed(s: State, rid: Rid, o: Outcome, want: Claims)
    requires rid in s.rots
  {
    var r := s.rots[rid];
    StepOk(Kept(s.entries, rid), KeysOf(s, r.secret), r, o, want)
  }

  lemma IsAlone(cfg: Config, s: State, rid: Rid, want: Claims)
    requires Inv(cfg, s, want) && InFlight(s, rid)
    ensures Alone(s, rid)
  {
    hide RotationOk, QuietOk;
    InFlightOk(cfg, s, rid, want);
  }

  lemma EntriesNeedManager(cfg: Config, s: State, rid: Rid, want: Claims)
    requires Inv(cfg, s, want) && InFlight(s, rid) && CanFailWithEntry(s.rots[rid].pc)
    ensures s.rots[rid].hasEntry == cfg.rollback.Some?
  {
    hide HistoryOk, Overlay, QuietOk, Serves, Find;
    InFlightOk(cfg, s, rid, want);
  }

  lemma NewKeepsMaterial(h: History, made: Option<SecretKey>, used: set<string>, now: Time)
    requires HistoryOk(h, made, used, now) && h.newNow.Some?
    ensures made.Some? && h.newNow.value.material == made.value.material
  {
  }

  /** Where the new key is stored as active it is the active key, and the provider serves the previous one's. */
  lemma NewIsTheActive(cfg: Config, s: State, rid: Rid, want: Claims)
    requires Inv(cfg, s, want) && InFlight(s, rid) && (MarksFailed(s.rots[rid].pc) || s.rots[rid].pc.CompleteSession?)
    requires NewKeyIsActive(KeysOf(s, s.rots[rid].secret), s.rots[rid])
    ensures var r := s.rots[rid];
      && GetActive(KeysOf(s, r.secret)).Some?
      && GetActive(KeysOf(s, r.secret)).value.material == r.newKey.value.material
      && (want.agreement && GetActive(r.hist.begin).Some? ==>
            Provider.CurrentValue(ProviderOf(s, r.secret)) == Some(GetActive(r.hist.begin).value.material))
  {
    hide HistoryOk, Overlay, GetActive, Find, QuietOk, OnePerSecret, Staged;
    var r := s.rots[rid];
    InFlightOk(cfg, s, rid, want);
    OverlayLookups(r.hist, r.made, s.usedIds, s.now);
    OverlayMembers(r.hist, r.made, s.usedIds, s.now);
    OverlayHasOneActive(r.hist, r.made, s.usedIds, s.now);
    NewKeepsMaterial(r.hist, r.made, s.usedIds, s.now);
    GetActiveIsTheOne(KeysOf(s, r.secret), r.hist.newNow.value);
  }

  lemma CompletingIsActive(cfg: Config, s: State, rid: Rid, want: Claims)
    requires Inv(cfg, s, want) && InFlight(s, rid) && s.rots[rid].pc.CompleteSession?
    ensures NewKeyIsActive(KeysOf(s, s.rots[rid].secret), s.rots[rid])
  {
    hide HistoryOk, Overlay, GetActive, Find, QuietOk, OnePerSecret, Staged;
    var r := s.rots[rid];
    InFlightOk(cfg, s, rid, want);
    OverlayLookups(r.hist, r.made, s.usedIds, s.now);
  }

  lemma MadeIsPending(h: History, made: Option<SecretKey>, used: set<string>, now: Time)
    requires HistoryOk(h, made, used, now)
    ensures made.Some? ==> made.value.status == Pending && made.value.keyId !in Ids(h.begin)
  {
  }

  lemma NobodyActive(cfg: Config, s: State, rid: Rid, want: Claims)
    requires Inv(cfg, s, want) && InFlight(s, rid) && (Reactivates(s.rots[rid].pc) || s.rots[rid].pc.ActivateUpdate?)
    requires PreviousIsOut(KeysOf(s, s.rots[rid].secret), s.rots[rid])
    ensures !HasActive(KeysOf(s, s.rots[rid].secret))
  {
    hide HistoryOk, Overlay, GetActive, Find, QuietOk, OnePerSecret, Staged;
    var r := s.rots[rid];
    var h := r.hist;
    InFlightOk(cfg, s, rid, want);
    BeginFacts(h, r.made, s.usedIds, s.now);
    OverlayLookups(h, r.made, s.usedIds, s.now);
    OverlayMembers(h, r.made, s.usedIds, s.now);
    MadeIsPending(h, r.made, s.usedIds, s.now);
    assert forall k :: k in KeysOf(s, r.secret) ==> k.status != Active;
  }

  lemma PreviousNotTerminal(h: History, made: Option<SecretKey>, used: set<string>, now: Time)
    requires HistoryOk(h, made, used, now) && GetActive(h.begin).Some?
    ensures !Terminal(PreviousValue(h).status)
    ensures PreviousRewritten(GetActive(h.begin).value, Reactivated(PreviousValue(h), now))
  {
    BeginFacts(h, made, used, now);
  }

  /** Where marking is due: the previous key, if any, and the new key as last written. */
  lemma MarkDue(cfg: Config, s: State, rid: Rid, want: Claims)
    requires Inv(cfg, s, want) && InFlight(s, rid) && MarksFailed(s.rots[rid].pc)
    ensures var r := s.rots[rid];
      && HistoryOk(r.hist, r.made, s.usedIds, s.now) && KeysOf(s, r.secret) == Overlay(r.hist)
      && r.newKey.Some? && r.newKey == r.made && r.hist.newNow.Some? && r.hist.newNow.value.status != Failed
      && Find(KeysOf(s, r.secret), r.newKey.value.keyId) == r.hist.newNow
      && (HasPrevious(r) ==>
            && GetActive(r.hist.begin).Some? && r.prevId.value != r.newKey.value.keyId
            && Find(KeysOf(s, r.secret), r.prevId.value) == Some(PreviousValue(r.hist))
            && !Terminal(PreviousValue(r.hist).status))
  {
    hide HistoryOk, Overlay, GetActive, Find, QuietOk, OnePerSecret, Serves;
    var r := s.rots[rid];
    InFlightOk(cfg, s, rid, want);
    BeginFacts(r.hist, r.made, s.usedIds, s.now);
    OverlayLookups(r.hist, r.made, s.usedIds, s.now);
    MadeIsPending(r.hist, r.made, s.usedIds, s.now);
    if HasPrevious(r) {
      PreviousNotTerminal(r.hist, r.made, s.usedIds, s.now);
    }
  }

  // ---- After a failing mark the previous key comes back ---------------------------------------

  /** The records once the previous key has been reactivated. */
  function BackIn(keys: Keys, prev: SecretKey, now: Time): Keys {
    Put(keys, Reactivated(prev, now))
  }

  lemma ComesBack(cfg: Config, s: State, v: View, rid: Rid, prev: SecretKey, want: Claims, f: Flaw) returns (s': State)
    requires Ready(s, v, rid) && s.rots[rid].pc == ReactivateGet && s.rots[rid].prevId == Some(prev.keyId)
    requires Find(KeysIn(v, s.rots[rid].secret), prev.keyId) == Some(prev) && !Terminal(prev.status)
    ensures var r := s.rots[rid];
      && s'.rots == s.rots[rid := r.(pc := EmitFailed, seen := Some(prev),
                                    hist := r.hist.(prevNow := Some(Reactivated(prev, v.now)), prevAt := v.now))]
      && Shows(s', WithKeys(v, r.secret, BackIn(KeysIn(v, r.secret), prev, v.now)))
    ensures CanBreak(cfg, s', want, f) ==> CanBreak(cfg, s, want, f)
  {
    hide Moves, SameMaps, CanBreak, Find, Put;
    var r := s.rots[rid];
    var back := Reactivated(prev, v.now);
    AtReactivateGet(cfg, s, v, rid);
    var r1 := r.(seen := Some(prev), pc := ReactivateUpdate);
    var s1 := Returns(cfg, s, rid, Ok, r1, v, want, f);
    AtReactivateUpdate(cfg, s1, v, rid);
    s' := Returns(cfg, s1, rid, Ok, r1.(pc := EmitFailed, hist := r1.hist.(prevNow := Some(back), prevAt := v.now)),
                  WithKeys(v, r.secret, Put(KeysIn(v, r.secret), back)), want, f);
  }

  // ---- One active key -------------------------------------------------------------------------

  /** A failing mark of an active new key is followed by the previous key's return, and both are active. */
  lemma MarkThrowLeavesTwo(cfg: Config, s: State, rid: Rid, o: Outcome, want: Claims, f: Flaw)
    returns (s': State, v: View)
    requires Inv(cfg, s, want) && InFlight(s, rid) && Enabled(s, Advance(rid, o)) && !Allowed(s, rid, o, NO_CLAIMS)
    ensures Ready(s', v, rid) && s'.rots[rid].pc == EmitFailed && s'.rots == s.rots[rid := s'.rots[rid]]
    ensures s'.rots[rid].secret == s.rots[rid].secret
    ensures !AtMostOneActive(KeysIn(v, s.rots[rid].secret))
    ensures CanBreak(cfg, s', want, f) ==> CanBreak(cfg, Apply(cfg, s, Advance(rid, o)), want, f)
  {
    hide Inv, Find, Put, GetActive, AtMostOneActive, Kept, SameMaps, HistoryOk, CanBreak, Apply;
    MarkDue(cfg, s, rid, want);
    var r, name := s.rots[rid], s.rots[rid].secret;
    var keys, prev, new_ := KeysOf(s, name), PreviousValue(r.hist), r.hist.newNow.value;
    v := ViewOf(s);
    ViewShows(s);
    AtMarkThrow(cfg, s, v, rid, o.error);
    var s1 := Apply(cfg, s, Advance(rid, o));
    s' := ComesBack(cfg, s1, v, rid, prev, want, f);
    v := WithKeys(v, name, BackIn(keys, prev, s.now));
    var back := Reactivated(prev, s.now);
    FindPut(keys, back, back.keyId);
    FindPut(keys, back, new_.keyId);
    TwoMembersActive(Put(keys, back), back, new_);
  }

  /** The two calls after it, by name: the previous key is read and stored as active. */
  lemma TwoCallsLater(cfg: Config, s: State, rid: Rid, o: Outcome, want: Claims)
    requires Inv(cfg, s, want) && InFlight(s, rid) && Enabled(s, Advance(rid, o)) && !Allowed(s, rid, o, NO_CLAIMS)
    ensures var next, s1 := Advance(rid, Ok), Apply(cfg, s, Advance(rid, o));
      && Enabled(s1, next) && Enabled(Apply(cfg, s1, next), next)
      && !AtMostOneActive(KeysOf(Apply(cfg, Apply(cfg, s1, next), next), s.rots[rid].secret))
  {
    hide Inv, Find, Put, GetActive, AtMostOneActive, Kept, SameMaps, HistoryOk, Apply;
    MarkDue(cfg, s, rid, want);
    var r, name, v := s.rots[rid], s.rots[rid].secret, ViewOf(s);
    var keys, prev, new_ := KeysOf(s, name), PreviousValue(r.hist), r.hist.newNow.value;
    var back := Reactivated(prev, s.now);
    ViewShows(s);
    AtMarkThrow(cfg, s, v, rid, o.error);
    var s1 := Apply(cfg, s, Advance(rid, o));
    AtReactivateGet(cfg, s1, v, rid);
    var s2 := Apply(cfg, s1, Advance(rid, Ok));
    AtReactivateUpdate(cfg, s2, v, rid);
    ShownKeys(Apply(cfg, s2, Advance(rid, Ok)), WithKeys(v, name, Put(keys, back)), name);
    FindPut(keys, back, back.keyId);
    FindPut(keys, back, new_.keyId);
    TwoMembersActive(Put(keys, back), back, new_);
  }

  /** From every reachable state, each failing mark excluded for the single active key, at its read or at its write,
      can be followed by good steps to two active keys. */
  lemma FailedMarkLeavesTwoActive(cfg: Config, s: State, rid: Rid, o: Outcome, want: Claims)
    requires Inv(cfg, s, want) && InFlight(s, rid) && Enabled(s, Advance(rid, o)) && !Allowed(s, rid, o, NO_CLAIMS)
    ensures CanBreak(cfg, Apply(cfg, s, Advance(rid, o)), want, TwoActive(s.rots[rid].secret))
  {
    hide Inv, AtMostOneActive, SameMaps, CanBreak, Apply, Allowed;
    var f := TwoActive(s.rots[rid].secret);
    var s', v := MarkThrowLeavesTwo(cfg, s, rid, o, want, f);
    ShownKeys(s', v, s.rots[rid].secret);
    BreaksNow(cfg, s', want, f);
  }

  /** Good steps from a reachable state break no result. */
  lemma GoodNeverBreaks(cfg: Config, s: State, want: Claims, f: Flaw)
    requires Inv(cfg, s, want)
    requires match f
      case TwoActive(_) => true
      case Disagreement(_) => want.agreement
      case NotOneActive(name) => want.service && Serving(s, name)
      case Unrestored(rid) => want.restoration && rid in s.rots
    ensures !CanBreak(cfg, s, want, f)
  {
    hide Inv, Run, GoodRun, After, Serving, AtMostOneActive, HasActive, Agrees, RestoredButForOneFailed;
    forall ls | Run(cfg, s, ls) && GoodRun(cfg, s, ls, want) ensures !Broken(After(cfg, s, ls), f) {
      RunKeeps(cfg, s, ls, want);
      var s' := After(cfg, s, ls);
      match f
      case TwoActive(name) => InvMeansOneActive(cfg, s', name, want);
      case Disagreement(name) =>
        if Quiet(s', name) {
          QuietAgrees(cfg, s', name, want);
        }
      case NotOneActive(name) =>
        ServingOverRuns(cfg, s, ls, name, want);
        InvMeansOneActive(cfg, s', name, want);
        if Quiet(s', name) {
          ServedAtRest(s', name);
        }
      case Unrestored(rid) =>
        if rid in s'.rots && s'.rots[rid].pc == Unwind(false) {
          FailedIsRestored(cfg, s', rid, want);
        }
    }
  }

  lemma QuietAgrees(cfg: Config, s: State, name: string, want: Claims)
    requires Inv(cfg, s, want) && want.agreement && Quiet(s, name)
    ensures Agrees(SliceOf(s, name))
  {
    hide RotationOk, KeysOk, Agrees;
  }

  lemma ServedAtRest(s: State, name: string)
    requires Serving(s, name) && Quiet(s, name)
    ensures HasActive(KeysOf(s, name))
  {
  }

  lemma FailedIsRestored(cfg: Config, s: State, rid: Rid, want: Claims)
    requires Inv(cfg, s, want) && want.restoration && rid in s.rots && s.rots[rid].pc == Unwind(false)
    ensures RestoredButForOneFailed(s.rots[rid].hist.begin, KeysOf(s, s.rots[rid].secret))
  {
    hide RotationOk, QuietOk, RestoredButForOneFailed;
    assert InFlight(s, rid);
    InFlightOk(cfg, s, rid, want);
    CompensationIsExact(cfg, SliceOf(s, s.rots[rid].secret), s.rots[rid], s.usedIds, s.now, s.nextVersion, want);
  }

  // ---- Agreement ------------------------------------------------------------------------------

  const AGREEMENT: Claims := Claims(true, false, false)
  const SERVICE: Claims := Claims(false, true, false)
  const RESTORATION: Claims := Claims(false, false, true)

  /** The provider does not serve the new key's material. */
  predicate ServesAnother(s: State, rid: Rid)
    requires rid in s.rots
  {
    var r := s.rots[rid];
    r.newKey.Some? && Provider.CurrentValue(ProviderOf(s, r.secret)) != Some(r.newKey.value.material)
  }

  lemma ReactivateMayThrow(s: State, rid: Rid, o: Outcome)
    requires Enabled(s, Advance(rid, o)) && s.rots[rid].pc == ReactivateGet
    ensures GoodStep(s, Advance(rid, o), AGREEMENT)
  {
    hide Possible, Kept, Find;
  }

  /** The step throws and the rotation gives up with the records and the provider as they are. */
  lemma GivesUp(cfg: Config, s: State, rid: Rid, o: Outcome, f: Flaw) returns (s': State, v: View)
    requires Inv(cfg, s, AGREEMENT) && InFlight(s, rid) && Enabled(s, Advance(rid, o)) && !Allowed(s, rid, o, AGREEMENT)
    ensures Ready(s', v, rid) && s'.rots[rid].pc == EmitFailed && s'.rots == s.rots[rid := s'.rots[rid]]
    ensures s'.rots[rid].secret == s.rots[rid].secret && v.keys == s.store && v.secrets == s.provider
    ensures CanBreak(cfg, s', AGREEMENT, f) ==> CanBreak(cfg, Apply(cfg, s, Advance(rid, o)), AGREEMENT, f)
  {
    hide Inv, Find, Put, GetActive, Kept, SameMaps, CanBreak, Apply, GoodStep;
    var r := s.rots[rid];
    v := ViewOf(s);
    ViewShows(s);
    s' := Apply(cfg, s, Advance(rid, o));
    if MarksFailed(r.pc) {
      AtMarkThrow(cfg, s, v, rid, o.error);
      if HasPrevious(r) {
        var s1 := s';
        var r1 := r.(pc := ReactivateGet);
        AtReactivateThrow(cfg, s1, v, rid, "");
        ReactivateMayThrow(s1, rid, Throw(""));
        s' := Goes(cfg, s1, rid, Throw(""), r1.(pc := EmitFailed), v, AGREEMENT, f);
      }
    } else {
      EntriesNeedManager(cfg, s, rid, AGREEMENT);
      AtThrow(cfg, s, v, rid, o.error);
    }
  }

  lemma ExcludedForAgreement(cfg: Config, s: State, rid: Rid, o: Outcome)
    requires Inv(cfg, s, AGREEMENT) && InFlight(s, rid) && Enabled(s, Advance(rid, o)) && !Allowed(s, rid, o, AGREEMENT)
    ensures MarksFailed(s.rots[rid].pc) || s.rots[rid].pc.CompleteSession?
    ensures NewKeyIsActive(KeysOf(s, s.rots[rid].secret), s.rots[rid])
  {
    hide Inv, Find, Kept;
    if s.rots[rid].pc.CompleteSession? {
      CompletingIsActive(cfg, s, rid, AGREEMENT);
    }
  }

  /**
   * A call keeps store and provider in agreement at rest exactly if it is not one of the two excluded failures: then
   * no good continuation breaks agreement; and after an excluded one the new key is active while the provider serves
   * what it did, the previous key's material if there was one, which breaks it unless the two materials are equal.
   */
  lemma AgreementIsExact(cfg: Config, s: State, rid: Rid, o: Outcome)
    requires Inv(cfg, s, AGREEMENT) && InFlight(s, rid) && Enabled(s, Advance(rid, o))
    ensures var name := s.rots[rid].secret;
      var breaks := CanBreak(cfg, Apply(cfg, s, Advance(rid, o)), AGREEMENT, Disagreement(name));
      && (Allowed(s, rid, o, AGREEMENT) ==> !breaks)
      && (ServesAnother(s, rid) ==> (Allowed(s, rid, o, AGREEMENT) <==> !breaks))
    ensures !Allowed(s, rid, o, AGREEMENT) ==>
      var r := s.rots[rid];
      && r.newKey.Some?
      && (GetActive(r.hist.begin).Some? ==>
            Provider.CurrentValue(ProviderOf(s, r.secret)) == Some(GetActive(r.hist.begin).value.material))
  {
    hide Inv, Find, GetActive, CanBreak, Apply, Allowed, SameMaps;
    var name := s.rots[rid].secret;
    var f := Disagreement(name);
    if Allowed(s, rid, o, AGREEMENT) {
      AllowedIsGood(s, rid, o, AGREEMENT);
      StepKeeps(cfg, s, Advance(rid, o), AGREEMENT);
      GoodNeverBreaks(cfg, Apply(cfg, s, Advance(rid, o)), AGREEMENT, f);
    } else {
      ExcludedForAgreement(cfg, s, rid, o);
      NewIsTheActive(cfg, s, rid, AGREEMENT);
      var s1, v := GivesUp(cfg, s, rid, o, f);
      StillAlone(cfg, s, s1, rid, AGREEMENT);
      var s2 := Leaves(cfg, s1, v, rid, AGREEMENT, f);
      if ServesAnother(s, rid) {
        BreaksNow(cfg, s2, AGREEMENT, f);
      }
    }
  }

  lemma AllowedIsGood(s: State, rid: Rid, o: Outcome, want: Claims)
    requires Enabled(s, Advance(rid, o)) && Allowed(s, rid, o, want)
    ensures GoodStep(s, Advance(rid, o), want)
  {
    hide StepOk;
  }

  lemma StillAlone(cfg: Config, s: State, s': State, rid: Rid, want: Claims)
    requires Inv(cfg, s, want) && InFlight(s, rid) && InFlight(s', rid) && s'.rots == s.rots[rid := s'.rots[rid]]
    requires s'.rots[rid].secret == s.rots[rid].secret
    ensures Alone(s', rid)
  {
    hide Inv;
    IsAlone(cfg, s, rid, want);
    forall x | InFlight(s', x) && x != rid ensures s'.rots[x].secret != s'.rots[rid].secret {
      assert InFlight(s, x);
    }
  }

  // ---- Service --------------------------------------------------------------------------------

  lemma NotServed(cfg: Config, s: State, v: View, rid: Rid, want: Claims)
    requires Ready(s, v, rid) && s.rots[rid].pc == EmitFailed && Alone(s, rid)
    requires !ExactlyOneActive(KeysIn(v, s.rots[rid].secret))
    ensures CanBreak(cfg, s, want, NotOneActive(s.rots[rid].secret))
  {
    hide SameMaps, CanBreak, ExactlyOneActive;
    var f := NotOneActive(s.rots[rid].secret);
    var s' := Leaves(cfg, s, v, rid, want, f);
    BreaksNow(cfg, s', want, f);
  }

  /** A failing reactivation, or a failing activation without compensation, with the previous key out. */
  lemma ServiceGivenUp(cfg: Config, s: State, rid: Rid, o: Outcome)
    requires Inv(cfg, s, SERVICE) && InFlight(s, rid) && Enabled(s, Advance(rid, o))
    requires Allowed(s, rid, o, NO_CLAIMS) && !Allowed(s, rid, o, SERVICE)
    ensures CanBreak(cfg, Apply(cfg, s, Advance(rid, o)), SERVICE, NotOneActive(s.rots[rid].secret))
  {
    hide Inv, Find, Put, GetActive, Kept, SameMaps, CanBreak, Apply, HasActive, AtMostOneActive;
    var r, v := s.rots[rid], ViewOf(s);
    NobodyActive(cfg, s, rid, SERVICE);
    ViewShows(s);
    var s' := Apply(cfg, s, Advance(rid, o));
    if Reactivates(r.pc) {
      AtReactivateThrow(cfg, s, v, rid, o.error);
    } else {
      EntriesNeedManager(cfg, s, rid, SERVICE);
      AtThrow(cfg, s, v, rid, o.error);
    }
    StillAlone(cfg, s, s', rid, SERVICE);
    NotServed(cfg, s', v, rid, SERVICE);
  }

  /**
   * A call of a rotation of a secret in service keeps exactly one key active at rest exactly if it is not one of the
   * failures excluded for service.
   */
  lemma ServiceIsExact(cfg: Config, s: State, rid: Rid, o: Outcome)
    requires Inv(cfg, s, SERVICE) && InFlight(s, rid) && Enabled(s, Advance(rid, o)) && Serving(s, s.rots[rid].secret)
    ensures Allowed(s, rid, o, SERVICE) <==>
      !CanBreak(cfg, Apply(cfg, s, Advance(rid, o)), SERVICE, NotOneActive(s.rots[rid].secret))
  {
    hide Inv, CanBreak, Apply, Allowed, SameMaps, AtMostOneActive, HasActive, Serving;
    var name := s.rots[rid].secret;
    var f := NotOneActive(name);
    if Allowed(s, rid, o, SERVICE) {
      AllowedIsGood(s, rid, o, SERVICE);
      StepKeeps(cfg, s, Advance(rid, o), SERVICE);
      ServingKept(cfg, s, Advance(rid, o), name, SERVICE);
      GoodNeverBreaks(cfg, Apply(cfg, s, Advance(rid, o)), SERVICE, f);
    } else if Allowed(s, rid, o, NO_CLAIMS) {
      ServiceGivenUp(cfg, s, rid, o);
    } else {
      var s1, v := MarkThrowLeavesTwo(cfg, s, rid, o, SERVICE, f);
      StillAlone(cfg, s, s1, rid, SERVICE);
      NotServed(cfg, s1, v, rid, SERVICE);
    }
  }

  // ---- Restoration ----------------------------------------------------------------------------

  lemma NewNotFailed(h: History, made: Option<SecretKey>, used: set<string>, now: Time)
    requires HistoryOk(h, made, used, now) && h.newNow.Some? && h.newNow.value.status != Failed
    ensures !RestoredButForOneFailed(h.begin, Overlay(h))
  {
    BeginFacts(h, made, used, now);
    if h.prevNow.Some? {
      PutAt(h.begin, h.prevNow.value);
    }
    assert Overlay(h)[|h.begin|] == h.newNow.value;
  }

  lemma PreviousStaysOut(h: History, made: Option<SecretKey>, used: set<string>, now: Time)
    requires HistoryOk(h, made, used, now) && h.prevNow.Some? && h.prevNow.value.status == Expired
    ensures !RestoredButForOneFailed(h.begin, Overlay(h))
  {
    BeginFacts(h, made, used, now);
    PutAt(h.begin, h.prevNow.value);
    var p := GetActive(h.begin).value;
    var i :| 0 <= i < |h.begin| && h.begin[i] == p;
    assert Overlay(h)[i] == h.prevNow.value;
  }

  lemma PreviousOnlyExpires(h: History, made: Option<SecretKey>, used: set<string>, now: Time)
    requires HistoryOk(h, made, used, now) && GetActive(h.begin).Some?
    ensures PreviousValue(h).status != Active ==> h.prevNow.Some? && h.prevNow.value.status == Expired
  {
    BeginFacts(h, made, used, now);
  }

  /** Where a call that gives up compensation throws, the records are not the starting ones. */
  lemma NotRestored(cfg: Config, s: State, rid: Rid, o: Outcome)
    requires Inv(cfg, s, RESTORATION) && InFlight(s, rid) && Enabled(s, Advance(rid, o))
    requires !Allowed(s, rid, o, RESTORATION) && !MarksFailed(s.rots[rid].pc)
    ensures !RestoredButForOneFailed(s.rots[rid].hist.begin, KeysOf(s, s.rots[rid].secret))
  {
    hide HistoryOk, Overlay, GetActive, Find, QuietOk, OnePerSecret, Staged, Serves, RestoredButForOneFailed, Kept;
    var r := s.rots[rid];
    InFlightOk(cfg, s, rid, RESTORATION);
    OverlayLookups(r.hist, r.made, s.usedIds, s.now);
    MadeIsPending(r.hist, r.made, s.usedIds, s.now);
    BeginFacts(r.hist, r.made, s.usedIds, s.now);
    if Reactivates(r.pc) {
      PreviousOnlyExpires(r.hist, r.made, s.usedIds, s.now);
      PreviousStaysOut(r.hist, r.made, s.usedIds, s.now);
    } else {
      NewNotFailed(r.hist, r.made, s.usedIds, s.now);
    }
  }

  lemma EndsUnrestored(cfg: Config, s: State, v: View, rid: Rid, want: Claims)
    requires Ready(s, v, rid) && s.rots[rid].pc == EmitFailed
    requires !RestoredButForOneFailed(s.rots[rid].hist.begin, KeysIn(v, s.rots[rid].secret))
    ensures CanBreak(cfg, s, want, Unrestored(rid))
  {
    hide SameMaps, CanBreak, RestoredButForOneFailed;
    var s' := Reports(cfg, s, v, rid, want, Unrestored(rid));
    ShownKeys(s', WithEvent(v, rid, RotationFailed(s.rots[rid].stage)), s.rots[rid].secret);
    BreaksNow(cfg, s', want, Unrestored(rid));
  }

  /** After a failing mark even a successful reactivation leaves a key that has not failed. */
  lemma UnmarkedIsUnrestored(cfg: Config, s: State, rid: Rid, o: Outcome)
    requires Inv(cfg, s, RESTORATION) && InFlight(s, rid) && Enabled(s, Advance(rid, o))
    requires o.Throw? && MarksFailed(s.rots[rid].pc)
    ensures CanBreak(cfg, Apply(cfg, s, Advance(rid, o)), RESTORATION, Unrestored(rid))
  {
    hide Inv, Find, Put, GetActive, Kept, SameMaps, HistoryOk, CanBreak, Apply, Overlay, RestoredButForOneFailed;
    MarkDue(cfg, s, rid, RESTORATION);
    var r, v, f := s.rots[rid], ViewOf(s), Unrestored(rid);
    var h := r.hist;
    ViewShows(s);
    AtMarkThrow(cfg, s, v, rid, o.error);
    var s' := Apply(cfg, s, Advance(rid, o));
    if HasPrevious(r) {
      var prev := PreviousValue(h);
      var back := Reactivated(prev, s.now);
      PreviousNotTerminal(h, r.made, s.usedIds, s.now);
      WritePrevious(h, r.made, s.usedIds, s.now, back);
      h := h.(prevNow := Some(back), prevAt := s.now);
      s' := ComesBack(cfg, s', v, rid, prev, RESTORATION, f);
      v := WithKeys(v, r.secret, BackIn(KeysOf(s, r.secret), prev, s.now));
    }
    NewNotFailed(h, r.made, s.usedIds, s.now);
    EndsUnrestored(cfg, s', v, rid, RESTORATION);
  }

  /** A call lets a failed rotation restore the records exactly if it is not one of the failures excluded for that. */
  lemma RestorationIsExact(cfg: Config, s: State, rid: Rid, o: Outcome)
    requires Inv(cfg, s, RESTORATION) && InFlight(s, rid) && Enabled(s, Advance(rid, o))
    ensures Allowed(s, rid, o, RESTORATION) <==>
      !CanBreak(cfg, Apply(cfg, s, Advance(rid, o)), RESTORATION, Unrestored(rid))
  {
    hide Inv, Find, GetActive, CanBreak, Apply, Allowed, SameMaps, RestoredButForOneFailed, Kept;
    if Allowed(s, rid, o, RESTORATION) {
      AllowedIsGood(s, rid, o, RESTORATION);
      StepKeeps(cfg, s, Advance(rid, o), RESTORATION);
      AdvanceFrame(cfg, s, rid, o);
      GoodNeverBreaks(cfg, Apply(cfg, s, Advance(rid, o)), RESTORATION, Unrestored(rid));
    } else {
      ExcludedThrows(s, rid, o, RESTORATION);
      if MarksFailed(s.rots[rid].pc) {
        UnmarkedIsUnrestored(cfg, s, rid, o);
      } else {
        StopsUnrestored(cfg, s, rid, o);
      }
    }
  }

  lemma ExcludedThrows(s: State, rid: Rid, o: Outcome, want: Claims)
    requires Enabled(s, Advance(rid, o)) && !Allowed(s, rid, o, want)
    ensures o.Throw?
  {
    hide Kept, Find;
  }

  lemma StopsUnrestored(cfg: Config, s: State, rid: Rid, o: Outcome)
    requires Inv(cfg, s, RESTORATION) && InFlight(s, rid) && Enabled(s, Advance(rid, o))
    requires !Allowed(s, rid, o, RESTORATION) && !MarksFailed(s.rots[rid].pc)
    ensures CanBreak(cfg, Apply(cfg, s, Advance(rid, o)), RESTORATION, Unrestored(rid))
  {
    hide Inv, Find, Put, GetActive, Kept, SameMaps, CanBreak, Apply, RestoredButForOneFailed;
    NotRestored(cfg, s, rid, o);
    var r, v := s.rots[rid], ViewOf(s);
    ViewShows(s);
    if Reactivates(r.pc) {
      AtReactivateThrow(cfg, s, v, rid, o.error);
    } else if r.pc.StorePending? {
      EntriesNeedManager(cfg, s, rid, RESTORATION);
      AtStoreThrow(cfg, s, v, rid, o.error);
      v := v.(nextVersion := v.nextVersion + 1);
    } else {
      EntriesNeedManager(cfg, s, rid, RESTORATION);
      AtThrow(cfg, s, v, rid, o.error);
    }
    EndsUnrestored(cfg, Apply(cfg, s, Advance(rid, o)), v, rid, RESTORATION);
  }
}
