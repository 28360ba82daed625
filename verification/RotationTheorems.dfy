/**
 * What every run of interleaved rotations keeps, one at a time on each secret: one active key per secret and, as far
 * as claimed, an active key at rest, agreement with the provider and exact compensation of failures.
 */
module RotationTheorems {
  import opened Wrappers
  import opened KeyModel
  import opened RotationMachine
  import opened RotationInvariant
  import Provider = StagedProvider

  ghost predicate InFlight(s: State, rid: Rid) {
    rid in s.rots && !s.rots[rid].pc.Done?
  }

  /** No rotation of the secret is in flight. */
  ghost predicate Quiet(s: State, name: string) {
    forall rid :: InFlight(s, rid) ==> s.rots[rid].secret != name
  }

  /** If a key is active, the provider serves its material. */
  ghost predicate Agrees(sl: Slice) {
    GetActive(sl.keys).Some? ==> Provider.CurrentValue(sl.prov) == Some(GetActive(sl.keys).value.material)
  }

  ghost predicate QuietOk(sl: Slice, used: set<string>, now: Time, next: Provider.VersionId, want: Claims) {
    && KeysOk(sl.keys, used, now) && AtMostOneActive(sl.keys)
    && ProviderOk(sl.prov, next)
    && (want.agreement ==> Agrees(sl))
  }

  ghost predicate RotationsOk(cfg: Config, s: State, want: Claims) {
    forall rid :: InFlight(s, rid) ==>
      var r := s.rots[rid];
      && r.secret in s.rotating
      && RotationOk(cfg, SliceOf(s, r.secret), r, s.usedIds, s.now, s.nextVersion, want)
  }

  /** The guard admits one rotation of a secret at a time. */
  ghost predicate OnePerSecret(s: State) {
    forall a, b :: InFlight(s, a) && InFlight(s, b) && a != b ==> s.rots[a].secret != s.rots[b].secret
  }

  ghost predicate QuietSecretsOk(s: State, want: Claims) {
    forall name :: Quiet(s, name) ==> QuietOk(SliceOf(s, name), s.usedIds, s.now, s.nextVersion, want)
  }

  ghost predicate Inv(cfg: Config, s: State, want: Claims) {
    RotationsOk(cfg, s, want) && OnePerSecret(s) && QuietSecretsOk(s, want)
  }

  /** A state before any rotation: at most one active key each and, if wanted, agreement with the provider. */
  ghost predicate Initial(s: State, want: Claims) {
    && s.rots == map[]
    && forall name :: QuietOk(SliceOf(s, name), s.usedIds, s.now, s.nextVersion, want)
  }

  /** A step that has none of the failures to avoid, and no forced request for a secret already rotating. */
  ghost predicate GoodStep(s: State, l: Label, want: Claims) {
    && Enabled(s, l)
    && (l.Start? ==> l.secret !in s.rotating)
    && (l.Advance? ==>
      var r := s.rots[l.rid];
      StepOk(Kept(s.entries, l.rid), KeysOf(s, r.secret), r, l.o, want))
  }

  ghost predicate GoodRun(cfg: Config, s: State, ls: seq<Label>, want: Claims)
    decreases |ls|
  {
    ls == [] || (GoodStep(s, ls[0], want) && GoodRun(cfg, Apply(cfg, s, ls[0]), ls[1..], want))
  }

  lemma {:induction false} GoodRunIsRun(cfg: Config, s: State, ls: seq<Label>, want: Claims)
    requires GoodRun(cfg, s, ls, want)
    ensures Run(cfg, s, ls)
    decreases |ls|
  {
    if ls != [] {
      GoodRunIsRun(cfg, Apply(cfg, s, ls[0]), ls[1..], want);
    }
  }

  lemma {:induction false} RunExtends(cfg: Config, s: State, ls: seq<Label>, l: Label)
    requires Run(cfg, s, ls) && Enabled(After(cfg, s, ls), l)
    ensures Run(cfg, s, ls + [l]) && After(cfg, s, ls + [l]) == Apply(cfg, After(cfg, s, ls), l)
    decreases |ls|
  {
    hide Apply, Enabled;
    if ls == [] {
      assert ls + [l] == [l] && [l][1..] == [];
    } else {
      RunExtends(cfg, Apply(cfg, s, ls[0]), ls[1..], l);
      assert (ls + [l])[1..] == ls[1..] + [l] && (ls + [l])[0] == ls[0];
    }
  }

  lemma {:induction false} GoodRunExtends(cfg: Config, s: State, ls: seq<Label>, l: Label, want: Claims)
    requires GoodRun(cfg, s, ls, want) && Run(cfg, s, ls) && GoodStep(After(cfg, s, ls), l, want)
    ensures GoodRun(cfg, s, ls + [l], want)
    decreases |ls|
  {
    hide GoodStep, Apply, Enabled;
    if ls == [] {
      assert ls + [l] == [l] && [l][1..] == [];
    } else {
      GoodRunExtends(cfg, Apply(cfg, s, ls[0]), ls[1..], l, want);
      assert (ls + [l])[1..] == ls[1..] + [l] && (ls + [l])[0] == ls[0];
    }
  }

  // ---- Preservation over the whole system -----------------------------------------------------

  lemma StartOk(cfg: Config, s: State, name: string, overlapMs: int, want: Claims)
    requires QuietOk(SliceOf(s, name), s.usedIds, s.now, s.nextVersion, want)
    ensures RotationOk(cfg, SliceOf(s, name), NewRotation(s, name, overlapMs), s.usedIds, s.now, s.nextVersion, want)
  {
    var h := NewRotation(s, name, overlapMs).hist;
    assert Overlay(h) == h.begin;
  }

  lemma UnwindRecords(cfg: Config, sl: Slice, r: Rotation, used: set<string>, now: Time, next: Provider.VersionId,
                      want: Claims)
    requires RotationOk(cfg, sl, r, used, now, next, want) && r.pc.Unwind?
    ensures KeysOk(sl.keys, used, now) && AtMostOneActive(sl.keys) && ProviderOk(sl.prov, next)
  {
    hide Find, Put, GetActive, KeysOk, AtMostOneActive, Overlay, ProviderOk;
    OverlayMembers(r.hist, r.made, used, now);
    OverlayHasOneActive(r.hist, r.made, used, now);
  }

  lemma UnwindAgrees(cfg: Config, sl: Slice, r: Rotation, used: set<string>, now: Time, next: Provider.VersionId,
                     want: Claims)
    requires RotationOk(cfg, sl, r, used, now, next, want) && want.agreement && r.pc.Unwind? && GetActive(sl.keys).Some?
    ensures Provider.CurrentValue(sl.prov) == Some(GetActive(sl.keys).value.material)
  {
    hide Find, Put, GetActive, KeysOk, AtMostOneActive, Overlay, ProviderOk;
    var h := r.hist;
    BeginFacts(h, r.made, used, now);
    OverlayMembers(h, r.made, used, now);
    GetActiveIsNewest(sl.keys);
    var k := GetActive(sl.keys).value;
    assert k in Overlay(h) && k.status == Active;
    if r.pc.success {
      assert h.newNow == Some(k);
    } else {
      assert k.material == GetActive(h.begin).value.material;
    }
  }

  /** When a rotation leaves, its secret's records are in order again. */
  lemma UnwindOk(cfg: Config, sl: Slice, r: Rotation, used: set<string>, now: Time, next: Provider.VersionId,
                 want: Claims)
    requires RotationOk(cfg, sl, r, used, now, next, want) && r.pc.Unwind?
    ensures QuietOk(sl, used, now, next, want)
  {
    hide RotationOk, KeysOk, AtMostOneActive, ProviderOk;
    UnwindRecords(cfg, sl, r, used, now, next, want);
    if want.agreement && GetActive(sl.keys).Some? {
      UnwindAgrees(cfg, sl, r, used, now, next, want);
    }
  }

  lemma RotationMonotone(cfg: Config, sl: Slice, r: Rotation, used: set<string>, used': set<string>, now: Time,
                         now': Time, next: Provider.VersionId, next': Provider.VersionId, want: Claims)
    requires RotationOk(cfg, sl, r, used, now, next, want) && used <= used' && now <= now' && next <= next'
    ensures RotationOk(cfg, sl, r, used', now', next', want)
  {
    hide Overlay, Find, Put, GetActive;
    HistoryMonotone(r.hist, r.made, used, used', now, now');
  }

  lemma QuietMonotone(sl: Slice, used: set<string>, used': set<string>, now: Time, now': Time,
                      next: Provider.VersionId, next': Provider.VersionId, want: Claims)
    requires QuietOk(sl, used, now, next, want) && used <= used' && now <= now' && next <= next'
    ensures QuietOk(sl, used', now', next', want)
  {
  }

  lemma TickKeeps(cfg: Config, s: State, ms: nat, want: Claims)
    requires Inv(cfg, s, want)
    ensures Inv(cfg, Apply(cfg, s, Tick(ms)), want)
  {
    hide RotationOk, QuietOk;
    var s' := Apply(cfg, s, Tick(ms));
    forall rid | InFlight(s', rid)
      ensures s'.rots[rid].secret in s'.rotating
      ensures RotationOk(cfg, SliceOf(s', s'.rots[rid].secret), s'.rots[rid], s'.usedIds, s'.now, s'.nextVersion, want)
    {
      assert InFlight(s, rid);
      RotationMonotone(cfg, SliceOf(s, s.rots[rid].secret), s.rots[rid], s.usedIds, s.usedIds, s.now, s'.now,
                       s.nextVersion, s.nextVersion, want);
    }
    forall name | Quiet(s', name)
      ensures QuietOk(SliceOf(s', name), s'.usedIds, s'.now, s'.nextVersion, want)
    {
      assert forall rid :: InFlight(s, rid) ==> InFlight(s', rid);
      assert Quiet(s, name);
      QuietMonotone(SliceOf(s, name), s.usedIds, s.usedIds, s.now, s'.now, s.nextVersion, s.nextVersion, want);
    }
    assert forall rid :: InFlight(s', rid) ==> InFlight(s, rid);
  }

  lemma StartKeeps(cfg: Config, s: State, l: Label, want: Claims)
    requires Inv(cfg, s, want) && l.Start? && GoodStep(s, l, want)
    ensures Inv(cfg, Apply(cfg, s, l), want)
  {
    hide RotationOk, QuietOk;
    var s' := Apply(cfg, s, l);
    assert Quiet(s, l.secret);
    StartOk(cfg, s, l.secret, l.overlapMs, want);
    assert forall rid :: InFlight(s', rid) <==> InFlight(s, rid) || rid == l.rid;
    forall name | Quiet(s', name)
      ensures QuietOk(SliceOf(s', name), s'.usedIds, s'.now, s'.nextVersion, want)
    {
      assert Quiet(s, name);
      assert SliceOf(s', name) == SliceOf(s, name);
    }
    forall rid | InFlight(s', rid)
      ensures s'.rots[rid].secret in s'.rotating
      ensures RotationOk(cfg, SliceOf(s', s'.rots[rid].secret), s'.rots[rid], s'.usedIds, s'.now, s'.nextVersion, want)
    {
      assert SliceOf(s', s'.rots[rid].secret) == SliceOf(s, s'.rots[rid].secret);
    }
  }

  lemma ProgressIdentity(cfg: Config, now: Time, next: Provider.VersionId, kept: bool, sl: Slice, r: Rotation,
                         o: Outcome)
    requires Possible(r, o) && !Ending(r.pc)
    ensures var l := Progress(cfg, now, next, kept, sl, r, o);
      l.r.secret == r.secret && l.r.hist.begin == r.hist.begin && !l.r.pc.Done?
  {
    hide Find, Put, GetActive, Update, FirstCompensation, AfterCancel, AfterMark, WriteKey;
    if r.pc.ActivateExpire? || r.pc.ActivateUpdate? {
      ActivationIdentity(cfg, now, next, kept, sl, r, o);
    }
  }

  lemma ActivationIdentity(cfg: Config, now: Time, next: Provider.VersionId, kept: bool, sl: Slice, r: Rotation,
                           o: Outcome)
    requires Possible(r, o) && (r.pc.ActivateExpire? || r.pc.ActivateUpdate?)
    ensures var l := Progress(cfg, now, next, kept, sl, r, o);
      l.r.secret == r.secret && l.r.hist.begin == r.hist.begin && !l.r.pc.Done?
  {
    hide Find, Put, GetActive, Update, FirstCompensation, AfterCancel, AfterMark;
  }

  lemma CompensationIdentity(now: Time, sl: Slice, r: Rotation, o: Outcome)
    requires Possible(r, o) && Ending(r.pc)
    ensures var l := Compensation(now, sl, r, o);
      && l.r.secret == r.secret && l.r.hist.begin == r.hist.begin
      && (r.pc.Unwind? <==> l.r.pc.Done?) && (r.pc.Unwind? ==> l.slice == sl)
  {
    hide Find, Put, GetActive, Update, FirstCompensation, AfterCancel, AfterMark;
  }

  lemma StepIdentity(cfg: Config, now: Time, next: Provider.VersionId, kept: bool, sl: Slice, r: Rotation, o: Outcome)
    requires Possible(r, o) && !r.pc.Done?
    ensures var l := StepLocal(cfg, now, next, kept, sl, r, o);
      && l.r.secret == r.secret && l.r.hist.begin == r.hist.begin
      && (r.pc.Unwind? <==> l.r.pc.Done?) && (r.pc.Unwind? ==> l.slice == sl)
  {
    hide Progress, Compensation;
    if Ending(r.pc) {
      CompensationIdentity(now, sl, r, o);
    } else {
      ProgressIdentity(cfg, now, next, kept, sl, r, o);
    }
  }

  lemma ProgressStores(cfg: Config, now: Time, next: Provider.VersionId, kept: bool, sl: Slice, r: Rotation, o: Outcome)
    requires Possible(r, o) && !Ending(r.pc)
    ensures Progress(cfg, now, next, kept, sl, r, o).slice.keys == Stored(sl.keys, WriteOf(now, sl.keys, r, o))
  {
    hide Find, Put, GetActive, FirstCompensation, AfterCancel, AfterMark;
  }

  lemma CompensationStores(now: Time, sl: Slice, r: Rotation, o: Outcome)
    requires Possible(r, o) && Ending(r.pc)
    ensures Compensation(now, sl, r, o).slice.keys == Stored(sl.keys, WriteOf(now, sl.keys, r, o))
  {
    hide Find, Put, GetActive, FirstCompensation, AfterCancel, AfterMark;
  }

  /** A call stores at most one record. */
  lemma StepStores(cfg: Config, now: Time, next: Provider.VersionId, kept: bool, sl: Slice, r: Rotation, o: Outcome)
    requires Possible(r, o)
    ensures StepLocal(cfg, now, next, kept, sl, r, o).slice.keys == Stored(sl.keys, WriteOf(now, sl.keys, r, o))
  {
    hide Progress, Compensation, WriteOf;
    if Ending(r.pc) {
      CompensationStores(now, sl, r, o);
    } else {
      ProgressStores(cfg, now, next, kept, sl, r, o);
    }
  }

  /**
   * What one advance does to the rest of the system: it hands out ids, logs its event, and may push or flag a
   * rollback entry, which can evict others'.
   */
  lemma AdvanceFrame(cfg: Config, s: State, rid: Rid, o: Outcome)
    requires Enabled(s, Advance(rid, o))
    ensures var s' := Apply(cfg, s, Advance(rid, o));
      var r, l := s.rots[rid], LocalOf(cfg, s, rid, o);
      && s'.now == s.now && s'.usedIds == UsedAfter(o, s.usedIds) && s'.nextVersion == VersionAfter(r, s.nextVersion)
      && s'.rots == s.rots[rid := l.r] && SliceOf(s', r.secret) == l.slice && l.r.secret == r.secret
      && l.r.hist.begin == r.hist.begin
      && (forall name :: name != r.secret ==> SliceOf(s', name) == SliceOf(s, name))
      && (r.pc.Unwind? <==> l.r.pc.Done?)
      && (r.pc.Unwind? ==> l.slice == SliceOf(s, r.secret))
      && s'.rotating == (if r.pc.Unwind? then s.rotating - {r.secret} else s.rotating)
      && s'.entries == EntriesAfter(cfg, s.entries, rid, r, o)
      && s'.events == (if l.emitted.Some? then s.events + [(rid, l.emitted.value)] else s.events)
  {
    hide StepLocal, EntriesAfter;
    var r := s.rots[rid];
    StepIdentity(cfg, s.now, s.nextVersion, Kept(s.entries, rid), SliceOf(s, r.secret), r, o);
  }

  lemma AdvanceKeeps(cfg: Config, s: State, l: Label, want: Claims)
    requires Inv(cfg, s, want) && l.Advance? && GoodStep(s, l, want)
    ensures Inv(cfg, Apply(cfg, s, l), want)
  {
    hide RotationOk, QuietOk, StepLocal, StepOk, Apply;
    var s' := Apply(cfg, s, l);
    var r, done := s.rots[l.rid], s.rots[l.rid].pc.Unwind?;
    assert InFlight(s, l.rid);
    AdvanceFrame(cfg, s, l.rid, l.o);
    MoverKeeps(cfg, s, l, want);
    assert forall rid :: InFlight(s', rid) <==> InFlight(s, rid) && (rid == l.rid ==> !done);
    forall rid | InFlight(s', rid)
      ensures s'.rots[rid].secret in s'.rotating
      ensures RotationOk(cfg, SliceOf(s', s'.rots[rid].secret), s'.rots[rid], s'.usedIds, s'.now, s'.nextVersion, want)
    {
      if rid != l.rid {
        RotationMonotone(cfg, SliceOf(s, s.rots[rid].secret), s.rots[rid], s.usedIds, s'.usedIds, s.now, s'.now,
                         s.nextVersion, s'.nextVersion, want);
      }
    }
    forall name | Quiet(s', name)
      ensures QuietOk(SliceOf(s', name), s'.usedIds, s'.now, s'.nextVersion, want)
    {
      if name != r.secret {
        assert Quiet(s, name);
        QuietMonotone(SliceOf(s, name), s.usedIds, s'.usedIds, s.now, s'.now, s.nextVersion, s'.nextVersion, want);
      } else {
        assert done;
        UnwindOk(cfg, SliceOf(s, name), r, s.usedIds, s.now, s.nextVersion, want);
        QuietMonotone(SliceOf(s, name), s.usedIds, s'.usedIds, s.now, s'.now, s.nextVersion, s'.nextVersion, want);
      }
    }
  }

  lemma MoverKeeps(cfg: Config, s: State, l: Label, want: Claims)
    requires Inv(cfg, s, want) && l.Advance? && GoodStep(s, l, want)
    ensures var r, m := s.rots[l.rid], LocalOf(cfg, s, l.rid, l.o);
      RotationOk(cfg, m.slice, m.r, UsedAfter(l.o, s.usedIds), s.now, VersionAfter(r, s.nextVersion), want)
  {
    hide RotationOk, StepLocal, StepOk;
    var r := s.rots[l.rid];
    assert InFlight(s, l.rid);
    StepKeepsRotation(Turn(cfg, s.now, s.nextVersion, Kept(s.entries, l.rid), SliceOf(s, r.secret), r,
                           l.o, s.usedIds, want));
  }

  lemma StepKeeps(cfg: Config, s: State, l: Label, want: Claims)
    requires Inv(cfg, s, want) && GoodStep(s, l, want)
    ensures Inv(cfg, Apply(cfg, s, l), want)
  {
    match l
    case Tick(ms) => TickKeeps(cfg, s, ms, want);
    case Start(_, _, _, _) => StartKeeps(cfg, s, l, want);
    case Advance(_, _) => AdvanceKeeps(cfg, s, l, want);
  }
}
