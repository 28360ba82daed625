/**
 * A forced request for a secret that is rotating always can lead to two active keys: the first rotation's `finally`
 * unmarks the secret while the forced one still runs, so a further, unforced request overlaps it.
 */
module RotationOverlaps {
  import opened Wrappers
  import opened KeyModel
  import opened RotationMachine
  import opened RotationInvariant
  import opened RotationTheorems
  import opened RotationLimits
  import Provider = StagedProvider
  import RotationResults
  import WorkflowSteps

  // ---- Calls that return ----------------------------------------------------------------------

  /** How far a rotation is from its end. */
  function Rank(pc: Pc): nat {
    match pc
    case ReadPrevious => 22
    case Generate => 21
    case SaveKey => 20
    case EmitGenerated => 19
    case BeginSession => 18
    case StorePending => 17
    case EmitPropagated => 16
    case Verify => 15
    case EmitVerified => 14
    case ActivateGet => 13
    case ActivateGetActive => 12
    case ActivateExpire => 11
    case ActivateUpdate => 10
    case CompleteSession => 9
    case EmitActivated => 8
    case CancelSession => 7
    case MarkGet => 6
    case MarkUpdate => 5
    case ReactivateGet => 4
    case ReactivateUpdate => 3
    case EmitFailed => 2
    case Unwind(_) => 1
    case Done(_) => 0
  }

  lemma FailureRank(cfg: Config, kept: bool, r: Rotation)
    ensures Rank(FirstCompensation(cfg, kept, r)) <= 7 && Rank(AfterCancel(r)) <= 6 && Rank(AfterMark(r)) <= 4
  {
  }

  lemma ExpireDescends(cfg: Config, now: Time, next: Provider.VersionId, kept: bool, sl: Slice, r: Rotation,
                       o: Outcome)
    requires Possible(r, o) && r.pc.ActivateExpire?
    ensures Rank(Progress(cfg, now, next, kept, sl, r, o).r.pc) < Rank(r.pc)
  {
    hide Find, Put, GetActive, FirstCompensation, AfterCancel, AfterMark;
    FailureRank(cfg, kept, r);
  }

  lemma UpdateDescends(cfg: Config, now: Time, next: Provider.VersionId, kept: bool, sl: Slice, r: Rotation,
                       o: Outcome)
    requires Possible(r, o) && r.pc.ActivateUpdate?
    ensures Rank(Progress(cfg, now, next, kept, sl, r, o).r.pc) < Rank(r.pc)
  {
    hide Find, Put, GetActive, FirstCompensation, AfterCancel, AfterMark;
    FailureRank(cfg, kept, r);
  }

  lemma GetDescends(cfg: Config, now: Time, next: Provider.VersionId, kept: bool, sl: Slice, r: Rotation,
                    o: Outcome)
    requires Possible(r, o) && r.pc.ActivateGet?
    ensures Rank(Progress(cfg, now, next, kept, sl, r, o).r.pc) < Rank(r.pc)
  {
    hide Find, Put, GetActive, FirstCompensation, AfterCancel, AfterMark, Update;
    FailureRank(cfg, kept, r);
  }

  lemma ActivationDescends(cfg: Config, now: Time, next: Provider.VersionId, kept: bool, sl: Slice, r: Rotation,
                           o: Outcome)
    requires Possible(r, o) && (r.pc.ActivateGetActive? || r.pc.CompleteSession? || r.pc.EmitActivated?)
    ensures Rank(Progress(cfg, now, next, kept, sl, r, o).r.pc) < Rank(r.pc)
  {
    hide Find, Put, GetActive, FirstCompensation, AfterCancel, AfterMark, Update;
    FailureRank(cfg, kept, r);
  }

  lemma EarlyDescends(cfg: Config, now: Time, next: Provider.VersionId, kept: bool, sl: Slice, r: Rotation,
                      o: Outcome)
    requires Possible(r, o) && !Ending(r.pc) && Rank(r.pc) > 13
    ensures Rank(Progress(cfg, now, next, kept, sl, r, o).r.pc) < Rank(r.pc)
  {
    hide Find, Put, GetActive, FirstCompensation, AfterCancel, AfterMark, WriteKey;
    FailureRank(cfg, kept, r);
  }

  lemma ProgressDescends(cfg: Config, now: Time, next: Provider.VersionId, kept: bool, sl: Slice, r: Rotation,
                         o: Outcome)
    requires Possible(r, o) && !Ending(r.pc)
    ensures Rank(Progress(cfg, now, next, kept, sl, r, o).r.pc) < Rank(r.pc)
  {
    hide Progress;
    if r.pc.ActivateExpire? {
      ExpireDescends(cfg, now, next, kept, sl, r, o);
    } else if r.pc.ActivateUpdate? {
      UpdateDescends(cfg, now, next, kept, sl, r, o);
    } else if Rank(r.pc) > 13 {
      EarlyDescends(cfg, now, next, kept, sl, r, o);
    } else if r.pc.ActivateGet? {
      GetDescends(cfg, now, next, kept, sl, r, o);
    } else {
      ActivationDescends(cfg, now, next, kept, sl, r, o);
    }
  }

  lemma MarkGetDescends(now: Time, sl: Slice, r: Rotation, o: Outcome)
    requires Possible(r, o) && r.pc.MarkGet?
    ensures Rank(Compensation(now, sl, r, o).r.pc) < Rank(r.pc)
  {
    hide Find, Put, GetActive, FirstCompensation, AfterCancel, AfterMark, WriteKey;
    FailureRank(Config(None), false, r);
  }

  lemma MarkDescends(now: Time, sl: Slice, r: Rotation, o: Outcome)
    requires Possible(r, o) && r.pc.MarkUpdate?
    ensures Rank(Compensation(now, sl, r, o).r.pc) < Rank(r.pc)
  {
    hide Find, Put, GetActive, FirstCompensation, AfterCancel, AfterMark, MarkedFailed;
    FailureRank(Config(None), false, r);
  }

  lemma ReactivateGetDescends(now: Time, sl: Slice, r: Rotation, o: Outcome)
    requires Possible(r, o) && r.pc.ReactivateGet?
    ensures Rank(Compensation(now, sl, r, o).r.pc) < Rank(r.pc)
  {
    hide Find, Put, GetActive, FirstCompensation, AfterCancel, AfterMark, WriteKey;
    FailureRank(Config(None), false, r);
  }

  lemma ReactivateDescends(now: Time, sl: Slice, r: Rotation, o: Outcome)
    requires Possible(r, o) && r.pc.ReactivateUpdate?
    ensures Rank(Compensation(now, sl, r, o).r.pc) < Rank(r.pc)
  {
    hide Find, Put, GetActive, FirstCompensation, AfterCancel, AfterMark, Reactivated;
    FailureRank(Config(None), false, r);
  }

  lemma OtherCompensationDescends(now: Time, sl: Slice, r: Rotation, o: Outcome)
    requires Possible(r, o) && (r.pc.CancelSession? || r.pc.EmitFailed? || r.pc.Unwind?)
    ensures Rank(Compensation(now, sl, r, o).r.pc) < Rank(r.pc)
  {
    hide Find, Put, GetActive, FirstCompensation, AfterCancel, AfterMark, WriteKey;
    FailureRank(Config(None), false, r);
  }

  lemma CompensationDescends(now: Time, sl: Slice, r: Rotation, o: Outcome)
    requires Possible(r, o) && Ending(r.pc)
    ensures Rank(Compensation(now, sl, r, o).r.pc) < Rank(r.pc)
  {
    hide Compensation;
    match r.pc
    case MarkGet => MarkGetDescends(now, sl, r, o);
    case MarkUpdate => MarkDescends(now, sl, r, o);
    case ReactivateGet => ReactivateGetDescends(now, sl, r, o);
    case ReactivateUpdate => ReactivateDescends(now, sl, r, o);
    case _ => OtherCompensationDescends(now, sl, r, o);
  }

  lemma StepDescends(cfg: Config, s: State, rid: Rid, o: Outcome)
    requires Enabled(s, Advance(rid, o))
    ensures Rank(LocalOf(cfg, s, rid, o).r.pc) < Rank(s.rots[rid].pc)
  {
    hide Progress, Compensation;
    var r, kept, sl := s.rots[rid], Kept(s.entries, rid), SliceOf(s, s.rots[rid].secret);
    if Ending(r.pc) {
      CompensationDescends(s.now, sl, r, o);
    } else {
      ProgressDescends(cfg, s.now, s.nextVersion, kept, sl, r, o);
    }
  }

  lemma {:induction false} Longer(used: set<string>) returns (n: nat)
    ensures forall id :: id in used ==> |id| < n
    decreases |used|
  {
    if used == {} {
      n := 0;
    } else {
      var id :| id in used;
      var m := Longer(used - {id});
      n := if |id| < m then m else |id| + 1;
    }
  }

  /** There is always an id not handed out yet. */
  lemma FreshId(used: set<string>) returns (id: string)
    ensures id != "" && id !in used
  {
    var n := Longer(used);
    id := seq(n + 1, _ => 'k');
  }

  /** A way for the call to return. */
  lemma Answer(s: State, rid: Rid) returns (o: Outcome)
    requires InFlight(s, rid)
    ensures Enabled(s, Advance(rid, o)) && !o.Throw?
  {
    if s.rots[rid].pc == Generate {
      var id := FreshId(s.usedIds);
      o := Made(id, "", Raw, map[]);
    } else {
      o := Ok;
    }
  }

  /** A call returns: the rotation is further on, and what breaks later can break now. */
  lemma CallReturns(cfg: Config, s: State, rid: Rid, o: Outcome, want: Claims, f: Flaw) returns (s': State)
    requires InFlight(s, rid) && Enabled(s, Advance(rid, o)) && !o.Throw?
    ensures s' == Apply(cfg, s, Advance(rid, o)) && Rank(LocalOf(cfg, s, rid, o).r.pc) < Rank(s.rots[rid].pc)
    ensures CanBreak(cfg, s', want, f) ==> CanBreak(cfg, s, want, f)
  {
    hide Apply, CanBreak, LocalOf, GoodStep;
    s' := Apply(cfg, s, Advance(rid, o));
    StepDescends(cfg, s, rid, o);
    WorkflowSteps.ReturnIsGood(s, rid, o, want);
    if CanBreak(cfg, s', want, f) {
      BreaksLater(cfg, s, Advance(rid, o), want, f);
    }
  }

  /** All further calls of a rotation return, and it leaves. */
  lemma {:induction false} Finishes(cfg: Config, s: State, rid: Rid, want: Claims, f: Flaw) returns (s': State)
    requires InFlight(s, rid)
    ensures rid in s'.rots && s'.rots == s.rots[rid := s'.rots[rid]]
    ensures s'.rotating == s.rotating - {s.rots[rid].secret}
    ensures CanBreak(cfg, s', want, f) ==> CanBreak(cfg, s, want, f)
    decreases Rank(s.rots[rid].pc)
  {
    hide Apply, CanBreak, LocalOf, Enabled, EntriesAfter, SliceOf, UsedAfter, VersionAfter;
    var o := Answer(s, rid);
    s' := CallReturns(cfg, s, rid, o, want, f);
    AdvanceFrame(cfg, s, rid, o);
    if !s.rots[rid].pc.Unwind? {
      s' := Finishes(cfg, s', rid, want, f);
    }
  }

  // ---- A rotation up to its activating write --------------------------------------------------

  ghost predicate Pends(keys: Keys, id: string) {
    Find(keys, id).Some? && Find(keys, id).value.status == Pending
  }

  /** The rotation has a key of its own, with an id handed out since `before`. */
  ghost predicate HasKey(r: Rotation, before: set<string>, used: set<string>) {
    r.made.Some? && r.made.value.keyId in used && r.made.value.keyId !in before
  }

  /** The rotation is on its way to activate a key of its own, and nothing else stands in its way. */
  ghost predicate Bound(r: Rotation, keys: Keys, before: set<string>, used: set<string>) {
    match r.pc
    case ReadPrevious | Generate => true
    case SaveKey => HasKey(r, before, used) && r.made.value.status == Pending
    case EmitGenerated => HasKey(r, before, used) && Pends(keys, r.made.value.keyId)
    case BeginSession | StorePending | EmitPropagated | Verify | EmitVerified | ActivateGet =>
      HasKey(r, before, used) && r.newKey == r.made && Pends(keys, r.made.value.keyId)
    case ActivateGetActive => HasKey(r, before, used) && Seen(r, keys)
    case ActivateExpire =>
      HasKey(r, before, used) && Seen(r, keys) && r.seenActive.Some? && Find(keys, r.seenActive.value.keyId).Some?
    case ActivateUpdate => HasKey(r, before, used) && Seen(r, keys)
    case _ => false
  }

  ghost predicate Seen(r: Rotation, keys: Keys)
    requires r.made.Some?
  {
    r.seen.Some? && r.seen.value.keyId == r.made.value.keyId && Find(keys, r.made.value.keyId).Some?
  }

  ghost predicate KeepsIds(keys: Keys, keys': Keys) {
    forall id :: Find(keys, id).Some? ==> Find(keys', id).Some?
  }

  lemma PutKeepsIds(keys: Keys, key: SecretKey)
    ensures KeepsIds(keys, Put(keys, key)) && Find(Put(keys, key), key.keyId) == Some(key)
  {
    hide Find, Put;
    forall id ensures Find(keys, id).Some? ==> Find(Put(keys, key), id).Some? {
      FindPut(keys, key, id);
    }
    FindPut(keys, key, key.keyId);
  }

  ghost predicate Advances(sl: Slice, r: Rotation, o: Outcome, l: Local, before: set<string>, used: set<string>) {
    Bound(l.r, l.slice.keys, before, UsedAfter(o, used)) && KeepsIds(sl.keys, l.slice.keys) && l.r.secret == r.secret
  }

  lemma DrawAdvances(cfg: Config, now: Time, next: Provider.VersionId, kept: bool, sl: Slice, r: Rotation, o: Outcome,
                     before: set<string>, used: set<string>)
    requires Possible(r, o) && !o.Throw? && FreshMade(o, used) && before <= used && Bound(r, sl.keys, before, used)
    requires r.pc.ReadPrevious? || r.pc.Generate? || r.pc.SaveKey? || r.pc.EmitGenerated?
    ensures Advances(sl, r, o, Progress(cfg, now, next, kept, sl, r, o), before, used)
  {
    hide Find, Put, GetActive, WriteKey, FirstCompensation;
    if r.pc.SaveKey? {
      PutKeepsIds(sl.keys, r.made.value);
    }
  }

  lemma StageAdvances(cfg: Config, now: Time, next: Provider.VersionId, kept: bool, sl: Slice, r: Rotation, o: Outcome,
                      before: set<string>, used: set<string>)
    requires Possible(r, o) && !o.Throw? && Bound(r, sl.keys, before, used) && 14 <= Rank(r.pc) <= 18
    ensures Advances(sl, r, o, Progress(cfg, now, next, kept, sl, r, o), before, used)
  {
    hide Find, Put, GetActive, WriteKey, FirstCompensation;
  }

  lemma LookAdvances(cfg: Config, now: Time, next: Provider.VersionId, kept: bool, sl: Slice, r: Rotation, o: Outcome,
                     before: set<string>, used: set<string>)
    requires Possible(r, o) && !o.Throw? && Bound(r, sl.keys, before, used)
    requires r.pc.ActivateGet? || r.pc.ActivateGetActive?
    ensures Advances(sl, r, o, Progress(cfg, now, next, kept, sl, r, o), before, used)
  {
    hide Find, Put, GetActive, WriteKey, FirstCompensation;
    GetActiveIsNewest(sl.keys);
  }

  lemma ExpireAdvances(cfg: Config, now: Time, next: Provider.VersionId, kept: bool, sl: Slice, r: Rotation, o: Outcome,
                       before: set<string>, used: set<string>)
    requires Possible(r, o) && !o.Throw? && Bound(r, sl.keys, before, used) && r.pc.ActivateExpire?
    ensures Advances(sl, r, o, Progress(cfg, now, next, kept, sl, r, o), before, used)
  {
    hide Find, Put, GetActive, FirstCompensation;
    PutKeepsIds(sl.keys, ExpiredBy(r.seenActive.value, now, r.overlapMs));
  }

  lemma BoundAdvances(cfg: Config, s: State, rid: Rid, o: Outcome, before: set<string>)
    requires Enabled(s, Advance(rid, o)) && !o.Throw? && before <= s.usedIds && Rank(s.rots[rid].pc) > 10
    requires Bound(s.rots[rid], KeysOf(s, s.rots[rid].secret), before, s.usedIds)
    ensures Advances(SliceOf(s, s.rots[rid].secret), s.rots[rid], o, LocalOf(cfg, s, rid, o), before, s.usedIds)
  {
    hide Progress, Bound, Advances;
    var r, kept, sl := s.rots[rid], Kept(s.entries, rid), SliceOf(s, s.rots[rid].secret);
    if Rank(r.pc) > 18 {
      DrawAdvances(cfg, s.now, s.nextVersion, kept, sl, r, o, before, s.usedIds);
    } else if Rank(r.pc) > 13 {
      StageAdvances(cfg, s.now, s.nextVersion, kept, sl, r, o, before, s.usedIds);
    } else if r.pc.ActivateExpire? {
      ExpireAdvances(cfg, s.now, s.nextVersion, kept, sl, r, o, before, s.usedIds);
    } else {
      LookAdvances(cfg, s.now, s.nextVersion, kept, sl, r, o, before, s.usedIds);
    }
  }

  lemma BoundRank(r: Rotation, keys: Keys, before: set<string>, used: set<string>)
    requires Bound(r, keys, before, used)
    ensures Rank(r.pc) >= 10 && !r.pc.Unwind? && !r.pc.Done? && (Rank(r.pc) == 10 ==> r.pc == ActivateUpdate)
  {
  }

  /** It gets to its activating write, and no record is lost meanwhile. */
  lemma {:induction false} GetsToActivate(cfg: Config, s: State, rid: Rid, before: set<string>, want: Claims, f: Flaw)
    returns (s': State)
    requires rid in s.rots && Bound(s.rots[rid], KeysOf(s, s.rots[rid].secret), before, s.usedIds)
    requires before <= s.usedIds
    ensures rid in s'.rots && s'.rots == s.rots[rid := s'.rots[rid]] && s'.rotating == s.rotating
    ensures s.usedIds <= s'.usedIds
    ensures var r := s'.rots[rid];
      && r.secret == s.rots[rid].secret && r.pc == ActivateUpdate
      && Bound(r, KeysOf(s', r.secret), before, s'.usedIds)
      && KeepsIds(KeysOf(s, r.secret), KeysOf(s', r.secret))
    ensures CanBreak(cfg, s', want, f) ==> CanBreak(cfg, s, want, f)
    decreases Rank(s.rots[rid].pc)
  {
    hide Apply, CanBreak, LocalOf, Enabled, EntriesAfter, Bound, VersionAfter;
    BoundRank(s.rots[rid], KeysOf(s, s.rots[rid].secret), before, s.usedIds);
    if s.rots[rid].pc == ActivateUpdate {
      s' := s;
    } else {
      var o := Answer(s, rid);
      var s1 := CallReturns(cfg, s, rid, o, want, f);
      AdvanceFrame(cfg, s, rid, o);
      BoundAdvances(cfg, s, rid, o, before);
      s' := GetsToActivate(cfg, s1, rid, before, want, f);
    }
  }

  /** The activating write goes through. */
  lemma Activates(cfg: Config, s: State, rid: Rid, want: Claims, f: Flaw) returns (s': State)
    requires rid in s.rots && s.rots[rid].pc == ActivateUpdate && s.rots[rid].made.Some?
    requires Seen(s.rots[rid], KeysOf(s, s.rots[rid].secret))
    ensures var r := s.rots[rid];
      && rid in s'.rots && s'.rots == s.rots[rid := s'.rots[rid]]
      && KeysOf(s', r.secret) == Put(KeysOf(s, r.secret), Activated(r.seen.value, s.now))
      && s'.now == s.now
    ensures CanBreak(cfg, s', want, f) ==> CanBreak(cfg, s, want, f)
  {
    hide Apply, CanBreak, Find, Put, EntriesAfter, FirstCompensation, Kept;
    s' := CallReturns(cfg, s, rid, Ok, want, f);
    AdvanceFrame(cfg, s, rid, Ok);
    assert KeysOf(s', s.rots[rid].secret) == SliceOf(s', s.rots[rid].secret).keys;
  }

  // ---- A forced request for a secret that is rotating -----------------------------------------

  /** One rotation waits to store its key as active, and another request comes. */
  lemma ThirdOverlaps(cfg: Config, s: State, b: Rid, c: Rid, want: Claims) returns (s': State)
    requires b in s.rots && c !in s.rots && s.rots[b].secret !in s.rotating
    requires s.rots[b].pc == ActivateUpdate && Bound(s.rots[b], KeysOf(s, s.rots[b].secret), {}, s.usedIds)
    ensures var name, r := s.rots[b].secret, s.rots[b];
      && c in s'.rots && s'.rots == s.rots[c := s'.rots[c]] && s'.rots[c].secret == name
      && s'.rots[c].pc == ActivateUpdate && Bound(s'.rots[c], KeysOf(s', name), s.usedIds, s'.usedIds)
      && KeepsIds(KeysOf(s, name), KeysOf(s', name))
    ensures var f := TwoActive(s.rots[b].secret); CanBreak(cfg, s', want, f) ==> CanBreak(cfg, s, want, f)
  {
    hide CanBreak, Find;
    var name, f := s.rots[b].secret, TwoActive(s.rots[b].secret);
    var s1 := Apply(cfg, s, Start(c, name, 0, false));
    s' := GetsToActivate(cfg, s1, c, s.usedIds, want, f);
    if CanBreak(cfg, s', want, f) {
      BreaksLater(cfg, s, Start(c, name, 0, false), want, f);
    }
  }

  /** Both store their keys as active. */
  lemma BothActivate(cfg: Config, s: State, b: Rid, c: Rid, want: Claims)
    requires b in s.rots && c in s.rots && b != c && s.rots[b].secret == s.rots[c].secret
    requires forall x :: x in {b, c} ==>
      var r := s.rots[x]; r.pc == ActivateUpdate && r.made.Some? && Seen(r, KeysOf(s, r.secret))
    requires s.rots[b].made.value.keyId != s.rots[c].made.value.keyId
    ensures CanBreak(cfg, s, want, TwoActive(s.rots[b].secret))
  {
    hide CanBreak, Find, Put, KeysOf, AtMostOneActive;
    assert b in {b, c} && c in {b, c};
    var name, f := s.rots[b].secret, TwoActive(s.rots[b].secret);
    var k1, k2 := Activated(s.rots[c].seen.value, s.now), Activated(s.rots[b].seen.value, s.now);
    var keys := KeysOf(s, name);
    var s1 := Activates(cfg, s, c, want, f);
    FindPut(keys, k1, k2.keyId);
    FindPut(keys, k1, k1.keyId);
    var s2 := Activates(cfg, s1, b, want, f);
    FindPut(Put(keys, k1), k2, k1.keyId);
    FindPut(Put(keys, k1), k2, k2.keyId);
    RotationResults.TwoMembersActive(Put(Put(keys, k1), k2), k1, k2);
    BreaksNow(cfg, s2, want, f);
  }

  lemma FreshRid(s: State) returns (rid: Rid)
    ensures rid !in s.rots
  {
    var n := Above(s.rots.Keys);
    rid := n;
  }

  lemma {:induction false} Above(rids: set<Rid>) returns (n: nat)
    ensures forall x :: x in rids ==> x < n
    decreases |rids|
  {
    if rids == {} {
      n := 0;
    } else {
      var x :| x in rids;
      var m := Above(rids - {x});
      n := if x < m then m else x + 1;
      assert forall y :: y in rids ==> y == x || y in rids - {x};
    }
  }

  /**
   * From every state in which a secret rotates, a forced request for it can be followed by good steps, further
   * unforced requests among them, to two active keys.
   */
  lemma ForcedOverlapBreaks(cfg: Config, s: State, a: Rid, b: Rid, overlapMs: int, want: Claims)
    requires InFlight(s, a) && b !in s.rots
    ensures CanBreak(cfg, Apply(cfg, s, Start(b, s.rots[a].secret, overlapMs, true)), want, TwoActive(s.rots[a].secret))
  {
    hide CanBreak, Find, KeysOf, Rank;
    var name, f := s.rots[a].secret, TwoActive(s.rots[a].secret);
    var s1 := Apply(cfg, s, Start(b, name, overlapMs, true));
    assert InFlight(s1, a) && s1.rots[a] == s.rots[a];
    var s2 := Finishes(cfg, s1, a, want, f);
    var s3 := GetsToActivate(cfg, s2, b, {}, want, f);
    var c := FreshRid(s3);
    var s4 := ThirdOverlaps(cfg, s3, b, c, want);
    BothActivate(cfg, s4, b, c, want);
  }

  // ---- The single active key, exactly ---------------------------------------------------------

  /** A marked secret is rotating. */
  ghost predicate MarksAreInFlight(s: State) {
    forall name :: name in s.rotating ==> !Quiet(s, name)
  }

  /** This holds in every run from a state with nothing marked. */
  lemma StepKeepsMarks(cfg: Config, s: State, l: Label)
    requires MarksAreInFlight(s) && Enabled(s, l)
    ensures MarksAreInFlight(Apply(cfg, s, l))
  {
    hide StepLocal, EntriesAfter;
    var s' := Apply(cfg, s, l);
    if l.Advance? {
      AdvanceFrame(cfg, s, l.rid, l.o);
    }
    forall name | name in s'.rotating ensures !Quiet(s', name) {
      if name in s.rotating {
        var rid :| InFlight(s, rid) && s.rots[rid].secret == name;
        assert InFlight(s', rid) && s'.rots[rid].secret == name;
      } else {
        assert InFlight(s', l.rid) && s'.rots[l.rid].secret == name;
      }
    }
  }

  lemma {:induction false} RunKeepsMarks(cfg: Config, s: State, ls: seq<Label>)
    requires MarksAreInFlight(s) && Run(cfg, s, ls)
    ensures MarksAreInFlight(After(cfg, s, ls))
    decreases |ls|
  {
    hide MarksAreInFlight, Apply, Enabled;
    if ls != [] {
      StepKeepsMarks(cfg, s, ls[0]);
      RunKeepsMarks(cfg, Apply(cfg, s, ls[0]), ls[1..]);
    }
  }

  ghost function SecretOf(s: State, l: Label): string
    requires Enabled(s, l)
  {
    match l
    case Tick(_) => ""
    case Start(_, secret, _, _) => secret
    case Advance(rid, _) => s.rots[rid].secret
  }

  /**
   * The conditions of the single active key are exact: from every reachable state, a step of any kind meets them if
   * and only if no continuation that meets them leads to two active keys of its secret.
   */
  lemma SingleActiveIsExact(cfg: Config, s: State, l: Label)
    requires Inv(cfg, s, NO_CLAIMS) && MarksAreInFlight(s) && Enabled(s, l)
    ensures GoodStep(s, l, NO_CLAIMS) <==> !CanBreak(cfg, Apply(cfg, s, l), NO_CLAIMS, TwoActive(SecretOf(s, l)))
  {
    hide Inv, CanBreak, Apply, StepOk;
    if GoodStep(s, l, NO_CLAIMS) {
      StepKeeps(cfg, s, l, NO_CLAIMS);
      GoodNeverBreaks(cfg, Apply(cfg, s, l), NO_CLAIMS, TwoActive(SecretOf(s, l)));
    } else if l.Start? {
      var a :| InFlight(s, a) && s.rots[a].secret == l.secret;
      ForcedOverlapBreaks(cfg, s, a, l.rid, l.overlapMs, NO_CLAIMS);
    } else if l.Advance? {
      assert InFlight(s, l.rid);
      FailedMarkLeavesTwoActive(cfg, s, l.rid, l.o, NO_CLAIMS);
    }
  }
}
