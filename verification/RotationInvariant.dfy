/**
 * What every step of a rotation keeps.  While a rotation is in flight the secret's records are exactly
 * its starting records with the previous key possibly rewritten and the new key possibly appended.
 */
module RotationInvariant {
  import opened Wrappers
  import opened KeyModel
  import opened RotationMachine
  import Provider = StagedProvider

  // ---- The records of a secret under rotation -------------------------------------------------

  ghost predicate KeysOk(keys: Keys, used: set<string>, now: Time) {
    && Distinct(keys)
    && forall k :: k in keys ==>
      k.keyId in used && k.keyId != "" && k.validFrom <= now
  }

  ghost function Overlay(h: History): Keys {
    (if h.prevNow.Some? then Put(h.begin, h.prevNow.value) else h.begin)
    + (if h.newNow.Some? then [h.newNow.value] else [])
  }

  /** The previous key, or equal to it but for status, `rotatedAt` and `validUntil`; open-ended if active. */
  ghost predicate PreviousRewritten(prev: SecretKey, v: SecretKey) {
    v == prev ||
    ((v.status == Active || v.status == Expired)
    && (v.status == Active ==> v.validUntil.None?)
    && v.(status := Active, rotatedAt := prev.rotatedAt, validUntil := prev.validUntil) == prev)
  }

  /** Equal to the generated key but for status, `rotatedAt` and metadata. */
  ghost predicate NewRewritten(made: SecretKey, v: SecretKey) {
    && (v.status == Pending || v.status == Active || v.status == Failed)
    && v.(status := Pending, rotatedAt := None, metadata := made.metadata) == made
  }

  ghost predicate HistoryOk(h: History, made: Option<SecretKey>, used: set<string>, now: Time) {
    && KeysOk(h.begin, used, now) && AtMostOneActive(h.begin)
    && (h.prevNow.Some? ==> GetActive(h.begin).Some? && PreviousRewritten(GetActive(h.begin).value, h.prevNow.value))
    && (made.Some? ==>
      var m := made.value;
      && m.keyId in used && m.keyId != "" && m.keyId !in Ids(h.begin)
      && m.status == Pending && m.validUntil.None? && m.rotatedAt.None? && m.validFrom <= now)
    && (h.newNow.Some? ==> made.Some? && NewRewritten(made.value, h.newNow.value))
  }

  /** The previous active key has been moved out, or there was none. */
  ghost predicate PreviousOut(h: History) {
    GetActive(h.begin).None? || (h.prevNow.Some? && h.prevNow.value.status == Expired)
  }

  ghost function PreviousValue(h: History): SecretKey
    requires GetActive(h.begin).Some?
  {
    if h.prevNow.Some? then h.prevNow.value else GetActive(h.begin).value
  }

  lemma BeginFacts(h: History, made: Option<SecretKey>, used: set<string>, now: Time)
    requires HistoryOk(h, made, used, now)
    ensures GetActive(h.begin).Some? ==>
      var p := GetActive(h.begin).value;
      && p in h.begin && p.status == Active && p.keyId in Ids(h.begin) && p.keyId != ""
      && Find(h.begin, p.keyId) == Some(p)
      && forall k :: k in h.begin && k.status == Active ==> k == p
    ensures GetActive(h.begin).None? ==> forall k :: k in h.begin ==> k.status != Active
  {
    GetActiveIsNewest(h.begin);
    if GetActive(h.begin).Some? {
      FindIsUnique(h.begin, GetActive(h.begin).value);
    }
  }

  lemma OverlayLookups(h: History, made: Option<SecretKey>, used: set<string>, now: Time)
    requires HistoryOk(h, made, used, now)
    ensures GetActive(h.begin).Some? ==>
      Find(Overlay(h), GetActive(h.begin).value.keyId) == Some(PreviousValue(h))
    ensures made.Some? ==> Find(Overlay(h), made.value.keyId) == h.newNow
  {
    hide Put, Find, GetActive, KeysOk, AtMostOneActive, Ids;
    BeginFacts(h, made, used, now);
    var base := if h.prevNow.Some? then Put(h.begin, h.prevNow.value) else h.begin;
    var added := if h.newNow.Some? then [h.newNow.value] else [];
    assert Overlay(h) == base + added;
    if h.prevNow.Some? {
      FindPut(h.begin, h.prevNow.value, GetActive(h.begin).value.keyId);
      PutIds(h.begin, h.prevNow.value);
      assert Ids(base) == Ids(h.begin);
    }
    if GetActive(h.begin).Some? {
      FindAppend(base, added, GetActive(h.begin).value.keyId);
    }
    if made.Some? {
      FindAppend(base, added, made.value.keyId);
      FindOnly(h.newNow, made.value.keyId);
    }
  }

  lemma FindOnly(key: Option<SecretKey>, id: string)
    requires key.Some? ==> key.value.keyId == id
    ensures Find(if key.Some? then [key.value] else [], id) == key
  {
  }

  lemma {:induction false} FindAppend(a: Keys, b: Keys, id: string)
    ensures Find(a + b, id) == if id in Ids(a) then Find(a, id) else Find(b, id)
  {
    if a == [] {
      assert a + b == b;
    } else {
      assert (a + b)[1..] == a[1..] + b;
      FindAppend(a[1..], b, id);
      assert forall k :: k in a <==> k == a[0] || k in a[1..];
    }
  }

  /** Writing the new key rewrites the overlay and nothing else. */
  lemma WriteNew(h: History, made: Option<SecretKey>, used: set<string>, now: Time, key: SecretKey)
    requires HistoryOk(h, made, used, now) && made.Some? && NewRewritten(made.value, key)
    ensures Put(Overlay(h), key) == Overlay(h.(newNow := Some(key)))
    ensures HistoryOk(h.(newNow := Some(key)), made, used, now)
  {
    BeginFacts(h, made, used, now);
    var base := if h.prevNow.Some? then Put(h.begin, h.prevNow.value) else h.begin;
    if h.prevNow.Some? {
      PutIds(h.begin, h.prevNow.value);
    }
    assert key.keyId !in Ids(base);
    if h.newNow.Some? {
      PutAppend(base, h.newNow.value, key);
    } else {
      assert Overlay(h) == base;
      PutNew(base, key);
    }
  }

  /** Writing the previous key rewrites the overlay and nothing else. */
  lemma WritePrevious(h: History, made: Option<SecretKey>, used: set<string>, now: Time, key: SecretKey)
    requires HistoryOk(h, made, used, now)
    requires GetActive(h.begin).Some? && PreviousRewritten(GetActive(h.begin).value, key)
    ensures Put(Overlay(h), key) == Overlay(h.(prevNow := Some(key), prevAt := now))
    ensures HistoryOk(h.(prevNow := Some(key), prevAt := now), made, used, now)
  {
    BeginFacts(h, made, used, now);
    var base := if h.prevNow.Some? then Put(h.begin, h.prevNow.value) else h.begin;
    if h.prevNow.Some? {
      PutIds(h.begin, h.prevNow.value);
      PutTwice(h.begin, h.prevNow.value, key);
    }
    if h.newNow.Some? {
      PutAppend(base, h.newNow.value, key);
    } else {
      assert Overlay(h) == base;
    }
  }

  lemma {:induction false} PutMembers(keys: Keys, key: SecretKey)
    requires Distinct(keys) && key.keyId in Ids(keys)
    ensures forall k :: k in Put(keys, key) <==> (k in keys && k.keyId != key.keyId) || k == key
  {
    PutAt(keys, key);
    var put := Put(keys, key);
    forall k ensures k in put <==> (k in keys && k.keyId != key.keyId) || k == key {
      if k in put {
        var i :| 0 <= i < |put| && put[i] == k;
        assert keys[i] in keys;
      }
      if k in keys && k.keyId != key.keyId {
        var i :| 0 <= i < |keys| && keys[i] == k;
        assert put[i] == k;
      }
      if k == key {
        var k' :| k' in keys && k'.keyId == key.keyId;
        var i :| 0 <= i < |keys| && keys[i] == k';
        assert put[i] == k;
      }
    }
  }

  ghost function OverlayBase(h: History): Keys {
    if h.prevNow.Some? then Put(h.begin, h.prevNow.value) else h.begin
  }

  lemma OverlayBaseMembers(h: History, made: Option<SecretKey>, used: set<string>, now: Time)
    requires HistoryOk(h, made, used, now)
    ensures Distinct(OverlayBase(h)) && Ids(OverlayBase(h)) == Ids(h.begin)
    ensures forall k :: k in OverlayBase(h) <==>
      (k in h.begin && (h.prevNow.None? || k.keyId != h.prevNow.value.keyId)) || h.prevNow == Some(k)
  {
    BeginFacts(h, made, used, now);
    if h.prevNow.Some? {
      PutAt(h.begin, h.prevNow.value);
      PutIds(h.begin, h.prevNow.value);
      PutMembers(h.begin, h.prevNow.value);
    }
  }

  /** The members of an overlaid record list. */
  lemma OverlayMembers(h: History, made: Option<SecretKey>, used: set<string>, now: Time)
    requires HistoryOk(h, made, used, now)
    ensures KeysOk(Overlay(h), used, now)
    ensures forall k :: k in Overlay(h) <==>
      || (k in h.begin && (h.prevNow.None? || k.keyId != h.prevNow.value.keyId))
      || h.prevNow == Some(k) || h.newNow == Some(k)
  {
    OverlayBaseMembers(h, made, used, now);
    BeginFacts(h, made, used, now);
    var base := OverlayBase(h);
    if h.newNow.Some? {
      assert h.newNow.value.keyId !in Ids(base);
      PutNew(base, h.newNow.value);
    } else {
      assert Overlay(h) == base;
    }
    assert forall k :: k in Overlay(h) <==> k in base || h.newNow == Some(k);
  }

  lemma OverlayHasOneActive(h: History, made: Option<SecretKey>, used: set<string>, now: Time)
    requires HistoryOk(h, made, used, now)
    requires h.newNow.Some? && h.newNow.value.status == Active ==> PreviousOut(h)
    ensures AtMostOneActive(Overlay(h))
  {
    hide KeysOk, Overlay, GetActive, Put, Find, Ids, AtMostOneActive;
    OverlayMembers(h, made, used, now);
    BeginFacts(h, made, used, now);
    forall a, b | a in Overlay(h) && b in Overlay(h) && a.status == Active && b.status == Active
      ensures a.keyId == b.keyId
    {
    }
    OneActiveId(Overlay(h), used, now);
  }

  lemma OneActiveId(keys: Keys, used: set<string>, now: Time)
    requires KeysOk(keys, used, now)
    requires forall a, b :: a in keys && b in keys && a.status == Active && b.status == Active ==> a.keyId == b.keyId
    ensures AtMostOneActive(keys)
  {
    forall i, j | 0 <= i < |keys| && 0 <= j < |keys| && keys[i].status == Active && keys[j].status == Active
      ensures i == j
    {
      assert keys[i] in keys && keys[j] in keys;
    }
  }

  // ---- The invariant of one rotation ----------------------------------------------------------

  /**
   * What is to hold of a run besides the single active key: agreement with the provider, an active key at
   * rest for whoever had one, exact restoration after a failure.  Each rules out some failures.
   */
  datatype Claims = Claims(agreement: bool, service: bool, restoration: bool)

  const NO_CLAIMS: Claims := Claims(false, false, false)

  ghost function PreviousId(h: History): Option<string> {
    if GetActive(h.begin).Some? then Some(GetActive(h.begin).value.keyId) else None
  }

  /** `generateKey` has returned. */
  ghost predicate Generated(cfg: Config, r: Rotation) {
    && r.made.Some? && r.newKey == r.made && r.hist.newNow.Some?
    && r.prevId == PreviousId(r.hist) && r.hasEntry == cfg.rollback.Some?
  }

  ghost predicate Propagating(cfg: Config, r: Rotation) {
    Generated(cfg, r) && r.hist.prevNow.None? && r.hist.newNow == r.made
  }

  /** The session names the pending version and that version holds the new key's material. */
  ghost predicate Staged(r: Rotation, prov: Provider.Secret)
    requires r.made.Some?
  {
    && r.session.Some? && r.session.value.Some? && prov.pending == r.session.value
    && Provider.ValueOf(prov, r.session.value.value) == Some(r.made.value.material)
  }

  ghost predicate Verified(cfg: Config, r: Rotation, prov: Provider.Secret) {
    && Generated(cfg, r) && Staged(r, prov) && r.verifiedValue == Some(r.made.value.material)
  }

  ghost predicate NotBothActive(h: History) {
    h.newNow.Some? && h.newNow.value.status == Active ==> PreviousOut(h)
  }

  /** After complete compensation: the new key failed or never stored, the previous one active. */
  ghost predicate Compensated(h: History) {
    && (h.newNow.Some? ==> h.newNow.value.status == Failed)
    && (h.prevNow.Some? ==> h.prevNow.value.status == Active)
  }

  /** If there was an active key, it or the new one is active. */
  ghost predicate StillServed(h: History) {
    GetActive(h.begin).Some? && h.prevNow.Some? && h.prevNow.value.status == Expired ==>
      h.newNow.Some? && h.newNow.value.status == Active
  }

  ghost predicate Shape(cfg: Config, r: Rotation, prov: Provider.Secret, want: Claims) {
    var h := r.hist;
    match r.pc
    case ReadPrevious | Generate | SaveKey | EmitGenerated =>
      && h.prevNow.None? && r.newKey.None? && r.session.None? && !r.hasEntry
      && r.prevId == (if r.pc.ReadPrevious? then None else PreviousId(h))
      && (r.pc.SaveKey? || r.pc.EmitGenerated? ==> r.made.Some?)
      && h.newNow == (if r.pc.EmitGenerated? then r.made else None)
    case BeginSession => Propagating(cfg, r) && r.session.None?
    case StorePending => Propagating(cfg, r)
    case EmitPropagated | Verify => Propagating(cfg, r) && Staged(r, prov)
    case EmitVerified | ActivateGet => Propagating(cfg, r) && Verified(cfg, r, prov)
    case ActivateGetActive => Propagating(cfg, r) && Verified(cfg, r, prov) && r.seen == r.made
    case ActivateExpire =>
      && Propagating(cfg, r) && Verified(cfg, r, prov) && r.seen == r.made
      && r.seenActive.Some? && r.seenActive == GetActive(h.begin)
    case ActivateUpdate =>
      && Verified(cfg, r, prov) && h.newNow == r.made && r.seen == r.made && PreviousOut(h)
    case CompleteSession =>
      && Verified(cfg, r, prov) && h.newNow.value.status == Active && PreviousOut(h)
    case EmitActivated | Unwind(true) =>
      && Generated(cfg, r) && h.newNow.value.status == Active && PreviousOut(h)
    case CancelSession | MarkGet | MarkUpdate =>
      && Generated(cfg, r) && NotBothActive(h) && h.newNow.value.status != Failed
      && (r.pc.MarkUpdate? ==> r.seen == h.newNow)
    case ReactivateGet | ReactivateUpdate =>
      && (h.newNow.Some? ==> h.newNow.value.status != Active)
      && (want.restoration && h.newNow.Some? ==> h.newNow.value.status == Failed)
      && r.prevId == PreviousId(h) && GetActive(h.begin).Some?
      && (r.pc.ReactivateUpdate? ==> r.seen == Some(PreviousValue(h)))
    case EmitFailed | Unwind(false) =>
      && NotBothActive(h)
      && (want.agreement && h.newNow.Some? ==> h.newNow.value.status != Active)
      && (want.service ==> StillServed(h))
      && (want.restoration ==> Compensated(h))
    case Done(_) => true
  }

  /** The provider serves the previous key's material until the session completes, then the new key's. */
  ghost predicate Serves(r: Rotation, prov: Provider.Secret) {
    match r.pc
    case EmitActivated | Unwind(true) => r.made.Some? && Provider.CurrentValue(prov) == Some(r.made.value.material)
    case Done(_) => true
    case _ => GetActive(r.hist.begin).Some? ==>
                Provider.CurrentValue(prov) == Some(GetActive(r.hist.begin).value.material)
  }

  ghost predicate ProviderOk(prov: Provider.Secret, nextVersion: Provider.VersionId) {
    Provider.Below(prov, nextVersion) && Provider.StagesApart(prov)
  }

  /** The expired previous key stays valid for the overlap the rotation asked for. */
  ghost predicate OverlapKept(r: Rotation) {
    r.hist.prevNow.Some? && r.hist.prevNow.value.status == Expired ==>
      r.hist.prevNow.value.validUntil == Some(r.hist.prevAt + r.overlapMs)
  }

  ghost predicate RotationOk(cfg: Config, sl: Slice, r: Rotation, used: set<string>, now: Time,
                             nextVersion: Provider.VersionId, want: Claims) {
    && HistoryOk(r.hist, r.made, used, now)
    && sl.keys == Overlay(r.hist)
    && OverlapKept(r)
    && ProviderOk(sl.prov, nextVersion)
    && Shape(cfg, r, sl.prov, want)
    && (want.agreement ==> Serves(r, sl.prov))
  }

  // ---- The steps a run may take ---------------------------------------------------------------

  predicate MarksFailed(pc: Pc) {
    pc.MarkGet? || pc.MarkUpdate?
  }

  predicate Reactivates(pc: Pc) {
    pc.ReactivateGet? || pc.ReactivateUpdate?
  }

  /** The calls whose throw makes the rotation fail after its rollback entry was made. */
  predicate CanFailWithEntry(pc: Pc) {
    || pc.BeginSession? || pc.StorePending? || pc.Verify?
    || pc.ActivateGet? || pc.ActivateGetActive? || pc.ActivateExpire? || pc.ActivateUpdate?
    || pc.CompleteSession?
  }

  /** The new key is stored as active. */
  predicate NewKeyIsActive(keys: Keys, r: Rotation) {
    r.newKey.Some? &&
    var found := Find(keys, r.newKey.value.keyId);
    found.Some? && found.value.status == Active
  }

  /** The previous key is stored and no longer active. */
  predicate PreviousIsOut(keys: Keys, r: Rotation) {
    r.prevId.Some? &&
    var found := Find(keys, r.prevId.value);
    found.Some? && found.value.status != Active
  }

  /** The rotation throws after losing its rollback entry, so nothing is compensated. */
  predicate ThrowsUncompensated(kept: bool, r: Rotation, o: Outcome) {
    CanFailWithEntry(r.pc) && o.Throw? && r.hasEntry && !kept
  }

  /** Marking the new key failed throws while the previous key would come back beside it. */
  predicate MarkLeavesTwo(keys: Keys, r: Rotation, o: Outcome) {
    MarksFailed(r.pc) && o.Throw? && NewKeyIsActive(keys, r) && HasPrevious(r)
  }

  /**
   * The failures a step must not have.  Always, one that leaves two active keys.  For agreement, the two that
   * leave the new key active although the session did not complete.  For service, those that leave the
   * previous key expired and the new one not active.  For restoration, those that cut compensation short.
   */
  predicate StepOk(kept: bool, keys: Keys, r: Rotation, o: Outcome, want: Claims) {
    && !MarkLeavesTwo(keys, r, o)
    && (want.agreement ==>
          && !(MarksFailed(r.pc) && o.Throw? && NewKeyIsActive(keys, r))
          && !(r.pc.CompleteSession? && ThrowsUncompensated(kept, r, o)))
    && (want.service ==>
          && !(Reactivates(r.pc) && o.Throw? && PreviousIsOut(keys, r))
          && !(r.pc.ActivateUpdate? && ThrowsUncompensated(kept, r, o) && PreviousIsOut(keys, r)))
    && (want.restoration ==>
          && !(MarksFailed(r.pc) && o.Throw?)
          && !(Reactivates(r.pc) && o.Throw? && PreviousIsOut(keys, r))
          && !ThrowsUncompensated(kept, r, o))
  }

  // ---- Preservation, step by step -------------------------------------------------------------

  ghost predicate FreshMade(o: Outcome, used: set<string>) {
    o.Made? ==> o.keyId != "" && o.keyId !in used
  }

  ghost function UsedAfter(o: Outcome, used: set<string>): set<string> {
    if o.Made? then used + {o.keyId} else used
  }

  ghost function VersionAfter(r: Rotation, next: Provider.VersionId): Provider.VersionId {
    if r.pc.StorePending? then next + 1 else next
  }

  /** One step of one rotation, with everything it depends on. */
  datatype Turn = Turn(cfg: Config, now: Time, next: Provider.VersionId, kept: bool, slice: Slice, r: Rotation,
                       o: Outcome, used: set<string>, want: Claims)

  ghost predicate Before(t: Turn) {
    && RotationOk(t.cfg, t.slice, t.r, t.used, t.now, t.next, t.want)
    && Possible(t.r, t.o) && FreshMade(t.o, t.used) && StepOk(t.kept, t.slice.keys, t.r, t.o, t.want)
  }

  ghost function Taken(t: Turn): Local
    requires Possible(t.r, t.o)
  {
    StepLocal(t.cfg, t.now, t.next, t.kept, t.slice, t.r, t.o)
  }

  ghost predicate Keeps(t: Turn)
    requires Possible(t.r, t.o)
  {
    var l := Taken(t);
    RotationOk(t.cfg, l.slice, l.r, UsedAfter(t.o, t.used), t.now, VersionAfter(t.r, t.next), t.want)
  }

  lemma HistoryMonotone(h: History, made: Option<SecretKey>, used: set<string>, used': set<string>, now: Time,
                        now': Time)
    requires HistoryOk(h, made, used, now) && used <= used' && now <= now'
    ensures HistoryOk(h, made, used', now')
  {
  }

  lemma Facts(t: Turn)
    requires Before(t)
    ensures GetActive(t.r.hist.begin).Some? ==>
      var p := GetActive(t.r.hist.begin).value;
      && p.status == Active && p.keyId != ""
      && Find(t.slice.keys, p.keyId) == Some(PreviousValue(t.r.hist))
    ensures t.r.made.Some? ==>
      && Find(t.slice.keys, t.r.made.value.keyId) == t.r.hist.newNow
      && t.r.made.value.status == Pending && t.r.made.value.rotatedAt.None? && t.r.made.value.validUntil.None?
    ensures t.r.made.Some? && t.r.hist.newNow.Some? ==> NewRewritten(t.r.made.value, t.r.hist.newNow.value)
    ensures GetActive(t.r.hist.begin).Some? ==>
      PreviousRewritten(GetActive(t.r.hist.begin).value, PreviousValue(t.r.hist))
  {
    BeginFacts(t.r.hist, t.r.made, t.used, t.now);
    OverlayLookups(t.r.hist, t.r.made, t.used, t.now);
  }

  /** The calls of the try block that fail over when they throw. */
  predicate FailsOver(pc: Pc) {
    pc.ReadPrevious? || pc.Generate? || pc.SaveKey? || CanFailWithEntry(pc)
  }

  /** Every step of a rotation, whatever its outcome, keeps the rotation's invariant. */
  lemma StepKeepsRotation(t: Turn)
    requires Before(t)
    ensures Keeps(t)
  {
    hide Before, Keeps, RotationOk, StepLocal, CanFailWithEntry;
    if t.o.Throw? && FailsOver(t.r.pc) {
      KeepThrow(t);
    } else {
      KeepReturn(t);
    }
  }

  lemma KeepThrow(t: Turn)
    requires Before(t) && FailsOver(t.r.pc) && t.o.Throw?
    ensures Keeps(t)
  {
    hide Before, Keeps, RotationOk, StepLocal;
    if t.r.pc.ReadPrevious? || t.r.pc.Generate? || t.r.pc.SaveKey? {
      KeepEarlyThrow(t);
    } else if t.r.pc.ActivateUpdate? || t.r.pc.CompleteSession? {
      KeepLateThrow(t);
    } else {
      KeepMiddleThrow(t);
    }
  }

  lemma KeepReturn(t: Turn)
    requires Before(t) && !(t.o.Throw? && FailsOver(t.r.pc))
    ensures Keeps(t)
  {
    hide Before, Keeps, RotationOk, StepLocal;
    match t.r.pc
    case ReadPrevious => KeepReadPrevious(t);
    case Generate => KeepGenerate(t);
    case SaveKey => KeepSaveKey(t);
    case EmitGenerated | BeginSession => KeepForward(t);
    case EmitPropagated | EmitVerified => KeepEmitStaged(t);
    case StorePending => KeepStorePending(t);
    case Verify => KeepVerify(t);
    case ActivateGet => KeepActivateGet(t);
    case ActivateGetActive => KeepActivateGetActive(t);
    case ActivateExpire => KeepActivateExpire(t);
    case ActivateUpdate => KeepActivateUpdate(t);
    case CompleteSession => KeepComplete(t);
    case CancelSession => KeepCancel(t);
    case MarkGet => KeepMarkGet(t);
    case MarkUpdate => KeepMarkUpdate(t);
    case ReactivateGet => KeepReactivateGet(t);
    case ReactivateUpdate => KeepReactivateUpdate(t);
    case EmitActivated => KeepEmitActivated(t);
    case EmitFailed | Unwind(_) => KeepEnding(t);
    case Done(_) => NotDone(t);
  }

  /** A throw inside the try block changes nothing but where the rotation goes. */
  lemma ThrowTaken(t: Turn)
    requires Possible(t.r, t.o) && FailsOver(t.r.pc) && t.o.Throw?
    ensures Taken(t) ==
      Local(t.slice, t.r.(error := t.o.error, pc := FirstCompensation(t.cfg, t.kept, t.r)), None)
  {
    hide Compensation, Find, Put, GetActive, FirstCompensation;
  }

  lemma KeepEarlyThrow(t: Turn)
    requires Before(t) && (t.r.pc.ReadPrevious? || t.r.pc.Generate? || t.r.pc.SaveKey?) && t.o.Throw?
    ensures Keeps(t)
  {
    hide StepLocal, HistoryOk, Overlay, Find, Put, GetActive;
    ThrowTaken(t);
    Facts(t);
    MadeMayStay(t);
  }

  /** Before it is saved, a generated key may be remembered or not. */
  lemma MadeMayStay(t: Turn)
    requires Before(t)
    ensures HistoryOk(t.r.hist, t.r.made, t.used, t.now)
  {
    hide HistoryOk, Overlay, Shape, Serves;
  }

  lemma KeepMiddleThrow(t: Turn)
    requires Before(t) && CanFailWithEntry(t.r.pc) && !t.r.pc.ActivateUpdate? && !t.r.pc.CompleteSession? && t.o.Throw?
    ensures Keeps(t)
  {
    hide StepLocal, HistoryOk, Overlay, Find, Put, GetActive, Verified, Staged;
    ThrowTaken(t);
    Facts(t);
  }

  lemma KeepLateThrow(t: Turn)
    requires Before(t) && (t.r.pc.ActivateUpdate? || t.r.pc.CompleteSession?) && t.o.Throw?
    ensures Keeps(t)
  {
    hide StepLocal, HistoryOk, Overlay, Find, Put, GetActive, Staged;
    ThrowTaken(t);
    Facts(t);
  }

  lemma UntouchedRecords(t: Turn)
    requires Before(t) && t.r.pc.ReadPrevious?
    ensures t.slice.keys == t.r.hist.begin
  {
  }

  lemma GeneratedHistory(t: Turn)
    requires Before(t) && t.r.pc.Generate? && t.o.Made?
    ensures HistoryOk(t.r.hist, Some(NewKey(t.r.secret, t.o, t.now)), UsedAfter(t.o, t.used), t.now)
  {
    assert t.o.keyId !in Ids(t.r.hist.begin);
  }

  /** With the previous key untouched and the new one pending, `getActive` still finds the previous key. */
  lemma PendingChangesNoActive(h: History, made: Option<SecretKey>, used: set<string>, now: Time)
    requires HistoryOk(h, made, used, now) && h.prevNow.None? && h.newNow == made && made.Some?
    ensures GetActive(Overlay(h)) == GetActive(h.begin)
  {
    hide KeysOk, AtMostOneActive, GetActive, Put, Find;
    BeginFacts(h, made, used, now);
    OverlayMembers(h, made, used, now);
    OverlayHasOneActive(h, made, used, now);
    if GetActive(h.begin).Some? {
      GetActiveIsTheOne(Overlay(h), GetActive(h.begin).value);
    } else {
      GetActiveIsNewest(Overlay(h));
    }
  }

  lemma ActiveIsStillPrevious(t: Turn)
    requires Before(t) && t.r.pc.ActivateGetActive?
    ensures GetActive(t.slice.keys) == GetActive(t.r.hist.begin)
  {
    hide HistoryOk, Overlay, GetActive, Serves, StepOk;
    PendingChangesNoActive(t.r.hist, t.r.made, t.used, t.now);
  }

  lemma NotDone(t: Turn)
    requires Before(t)
    ensures !t.r.pc.Done?
  {
    hide HistoryOk, Overlay, Shape, Serves;
  }

  lemma KeepReadPrevious(t: Turn)
    requires Before(t) && t.r.pc.ReadPrevious? && !t.o.Throw?
    ensures Keeps(t)
  {
    hide Compensation, HistoryOk, Overlay, Find, Put, GetActive;
    UntouchedRecords(t);
    Facts(t);
  }

  lemma KeepGenerate(t: Turn)
    requires Before(t) && t.r.pc.Generate? && !t.o.Throw?
    ensures Keeps(t)
  {
    hide Compensation, HistoryOk, Overlay, Find, Put, GetActive;
    var used := UsedAfter(t.o, t.used);
    if t.o.Made? {
      var made := Some(NewKey(t.r.secret, t.o, t.now));
      assert HistoryOk(t.r.hist, made, used, t.now) by { GeneratedHistory(t); }
    }
    Facts(t);
  }

  lemma KeepSaveKey(t: Turn)
    requires Before(t) && t.r.pc.SaveKey? && !t.o.Throw?
    ensures Keeps(t)
  {
    hide Compensation, HistoryOk, Overlay, Find, Put, GetActive;
    Facts(t);
    WriteNew(t.r.hist, t.r.made, t.used, t.now, t.r.made.value);
  }

  lemma KeepForward(t: Turn)
    requires Before(t) && (t.r.pc.EmitGenerated? || t.r.pc.BeginSession?) && !(t.o.Throw? && FailsOver(t.r.pc))
    ensures Keeps(t)
  {
    hide Compensation, HistoryOk, Overlay, Find, Put, GetActive;
    Facts(t);
  }

  lemma KeepEmitStaged(t: Turn)
    requires Before(t) && (t.r.pc.EmitPropagated? || t.r.pc.EmitVerified?)
    ensures Keeps(t)
  {
    hide Compensation, HistoryOk, Overlay, Find, Put, GetActive;
  }

  lemma KeepStorePending(t: Turn)
    requires Before(t) && t.r.pc.StorePending? && !t.o.Throw?
    ensures Keeps(t)
  {
    hide Compensation, HistoryOk, Overlay, Find, Put, GetActive;
    Facts(t);
  }

  lemma KeepVerify(t: Turn)
    requires Before(t) && t.r.pc.Verify? && !t.o.Throw?
    ensures Keeps(t)
  {
    hide Compensation, HistoryOk, Overlay, Find, Put, GetActive;
    Facts(t);
  }

  lemma KeepActivateGet(t: Turn)
    requires Before(t) && t.r.pc.ActivateGet? && !t.o.Throw?
    ensures Keeps(t)
  {
    hide Compensation, HistoryOk, Overlay, Find, Put, GetActive;
    Facts(t);
  }

  lemma KeepActivateGetActive(t: Turn)
    requires Before(t) && t.r.pc.ActivateGetActive? && !t.o.Throw?
    ensures Keeps(t)
  {
    hide Compensation, HistoryOk, Overlay, Find, Put, GetActive;
    Facts(t);
    ActiveIsStillPrevious(t);
  }

  /** The outcome of moving the previous key out. */
  lemma ActivateExpireTaken(t: Turn)
    requires Before(t) && t.r.pc.ActivateExpire? && !t.o.Throw?
    ensures t.r.seenActive.Some?
    ensures var key := ExpiredBy(t.r.seenActive.value, t.now, t.r.overlapMs);
      Taken(t) == Local(t.slice.(keys := Put(t.slice.keys, key)),
                        t.r.(pc := ActivateUpdate, hist := t.r.hist.(prevNow := Some(key), prevAt := t.now)), None)
  {
    hide HistoryOk, Overlay, Find, Put, GetActive, Compensation, Serves, ProviderOk, FirstCompensation;
    Facts(t);
  }

  lemma KeepActivateExpire(t: Turn)
    requires Before(t) && t.r.pc.ActivateExpire? && !t.o.Throw?
    ensures Keeps(t)
  {
    hide StepLocal, HistoryOk, Overlay, Find, Put, GetActive;
    ActivateExpireTaken(t);
    Facts(t);
    WritePrevious(t.r.hist, t.r.made, t.used, t.now, ExpiredBy(t.r.seenActive.value, t.now, t.r.overlapMs));
  }

  /** The outcome of the activating write. */
  lemma ActivateUpdateTaken(t: Turn)
    requires Before(t) && t.r.pc.ActivateUpdate? && !t.o.Throw?
    ensures t.r.seen.Some?
    ensures var key := Activated(t.r.seen.value, t.now);
      Taken(t) == Local(t.slice.(keys := Put(t.slice.keys, key)),
                        t.r.(pc := CompleteSession, hist := t.r.hist.(newNow := Some(key))), None)
  {
    hide HistoryOk, Overlay, Find, Put, GetActive, Compensation, Serves, ProviderOk, FirstCompensation;
    Facts(t);
  }

  lemma KeepActivateUpdate(t: Turn)
    requires Before(t) && t.r.pc.ActivateUpdate? && !t.o.Throw?
    ensures Keeps(t)
  {
    hide StepLocal, HistoryOk, Overlay, Find, Put, GetActive;
    ActivateUpdateTaken(t);
    Facts(t);
    WriteNew(t.r.hist, t.r.made, t.used, t.now, Activated(t.r.seen.value, t.now));
  }

  lemma KeepComplete(t: Turn)
    requires Before(t) && t.r.pc.CompleteSession? && !t.o.Throw?
    ensures Keeps(t)
  {
    hide Compensation, HistoryOk, Overlay, Find, Put, GetActive;
    Facts(t);
  }

  lemma KeepCancel(t: Turn)
    requires Before(t) && t.r.pc.CancelSession?
    ensures Keeps(t)
  {
    hide Progress, HistoryOk, Overlay, Find, Put, GetActive;
    Facts(t);
  }

  /** Reading the new key to mark it: the call fails and the mark is skipped, or the record as last written. */
  lemma MarkGetTaken(t: Turn)
    requires Before(t) && t.r.pc.MarkGet?
    ensures Taken(t) == Local(t.slice,
      if t.o.Throw? then t.r.(pc := AfterMark(t.r)) else t.r.(seen := t.r.hist.newNow, pc := MarkUpdate), None)
  {
    hide HistoryOk, Overlay, Find, Put, GetActive, Progress, Serves, ProviderOk, AfterMark;
    Facts(t);
  }

  lemma KeepMarkGet(t: Turn)
    requires Before(t) && t.r.pc.MarkGet?
    ensures Keeps(t)
  {
    hide StepLocal, HistoryOk, Overlay, Find, Put, GetActive, Staged;
    MarkGetTaken(t);
    Facts(t);
  }

  /** The outcome of marking the new key failed: it throws and is skipped, or the new key is failed. */
  lemma MarkUpdateTaken(t: Turn)
    requires Before(t) && t.r.pc.MarkUpdate?
    ensures t.r.seen.Some?
    ensures var key := MarkedFailed(t.r.seen.value, t.now, t.r.error);
      Taken(t) == if t.o.Throw? then Local(t.slice, t.r.(pc := AfterMark(t.r)), None)
        else Local(t.slice.(keys := Put(t.slice.keys, key)),
                   t.r.(pc := AfterMark(t.r), hist := t.r.hist.(newNow := Some(key))), None)
  {
    hide HistoryOk, Overlay, Find, Put, GetActive, Progress, Serves, ProviderOk, AfterMark;
    Facts(t);
  }

  lemma MarkRewrites(t: Turn)
    requires Before(t) && t.r.pc.MarkUpdate?
    ensures t.r.seen.Some? && t.r.made.Some?
    ensures var key := MarkedFailed(t.r.seen.value, t.now, t.r.error);
      key.status == Failed && NewRewritten(t.r.made.value, key)
  {
    hide StepLocal, KeysOk, Overlay, Find, Put, GetActive, Staged;
  }

  lemma KeepMarkUpdate(t: Turn)
    requires Before(t) && t.r.pc.MarkUpdate?
    ensures Keeps(t)
  {
    hide StepLocal, HistoryOk, Overlay, Find, Put, GetActive, Staged, MarkedFailed, NewRewritten;
    MarkUpdateTaken(t);
    Facts(t);
    MarkRewrites(t);
    if !t.o.Throw? {
      WriteNew(t.r.hist, t.r.made, t.used, t.now, MarkedFailed(t.r.seen.value, t.now, t.r.error));
    }
  }

  /** Reading the previous key back: the call fails and nothing more happens, or the record as last written. */
  lemma ReactivateGetTaken(t: Turn)
    requires Before(t) && t.r.pc.ReactivateGet?
    ensures Taken(t) == Local(t.slice,
      if t.o.Throw? then t.r.(pc := EmitFailed)
      else t.r.(seen := Some(PreviousValue(t.r.hist)), pc := ReactivateUpdate), None)
  {
    hide HistoryOk, Overlay, Find, Put, GetActive, Progress, Serves, ProviderOk;
    Facts(t);
  }

  lemma KeepReactivateGet(t: Turn)
    requires Before(t) && t.r.pc.ReactivateGet?
    ensures Keeps(t)
  {
    hide StepLocal, HistoryOk, Overlay, Find, Put, GetActive, Staged, Generated;
    ReactivateGetTaken(t);
    Facts(t);
  }

  /** The outcome of the reactivating write: it fails and is skipped, or the previous key is active. */
  lemma ReactivateUpdateTaken(t: Turn)
    requires Before(t) && t.r.pc.ReactivateUpdate?
    ensures t.r.seen.Some?
    ensures var key := Reactivated(t.r.seen.value, t.now);
      Taken(t) == if t.o.Throw? then Local(t.slice, t.r.(pc := EmitFailed), None)
        else Local(t.slice.(keys := Put(t.slice.keys, key)),
                   t.r.(pc := EmitFailed, hist := t.r.hist.(prevNow := Some(key), prevAt := t.now)), None)
  {
    hide HistoryOk, Overlay, Find, Put, GetActive, Progress, Serves, ProviderOk;
    Facts(t);
  }

  lemma KeepReactivateUpdate(t: Turn)
    requires Before(t) && t.r.pc.ReactivateUpdate?
    ensures Keeps(t)
  {
    hide Keeps, Before, RotationOk;
    if t.o.Throw? {
      KeepReactivateThrow(t);
    } else {
      KeepReactivated(t);
    }
  }

  lemma KeepReactivateThrow(t: Turn)
    requires Before(t) && t.r.pc.ReactivateUpdate? && t.o.Throw?
    ensures Keeps(t)
  {
    hide StepLocal, HistoryOk, Overlay, Find, Put, GetActive, Staged, Generated;
    ReactivateUpdateTaken(t);
    Facts(t);
  }

  lemma KeepReactivated(t: Turn)
    requires Before(t) && t.r.pc.ReactivateUpdate? && !t.o.Throw?
    ensures Keeps(t)
  {
    hide StepLocal, HistoryOk, Overlay, Find, Put, GetActive, Staged, Generated;
    ReactivateUpdateTaken(t);
    Facts(t);
    WritePrevious(t.r.hist, t.r.made, t.used, t.now, Reactivated(t.r.seen.value, t.now));
  }

  lemma KeepEmitActivated(t: Turn)
    requires Before(t) && t.r.pc.EmitActivated?
    ensures Keeps(t)
  {
    hide Compensation, HistoryOk, Overlay, Find, Put, GetActive;
    Facts(t);
  }

  lemma KeepEnding(t: Turn)
    requires Before(t) && (t.r.pc.EmitFailed? || t.r.pc.Unwind?)
    ensures Keeps(t)
  {
    hide Progress, HistoryOk, Overlay, Find, Put, GetActive;
  }
}
