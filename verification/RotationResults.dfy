/** The main results about rotations, as statements over runs and over every reachable state. */
module RotationResults {
  import opened Wrappers
  import opened KeyModel
  import opened RotationMachine
  import opened RotationInvariant
  import opened RotationTheorems
  import Provider = StagedProvider

  // ---- One active key -------------------------------------------------------------------------

  lemma {:induction false} RunKeeps(cfg: Config, s: State, ls: seq<Label>, want: Claims)
    requires Inv(cfg, s, want) && GoodRun(cfg, s, ls, want)
    ensures Run(cfg, s, ls) && Inv(cfg, After(cfg, s, ls), want)
    decreases |ls|
  {
    hide Inv, GoodStep, Apply;
    GoodRunIsRun(cfg, s, ls, want);
    if ls != [] {
      StepKeeps(cfg, s, ls[0], want);
      RunKeeps(cfg, Apply(cfg, s, ls[0]), ls[1..], want);
    }
  }

  lemma InitialInv(cfg: Config, s: State, want: Claims)
    requires Initial(s, want)
    ensures Inv(cfg, s, want)
  {
  }

  lemma ShapeForbidsTwo(cfg: Config, sl: Slice, r: Rotation, used: set<string>, now: Time,
                        next: Provider.VersionId, want: Claims)
    requires RotationOk(cfg, sl, r, used, now, next, want) && !r.pc.Done?
    ensures NotBothActive(r.hist)
  {
    hide Overlay, KeysOk, Find, Put, GetActive, AtMostOneActive;
  }

  lemma InvMeansOneActive(cfg: Config, s: State, name: string, want: Claims)
    requires Inv(cfg, s, want)
    ensures AtMostOneActive(KeysOf(s, name))
  {
    hide RotationOk, KeysOk, ProviderOk, Agrees;
    if !Quiet(s, name) {
      var rid :| InFlight(s, rid) && s.rots[rid].secret == name;
      var r := s.rots[rid];
      ShapeForbidsTwo(cfg, SliceOf(s, name), r, s.usedIds, s.now, s.nextVersion, want);
      InFlightRecords(cfg, SliceOf(s, name), r, s.usedIds, s.now, s.nextVersion, want);
      OverlayHasOneActive(r.hist, r.made, s.usedIds, s.now);
    }
  }

  lemma InFlightRecords(cfg: Config, sl: Slice, r: Rotation, used: set<string>, now: Time,
                        next: Provider.VersionId, want: Claims)
    requires RotationOk(cfg, sl, r, used, now, next, want)
    ensures HistoryOk(r.hist, r.made, used, now) && sl.keys == Overlay(r.hist)
  {
  }

  /**
   * No secret ever has two active keys, in every interleaving of rotations, whatever the generator, the
   * provider, the verifier, the emitter and the store do, unless a secret already rotating gets a forced
   * request, or marking an active new key failed throws while there is a previous key to come back.
   * Every prefix of a run is a run, so this is every state.
   */
  lemma SingleActiveKey(cfg: Config, s: State, ls: seq<Label>, name: string)
    requires Initial(s, NO_CLAIMS) && GoodRun(cfg, s, ls, NO_CLAIMS)
    ensures Run(cfg, s, ls) && AtMostOneActive(KeysOf(After(cfg, s, ls), name))
  {
    InitialInv(cfg, s, NO_CLAIMS);
    RunKeeps(cfg, s, ls, NO_CLAIMS);
    InvMeansOneActive(cfg, After(cfg, s, ls), name, NO_CLAIMS);
  }

  lemma TwoMembersActive(keys: Keys, a: SecretKey, b: SecretKey)
    requires a in keys && b in keys && a.keyId != b.keyId && a.status == Active && b.status == Active
    ensures !AtMostOneActive(keys)
  {
    var i :| 0 <= i < |keys| && keys[i] == a;
    var j :| 0 <= j < |keys| && keys[j] == b;
    assert i != j;
  }

  // ---- Verification before activation ---------------------------------------------------------

  /**
   * A key turns from pending to active only in the activating step of its own rotation, and only after
   * verification succeeded for a provider version that held that key's material.
   */
  lemma ActivationNeedsVerification(cfg: Config, s0: State, ls: seq<Label>, l: Label, name: string, id: string)
    requires Initial(s0, NO_CLAIMS) && GoodRun(cfg, s0, ls, NO_CLAIMS) && Run(cfg, s0, ls)
    requires GoodStep(After(cfg, s0, ls), l, NO_CLAIMS)
    requires var s := After(cfg, s0, ls);
      var before, after := Find(KeysOf(s, name), id), Find(KeysOf(Apply(cfg, s, l), name), id);
      before.Some? && before.value.status == Pending && after.Some? && after.value.status == Active
    ensures var s := After(cfg, s0, ls);
      && l.Advance? && s.rots[l.rid].secret == name && s.rots[l.rid].pc.ActivateUpdate?
      && s.rots[l.rid].verifiedValue == Some(Find(KeysOf(s, name), id).value.material)
  {
    hide Inv, Initial, GoodRun, GoodStep, Apply, Find, Run, After;
    InitialInv(cfg, s0, NO_CLAIMS);
    RunKeeps(cfg, s0, ls, NO_CLAIMS);
    StepActivates(cfg, After(cfg, s0, ls), l, name, id, NO_CLAIMS);
  }

  lemma StepActivates(cfg: Config, s: State, l: Label, name: string, id: string, want: Claims)
    requires Inv(cfg, s, want) && GoodStep(s, l, want)
    requires Find(KeysOf(s, name), id).Some? && Find(KeysOf(s, name), id).value.status == Pending
    requires var after := Find(KeysOf(Apply(cfg, s, l), name), id); after.Some? && after.value.status == Active
    ensures l.Advance? && s.rots[l.rid].secret == name && s.rots[l.rid].pc.ActivateUpdate?
    ensures s.rots[l.rid].verifiedValue == Some(Find(KeysOf(s, name), id).value.material)
  {
    hide RotationOk, StepLocal, StepOk, Find, GetActive, EntriesAfter, QuietOk;
    if l.Advance? {
      AdvanceFrame(cfg, s, l.rid, l.o);
    }
    if l.Advance? && s.rots[l.rid].secret == name {
      var r := s.rots[l.rid];
      assert InFlight(s, l.rid);
      LocalActivation(Turn(cfg, s.now, s.nextVersion, Kept(s.entries, l.rid), SliceOf(s, name), r,
                           l.o, s.usedIds, want), id);
    }
  }

  lemma LocalActivation(t: Turn, id: string)
    requires Before(t)
    requires Find(t.slice.keys, id).Some? && Find(t.slice.keys, id).value.status == Pending
    requires var after := Find(Taken(t).slice.keys, id); after.Some? && after.value.status == Active
    ensures t.r.pc.ActivateUpdate? && t.r.verifiedValue == Some(Find(t.slice.keys, id).value.material)
  {
    hide Before, StepLocal, Find, Put, WriteOf;
    IsPossible(t);
    StepStores(t.cfg, t.now, t.next, t.kept, t.slice, t.r, t.o);
    var write := WriteOf(t.now, t.slice.keys, t.r, t.o);
    if write.Some? {
      FindPut(t.slice.keys, write.value, id);
    }
    ActiveWrite(t);
  }

  lemma IsPossible(t: Turn)
    requires Before(t)
    ensures Possible(t.r, t.o)
  {
    hide RotationOk, StepOk;
  }

  /** A write of an active record over a pending one is the activating write. */
  lemma ActiveWrite(t: Turn)
    requires Before(t)
    ensures var write := WriteOf(t.now, t.slice.keys, t.r, t.o);
      write.Some? && write.value.status == Active ==>
        var found := Find(t.slice.keys, write.value.keyId);
        && found.Some?
        && (found.value.status == Pending ==> t.r.pc.ActivateUpdate? && t.r.verifiedValue == Some(found.value.material))
  {
    hide HistoryOk, Overlay, Find, Put, GetActive, StepOk, Serves;
    Facts(t);
  }

  // ---- No usability gap -----------------------------------------------------------------------

  /** The secret is live: it has an active key at rest, or had one when its rotation in flight began. */
  ghost predicate Serving(s: State, name: string) {
    && (Quiet(s, name) ==> HasActive(KeysOf(s, name)))
    && forall rid :: InFlight(s, rid) && s.rots[rid].secret == name ==> GetActive(s.rots[rid].hist.begin).Some?
  }

  lemma CompensatedHasActive(cfg: Config, sl: Slice, r: Rotation, used: set<string>, now: Time,
                             next: Provider.VersionId, want: Claims)
    requires RotationOk(cfg, sl, r, used, now, next, want) && want.service
    requires r.pc.Unwind? && GetActive(r.hist.begin).Some?
    ensures HasActive(sl.keys)
  {
    hide Find, Put, Overlay, GetActive;
    var h := r.hist;
    BeginFacts(h, r.made, used, now);
    OverlayMembers(h, r.made, used, now);
    var k := if h.newNow.Some? && h.newNow.value.status == Active then h.newNow.value else PreviousValue(h);
    assert k in sl.keys && k.status == Active;
    var i :| 0 <= i < |sl.keys| && sl.keys[i] == k;
  }

  lemma StartKeepsServing(cfg: Config, s: State, l: Label, name: string, want: Claims)
    requires Inv(cfg, s, want) && GoodStep(s, l, want) && Serving(s, name) && l.Start?
    ensures Serving(Apply(cfg, s, l), name)
  {
    hide RotationOk, QuietOk, GetActive, AtMostOneActive, HasActive, Inv;
    var s' := Apply(cfg, s, l);
    assert InFlight(s', l.rid);
    assert forall x :: InFlight(s', x) <==> InFlight(s, x) || x == l.rid;
    if l.secret == name {
      assert Quiet(s, name) by { StartsQuiet(cfg, s, l, want); }
      GetActiveIsNewest(KeysOf(s, name));
    } else if Quiet(s', name) {
      assert Quiet(s, name);
    }
  }

  lemma StartsQuiet(cfg: Config, s: State, l: Label, want: Claims)
    requires Inv(cfg, s, want) && GoodStep(s, l, want) && l.Start?
    ensures Quiet(s, l.secret)
  {
    hide RotationOk, QuietOk;
  }

  lemma InFlightOk(cfg: Config, s: State, rid: Rid, want: Claims)
    requires Inv(cfg, s, want) && InFlight(s, rid)
    ensures var r := s.rots[rid];
      && RotationOk(cfg, SliceOf(s, r.secret), r, s.usedIds, s.now, s.nextVersion, want)
      && forall x :: InFlight(s, x) && x != rid ==> s.rots[x].secret != r.secret
  {
    hide RotationOk, QuietOk;
  }

  lemma AdvanceKeepsServing(cfg: Config, s: State, rid: Rid, o: Outcome, name: string, want: Claims)
    requires Inv(cfg, s, want) && GoodStep(s, Advance(rid, o), want) && want.service && Serving(s, name)
    ensures Serving(Apply(cfg, s, Advance(rid, o)), name)
  {
    hide RotationOk, GetActive, HasActive, Inv, Apply, StepOk, LocalOf;
    var s', r := Apply(cfg, s, Advance(rid, o)), s.rots[rid];
    AdvanceFrame(cfg, s, rid, o);
    assert InFlight(s, rid);
    InFlightOk(cfg, s, rid, want);
    assert forall x :: InFlight(s', x) <==> InFlight(s, x) && (x == rid ==> !r.pc.Unwind?);
    if Quiet(s', name) {
      if r.secret == name {
        assert r.pc.Unwind?;
        CompensatedHasActive(cfg, SliceOf(s, name), r, s.usedIds, s.now, s.nextVersion, want);
        assert SliceOf(s', name).keys == KeysOf(s', name);
      } else {
        assert Quiet(s, name);
        assert SliceOf(s', name) == SliceOf(s, name);
      }
    }
  }

  lemma ServingKept(cfg: Config, s: State, l: Label, name: string, want: Claims)
    requires Inv(cfg, s, want) && GoodStep(s, l, want) && want.service && Serving(s, name)
    ensures Serving(Apply(cfg, s, l), name)
  {
    hide Inv, StepOk, LocalOf, HasActive, GetActive;
    match l
    case Tick(_) =>
      assert forall rid :: InFlight(Apply(cfg, s, l), rid) <==> InFlight(s, rid);
    case Start(_, _, _, _) => StartKeepsServing(cfg, s, l, name, want);
    case Advance(rid, o) => AdvanceKeepsServing(cfg, s, rid, o, name, want);
  }

  lemma {:induction false} ServingOverRuns(cfg: Config, s: State, ls: seq<Label>, name: string, want: Claims)
    requires Inv(cfg, s, want) && GoodRun(cfg, s, ls, want) && want.service && Serving(s, name)
    ensures Run(cfg, s, ls) && Inv(cfg, After(cfg, s, ls), want) && Serving(After(cfg, s, ls), name)
    decreases |ls|
  {
    hide Inv, GoodStep, Apply, Serving;
    GoodRunIsRun(cfg, s, ls, want);
    if ls != [] {
      StepKeeps(cfg, s, ls[0], want);
      ServingKept(cfg, s, ls[0], name, want);
      ServingOverRuns(cfg, Apply(cfg, s, ls[0]), ls[1..], name, want);
    }
  }

  /** `selectKey` returns a key consumers can use: active, or expired and still valid. */
  ghost predicate Usable(keys: Keys, now: Time) {
    SelectKey(keys, now).Some? && SelectKey(keys, now).value.status != Pending
  }

  lemma UsableWhen(keys: Keys, now: Time)
    ensures Usable(keys, now) <==> exists k :: k in keys && ValidAt(k, now) && k.status != Pending
  {
    SelectKeyPrefers(keys, now);
  }

  /** Some key is active and its validity has not ended. */
  ghost predicate ActiveLasts(keys: Keys, now: Time) {
    exists k :: k in keys && k.status == Active && (k.validUntil.Some? ==> now <= k.validUntil.value)
  }

  ghost predicate ExpiredLasts(keys: Keys, now: Time) {
    exists k :: k in keys && k.status == Expired && ValidAt(k, now)
  }

  /** The rotation has expired the previous key and its overlap has not run out. */
  ghost predicate OverlapLasts(r: Rotation, now: Time) {
    r.hist.prevNow.Some? && r.hist.prevNow.value.status == Expired && now <= r.hist.prevAt + r.overlapMs
  }

  lemma RestUsable(keys: Keys, used: set<string>, now: Time)
    requires KeysOk(keys, used, now)
    ensures Usable(keys, now) <==> ActiveLasts(keys, now) || ExpiredLasts(keys, now)
  {
    hide Usable;
    UsableWhen(keys, now);
    assert forall k :: k in keys && ValidAt(k, now) && k.status != Pending ==>
      k.status == Active || k.status == Expired;
    assert forall k :: k in keys && k.status == Active ==>
      (ValidAt(k, now) <==> (k.validUntil.Some? ==> now <= k.validUntil.value));
  }

  /** Which expired keys last while a rotation is in flight: the previous one for its overlap, and older ones. */
  lemma WindowUsable(cfg: Config, sl: Slice, r: Rotation, used: set<string>, now: Time, next: Provider.VersionId,
                     want: Claims)
    requires RotationOk(cfg, sl, r, used, now, next, want)
    ensures KeysOk(sl.keys, used, now)
    ensures ExpiredLasts(sl.keys, now) <==> OverlapLasts(r, now) || ExpiredLasts(r.hist.begin, now)
  {
    hide Find, Put, Overlay, GetActive, KeysOk, Shape, Serves;
    var h := r.hist;
    BeginFacts(h, r.made, used, now);
    OverlayMembers(h, r.made, used, now);
    PreviousLasts(r, now);
    forall k | k in h.begin && k.status == Expired ensures k in sl.keys {
      if h.prevNow.Some? && k.keyId == h.prevNow.value.keyId {
        SameId(h, r.made, used, now, k);
      }
    }
    if OverlapLasts(r, now) {
      assert h.prevNow.value in sl.keys && ValidAt(h.prevNow.value, now) by {
        PreviousStarted(h, r.made, used, now);
      }
    }
  }

  lemma PreviousLasts(r: Rotation, now: Time)
    requires OverlapKept(r)
    ensures r.hist.prevNow.Some? && r.hist.prevNow.value.status == Expired && ValidAt(r.hist.prevNow.value, now) ==>
      OverlapLasts(r, now)
    ensures OverlapLasts(r, now) && r.hist.prevNow.value.validFrom <= now ==> ValidAt(r.hist.prevNow.value, now)
  {
  }

  lemma PreviousStarted(h: History, made: Option<SecretKey>, used: set<string>, now: Time)
    requires HistoryOk(h, made, used, now) && h.prevNow.Some?
    ensures h.prevNow.value.validFrom <= now
  {
    BeginFacts(h, made, used, now);
  }

  /** The previous key's id belongs to the active key among the starting records, and to no other. */
  lemma SameId(h: History, made: Option<SecretKey>, used: set<string>, now: Time, k: SecretKey)
    requires HistoryOk(h, made, used, now) && h.prevNow.Some? && k in h.begin && k.keyId == h.prevNow.value.keyId
    ensures k.status == Active
  {
    BeginFacts(h, made, used, now);
    SameKey(h.begin, k, GetActive(h.begin).value);
  }

  lemma SameKey(keys: Keys, a: SecretKey, b: SecretKey)
    requires Distinct(keys) && a in keys && b in keys && a.keyId == b.keyId
    ensures a == b
  {
  }

  /** No active key's validity has ended. */
  ghost predicate ActivesLast(keys: Keys, now: Time) {
    forall k :: k in keys && k.status == Active && k.validUntil.Some? ==> now <= k.validUntil.value
  }

  /** The rotation has expired the previous key. */
  ghost predicate HasExpired(r: Rotation) {
    r.hist.prevNow.Some? && r.hist.prevNow.value.status == Expired
  }

  /** While a rotation of a secret that had an active key is in flight, some key is active or just expired by it. */
  lemma ActiveOrExpired(cfg: Config, sl: Slice, r: Rotation, used: set<string>, now: Time,
                        next: Provider.VersionId, want: Claims)
    requires RotationOk(cfg, sl, r, used, now, next, want) && GetActive(r.hist.begin).Some?
    ensures HasActive(sl.keys) || HasExpired(r)
  {
    hide Find, Put, Overlay, GetActive, KeysOk, Shape, Serves, AtMostOneActive;
    var h := r.hist;
    BeginFacts(h, r.made, used, now);
    OverlayMembers(h, r.made, used, now);
    var k := PreviousValue(h);
    assert k in sl.keys;
    var i :| 0 <= i < |sl.keys| && sl.keys[i] == k;
  }

  lemma ActiveIsLasting(keys: Keys, now: Time)
    requires HasActive(keys) && ActivesLast(keys, now)
    ensures ActiveLasts(keys, now)
  {
    var i :| 0 <= i < |keys| && keys[i].status == Active;
    assert keys[i] in keys;
  }

  /** What a consumer finds while the rotation is in flight. */
  ghost predicate NoGap(keys: Keys, r: Rotation, now: Time) {
    && (HasActive(keys) || HasExpired(r))
    && (ActivesLast(keys, now) && (HasExpired(r) ==> OverlapLasts(r, now)) ==> Usable(keys, now))
    && (Usable(keys, now) <==>
          ActiveLasts(keys, now) || OverlapLasts(r, now) || ExpiredLasts(r.hist.begin, now))
  }

  lemma NoGapInFlight(cfg: Config, sl: Slice, r: Rotation, used: set<string>, now: Time,
                      next: Provider.VersionId, want: Claims)
    requires RotationOk(cfg, sl, r, used, now, next, want) && GetActive(r.hist.begin).Some?
    ensures NoGap(sl.keys, r, now)
  {
    hide RotationOk, HasActive, Usable, ActiveLasts, ActivesLast, ExpiredLasts, KeysOk, GetActive;
    ActiveOrExpired(cfg, sl, r, used, now, next, want);
    WindowUsable(cfg, sl, r, used, now, next, want);
    RestUsable(sl.keys, used, now);
    if HasActive(sl.keys) && ActivesLast(sl.keys, now) {
      ActiveIsLasting(sl.keys, now);
    }
  }

  /** And at rest. */
  ghost predicate NoGapAtRest(keys: Keys, now: Time) {
    && ExactlyOneActive(keys)
    && (ActivesLast(keys, now) ==> Usable(keys, now))
    && (Usable(keys, now) <==> ActiveLasts(keys, now) || ExpiredLasts(keys, now))
  }

  /**
   * Zero downtime.  Once a secret has an active key at rest, then after any further run without the failures
   * that leave the previous key expired and the new one not active: at rest exactly one key is active, and in
   * flight some key is active or has just been expired by the rotation.  So as long as active keys have not
   * reached their own end of validity and the overlap, counted from the old key's expiry, has not run out,
   * `selectKey` returns a key that is active or expired and valid.  More exactly, it does so if and only if an
   * active key's validity has not ended, or that overlap lasts, or an older expired key is still valid.
   */
  lemma NoUsabilityGap(cfg: Config, s: State, ls: seq<Label>, name: string, want: Claims)
    requires Inv(cfg, s, want) && GoodRun(cfg, s, ls, want) && Run(cfg, s, ls) && want.service
    requires Quiet(s, name) && HasActive(KeysOf(s, name))
    ensures var s' := After(cfg, s, ls);
      && (Quiet(s', name) ==> NoGapAtRest(KeysOf(s', name), s'.now))
      && forall rid :: InFlight(s', rid) && s'.rots[rid].secret == name ==>
        NoGap(KeysOf(s', name), s'.rots[rid], s'.now)
  {
    hide RotationOk, AtMostOneActive, HasActive, Usable, ActiveLasts, ExpiredLasts, ActivesLast, OverlapLasts, KeysOk,
      ProviderOk, GetActive, Agrees, Apply, GoodStep, Run, After, GoodRun, NoGap;
    ServingOverRuns(cfg, s, ls, name, want);
    var s' := After(cfg, s, ls);
    var keys := KeysOf(s', name);
    InvMeansOneActive(cfg, s', name, want);
    if Quiet(s', name) {
      RestUsable(keys, s'.usedIds, s'.now);
      if ActivesLast(keys, s'.now) {
        ActiveIsLasting(keys, s'.now);
      }
    }
    forall rid | InFlight(s', rid) && s'.rots[rid].secret == name ensures NoGap(keys, s'.rots[rid], s'.now) {
      NoGapInFlight(cfg, SliceOf(s', name), s'.rots[rid], s'.usedIds, s'.now, s'.nextVersion, want);
    }
  }

  // ---- Exact compensation ---------------------------------------------------------------------

  /**
   * The records after a failed rotation, against those before it: in place, only the active key may
   * differ, in `rotatedAt` and a dropped `validUntil`; at most one record is added, a failed one under an id
   * not used before.
   */
  ghost predicate RestoredButForOneFailed(before: Keys, after: Keys) {
    && |before| <= |after| <= |before| + 1
    && (forall i :: 0 <= i < |before| ==>
         || after[i] == before[i]
         || (before[i].status == Active && after[i] == before[i].(rotatedAt := after[i].rotatedAt, validUntil := None)))
    && (|after| == |before| + 1 ==> after[|before|].status == Failed && after[|before|].keyId !in Ids(before))
  }

  lemma CompensationIsExact(cfg: Config, sl: Slice, r: Rotation, used: set<string>, now: Time,
                            next: Provider.VersionId, want: Claims)
    requires RotationOk(cfg, sl, r, used, now, next, want) && want.restoration
    requires r.pc.EmitFailed? || r.pc == Unwind(false)
    ensures RestoredButForOneFailed(r.hist.begin, sl.keys)
  {
    hide Find, Put, GetActive;
    var h := r.hist;
    BeginFacts(h, r.made, used, now);
    if h.prevNow.Some? {
      var p := GetActive(h.begin).value;
      assert h.prevNow.value == p || h.prevNow.value == p.(rotatedAt := h.prevNow.value.rotatedAt, validUntil := None);
      PutAt(h.begin, h.prevNow.value);
      forall i | 0 <= i < |h.begin| && h.begin[i].keyId == p.keyId ensures h.begin[i] == p {
        SameKey(h.begin, h.begin[i], p);
      }
    }
  }

  lemma {:induction false} BeginOverRuns(cfg: Config, s: State, ls: seq<Label>, rid: Rid)
    requires Run(cfg, s, ls) && rid in s.rots
    ensures var s' := After(cfg, s, ls);
      && rid in s'.rots && s'.rots[rid].secret == s.rots[rid].secret
      && s'.rots[rid].hist.begin == s.rots[rid].hist.begin
    decreases |ls|
  {
    hide StepLocal;
    if ls != [] {
      if ls[0].Advance? {
        AdvanceFrame(cfg, s, ls[0].rid, ls[0].o);
      }
      BeginOverRuns(cfg, Apply(cfg, s, ls[0]), ls[1..], rid);
    }
  }

  /**
   * A rotation that fails at any stage, whatever other rotations do meanwhile, leaves its secret's records as
   * they were when it started, but for the active key's `rotatedAt` and `validUntil` and at most one failed
   * key, unless its compensation is cut short: a failing mark, a failing reactivation of a key that is no
   * longer active, or an evicted rollback entry.
   */
  lemma FailureIsCompensated(cfg: Config, s: State, start: Label, ls: seq<Label>, want: Claims)
    requires Inv(cfg, s, want) && want.restoration && start.Start? && GoodStep(s, start, want)
    requires GoodRun(cfg, Apply(cfg, s, start), ls, want) && Run(cfg, Apply(cfg, s, start), ls)
    requires var s' := After(cfg, Apply(cfg, s, start), ls);
      start.rid in s'.rots && s'.rots[start.rid].pc == Unwind(false)
    ensures RestoredButForOneFailed(KeysOf(s, start.secret), KeysOf(After(cfg, Apply(cfg, s, start), ls), start.secret))
  {
    hide RotationOk, RestoredButForOneFailed, StepOk, Run, After, GoodRun;
    var s1 := Apply(cfg, s, start);
    StepKeeps(cfg, s, start, want);
    RunKeeps(cfg, s1, ls, want);
    BeginOverRuns(cfg, s1, ls, start.rid);
    var s' := After(cfg, s1, ls);
    assert InFlight(s', start.rid);
    CompensationIsExact(cfg, SliceOf(s', start.secret), s'.rots[start.rid], s'.usedIds, s'.now, s'.nextVersion, want);
  }

  // ---- Agreement with the provider ------------------------------------------------------------

  /**
   * Whenever no rotation of a secret is in flight and it has an active key, the provider serves that key's
   * material, through any sequence of successful and failed rotations, except after two failures: completing
   * the session throws when the rollback entry is evicted, or marking an active new key failed throws.
   */
  lemma StoreAndProviderAgree(cfg: Config, s: State, ls: seq<Label>, name: string, want: Claims)
    requires Initial(s, want) && GoodRun(cfg, s, ls, want) && want.agreement
    ensures Run(cfg, s, ls)
    ensures Quiet(After(cfg, s, ls), name) ==> Agrees(SliceOf(After(cfg, s, ls), name))
  {
    InitialInv(cfg, s, want);
    RunKeeps(cfg, s, ls, want);
  }
}
