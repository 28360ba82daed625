/** `rotationCount` over runs of operations and rotations that take turns on each secret. */
module LifecycleHistory {
  import opened Wrappers
  import opened KeyModel
  import opened KeyLifecycles
  import opened RotationMachine
  import opened RotationTheorems
  import opened LifecycleMachine
  import opened LifecycleInvariant
  import opened LifecycleRuns
  import Provider = StagedProvider

  /** The keys that are active at some moment of the run. */
  ghost function EverActive(cfg: Config, w: World, ms: seq<Move>, name: string): set<string>
    requires Course(cfg, w, ms)
    decreases |ms|
  {
    ActiveIds(KeysOf(w.s, name)) + (if ms == [] then {} else EverActive(cfg, Moved(cfg, w, ms[0]), ms[1..], name))
  }

  /** The last write of `activate`. */
  predicate Activates(w: World, m: Move, name: string)
    requires CanMove(w, m)
  {
    && AccessOf(w, m).Wrote? && NameOf(w, m) == name
    && HoldOf(w, ActorOf(m)).activating && HoldOf(w, ActorOf(m)).outgoing.None?
  }

  /** The write of `reactivateKey`. */
  predicate Revives(w: World, m: Move, name: string)
    requires CanMove(w, m)
  {
    && AccessOf(w, m).Wrote? && NameOf(w, m) == name
    && AccessOf(w, m).key.status == Active && !HoldOf(w, ActorOf(m)).activating
  }

  /** How often `activate` has succeeded. */
  ghost function Activations(cfg: Config, w: World, ms: seq<Move>, name: string): nat
    requires Course(cfg, w, ms)
    decreases |ms|
  {
    if ms == [] then 0
    else (if Activates(w, ms[0], name) then 1 else 0) + Activations(cfg, Moved(cfg, w, ms[0]), ms[1..], name)
  }

  /** Callers reactivate only keys that have been active before; `ever` holds those until now. */
  ghost predicate FormerOnly(cfg: Config, w: World, ms: seq<Move>, name: string, ever: set<string>)
    requires Course(cfg, w, ms)
    decreases |ms|
  {
    ms == [] ||
    (&& (ms[0].Proceed? && Revives(w, ms[0], name) ==> AccessOf(w, ms[0]).key.keyId in ever)
     && var w' := Moved(cfg, w, ms[0]);
        FormerOnly(cfg, w', ms[1..], name, ever + ActiveIds(KeysOf(w'.s, name))))
  }

  // ---- One write ------------------------------------------------------------------------------

  lemma SaveCounts(keys: Keys, ever: set<string>, key: SecretKey)
    requires Consistent(keys, ever) && IsNew(key) && key.keyId !in Ids(keys)
    ensures Consistent(Put(keys, key), ever) && ever + ActiveIds(Put(keys, key)) == ever
  {
    hide Put, Ids, ActiveIds, Consistent;
    FoundFacts(keys, ever, key.keyId);
    PutConsistent(keys, ever, key);
    NewlyActive(ever, ActiveIds(keys), ActiveIds(Put(keys, key)), key.keyId, false);
  }

  lemma RewriteCounts(keys: Keys, ever: set<string>, stored: SecretKey, key: SecretKey)
    requires Consistent(keys, ever) && Find(keys, key.keyId) == Some(stored) && Rewritten(stored, key)
    ensures var ever' := if key.status == Active then ever + {key.keyId} else ever;
      Consistent(Put(keys, key), ever') && ever + ActiveIds(Put(keys, key)) == ever'
    ensures stored.status == Pending ==> key.keyId !in ever
  {
    hide Put, Find, ActiveIds, Consistent;
    FoundFacts(keys, ever, key.keyId);
    PutConsistent(keys, ever, key);
    NewlyActive(ever, ActiveIds(keys), ActiveIds(Put(keys, key)), key.keyId, key.status == Active);
  }

  /** What a move does to the keys that have ever been active. */
  ghost function EverAfter(w: World, m: Move, name: string, ever: set<string>): set<string>
    requires CanMove(w, m)
  {
    if Activates(w, m, name) || Revives(w, m, name) then ever + {AccessOf(w, m).key.keyId} else ever
  }

  lemma MoveCounts(cfg: Config, w: World, m: Move, name: string, ever: set<string>)
    requires OrderlyOk(w) && CanMove(w, m) && MoveTouches(cfg, w, m) && Consistent(KeysOf(w.s, name), ever)
    ensures var keys', ever' := KeysOf(Moved(cfg, w, m).s, name), EverAfter(w, m, name, ever);
      Consistent(keys', ever') && ever + ActiveIds(keys') == ever'
    ensures Activates(w, m, name) ==> AccessOf(w, m).key.keyId !in ever
  {
    hide HoldOf, Moved, KeysOf, Fits, Find, Put, Ids, OneByOne, Rewritten, ToldOf, Consistent, ActiveIds, ActorOf,
      NameOf, AccessOf;
    var a, x, keys := ActorOf(m), AccessOf(w, m), KeysOf(w.s, name);
    var h := HoldOf(w, a);
    assert HoldOk(h) && FreshOf(w, a);
    FoundFacts(keys, ever, "");
    if x.Wrote? && NameOf(w, m) == name {
      if h.unsaved.Some? {
        SaveCounts(keys, ever, x.key);
      } else {
        var held := if h.outgoing.Some? then h.outgoing.value else h.target.value;
        assert Holds(h, held);
        SameIdRewritten(held, x.key);
        RewriteCounts(keys, ever, held, x.key);
      }
    }
  }

  lemma SameIdRewritten(key: SecretKey, k: SecretKey)
    requires Rewritten(key, k)
    ensures k.keyId == key.keyId
  {
  }

  // ---- Rotations reactivate former keys -------------------------------------------------------

  ghost predicate PrevKnown(r: Rotation, ever: set<string>) {
    && (r.prevId.Some? ==> r.prevId.value in ever)
    && (r.pc.ReactivateUpdate? && r.seen.Some? ==> r.prevId == Some(r.seen.value.keyId))
  }

  ghost predicate RotorsKnow(s: State, name: string, ever: set<string>) {
    forall rid :: rid in s.rots && s.rots[rid].secret == name ==> PrevKnown(s.rots[rid], ever)
  }

  lemma SwitchKeepsPrevious(cfg: Config, now: Time, next: Provider.VersionId, kept: bool, sl: Slice, r: Rotation,
                            o: Outcome)
    requires Possible(r, o) && (r.pc.ActivateExpire? || r.pc.ActivateUpdate?)
    ensures var r' := Progress(cfg, now, next, kept, sl, r, o).r; r'.prevId == r.prevId && !r'.pc.ReactivateUpdate?
  {
    hide Find, Put, GetActive, FirstCompensation, AfterCancel, AfterMark;
    FailureIsEmpty(cfg, kept, r);
  }

  lemma ProgressKeepsPrevious(cfg: Config, now: Time, next: Provider.VersionId, kept: bool, sl: Slice, r: Rotation,
                              o: Outcome)
    requires Possible(r, o) && !Ending(r.pc)
    ensures var r' := Progress(cfg, now, next, kept, sl, r, o).r;
      && !r'.pc.ReactivateUpdate?
      && (r'.prevId == r.prevId || r'.prevId.None? ||
          (GetActive(sl.keys).Some? && r'.prevId == Some(GetActive(sl.keys).value.keyId)))
  {
    hide Find, Put, GetActive, FirstCompensation, AfterCancel, AfterMark, WriteKey;
    FailureIsEmpty(cfg, kept, r);
    if r.pc.ActivateExpire? || r.pc.ActivateUpdate? {
      SwitchKeepsPrevious(cfg, now, next, kept, sl, r, o);
    }
  }

  lemma ProgressKnows(cfg: Config, now: Time, next: Provider.VersionId, kept: bool, sl: Slice, r: Rotation, o: Outcome,
                      ever: set<string>)
    requires Possible(r, o) && !Ending(r.pc) && PrevKnown(r, ever)
    ensures PrevKnown(Progress(cfg, now, next, kept, sl, r, o).r, ever + ActiveIds(sl.keys))
  {
    hide Progress, GetActive;
    ProgressKeepsPrevious(cfg, now, next, kept, sl, r, o);
    GetActiveIsNewest(sl.keys);
  }

  lemma CompensationKnows(now: Time, sl: Slice, r: Rotation, o: Outcome, ever: set<string>)
    requires Possible(r, o) && Ending(r.pc) && PrevKnown(r, ever)
    ensures PrevKnown(Compensation(now, sl, r, o).r, ever)
  {
    hide Find, Put, GetActive, FirstCompensation, AfterCancel, AfterMark;
    FailureIsEmpty(Config(None), false, r);
  }

  lemma RotationRevives(now: Time, keys: Keys, r: Rotation, o: Outcome, ever: set<string>)
    requires PrevKnown(r, ever) && HoldOk(RotationHold(r)) && WriteOf(now, keys, r, o).Some?
    ensures WriteOf(now, keys, r, o).value.status == Active && !RotationHold(r).activating ==>
      WriteOf(now, keys, r, o).value.keyId in ever
  {
    hide Find;
  }

  lemma MoveKnows(cfg: Config, w: World, m: Move, name: string, ever: set<string>)
    requires CanMove(w, m) && RotorsKnow(w.s, name, ever) && ever + ActiveIds(KeysOf(w.s, name)) == ever
    ensures RotorsKnow(Moved(cfg, w, m).s, name, ever)
  {
    hide Progress, Compensation, CallStep, ActiveIds, Find, GetActive, EntriesAfter, ReadOf, WriteOf;
    if m.Rotate? && m.l.Advance? {
      var rid, o := m.l.rid, m.l.o;
      var r, kept, sl := w.s.rots[rid], Kept(w.s.entries, rid), SliceOf(w.s, w.s.rots[rid].secret);
      AdvanceFrame(cfg, w.s, rid, o);
      if r.secret == name {
        if Ending(r.pc) {
          CompensationKnows(w.s.now, sl, r, o, ever);
        } else {
          ProgressKnows(cfg, w.s.now, w.s.nextVersion, kept, sl, r, o, ever);
        }
      }
    }
  }

  lemma RotorRevivesFormer(w: World, m: Move, name: string, ever: set<string>)
    requires CanMove(w, m) && RotorsKnow(w.s, name, ever) && HoldsOk(w)
    ensures m.Rotate? && Revives(w, m, name) ==> AccessOf(w, m).key.keyId in ever
  {
    hide HoldOk, RotationHold, WriteOf, ReadOf, CallStep, PrevKnown;
    if m.Rotate? && Revives(w, m, name) {
      var r := w.s.rots[m.l.rid];
      HoldIsOk(w, Rotor(m.l.rid));
      RotationRevives(w.s.now, KeysOf(w.s, r.secret), r, m.l.o, ever);
    }
  }

  lemma CallersAndRotors(w: World, m: Move)
    requires CanMove(w, m) && AccessOf(w, m).Wrote?
    ensures m.Rotate? || m.Proceed?
  {
    hide CallStep, WriteOf, ReadOf;
  }

  lemma GrowsBy(ever: set<string>, id: string)
    ensures |ever + {id}| == if id in ever then |ever| else |ever| + 1
    ensures id in ever ==> ever + {id} == ever
  {
    if id in ever {
      assert ever + {id} == ever;
    }
  }

  /** The set grows by one key exactly with an activation, if reactivated keys are former ones. */
  lemma MoveGrows(cfg: Config, w: World, m: Move, name: string, ever: set<string>)
    requires OrderlyOk(w) && CanMove(w, m) && MoveTouches(cfg, w, m)
    requires Consistent(KeysOf(w.s, name), ever) && RotorsKnow(w.s, name, ever)
    ensures var ever' := EverAfter(w, m, name, ever);
      && ever <= ever' && |ever| <= |ever'|
      && ((m.Proceed? && Revives(w, m, name) ==> AccessOf(w, m).key.keyId in ever) ==>
            |ever'| == |ever| + (if Activates(w, m, name) then 1 else 0))
  {
    hide OneByOne, ToldOf, FreshOf, UnsavedOk, RecordsOk, Fits, MoveTouches, HoldOf, AccessOf, Consistent, RotorsKnow,
      CanMove, HoldsOk, KeysOf, NameOf;
    MoveCounts(cfg, w, m, name, ever);
    RotorRevivesFormer(w, m, name, ever);
    if Activates(w, m, name) || Revives(w, m, name) {
      CallersAndRotors(w, m);
      GrowsBy(ever, AccessOf(w, m).key.keyId);
    }
  }

  // ---- The count over runs --------------------------------------------------------------------

  /**
   * Whatever operations and rotations take turns on a secret, `rotationCount` is the number of its keys that have
   * ever been active, so it never decreases; and when callers reactivate only former active keys, as rotations
   * do, it grows by one with each activation, no key being activated twice.
   */
  lemma {:induction false} RotationCountIsHistory(cfg: Config, w: World, ms: seq<Move>, name: string, ever: set<string>)
    requires OrderlyOk(w) && Course(cfg, w, ms) && Orderly(cfg, w, ms)
    requires Consistent(KeysOf(w.s, name), ever) && RotorsKnow(w.s, name, ever)
    ensures var before, after := StateOf(KeysOf(w.s, name)), StateOf(KeysOf(Later(cfg, w, ms).s, name));
      && before.rotationCount == |ever|
      && after.rotationCount == |ever + EverActive(cfg, w, ms, name)|
      && before.rotationCount <= after.rotationCount
      && (FormerOnly(cfg, w, ms, name, ever) ==>
            after.rotationCount == before.rotationCount + Activations(cfg, w, ms, name))
    decreases |ms|
  {
    hide OrderlyOk, Waits, CanMove, Moved, MoveTouches, KeysOf, StateOf, ActiveIds, Consistent, RotorsKnow, FinalStep,
      Revives, Activates, AccessOf, EverAfter;
    var keys := KeysOf(w.s, name);
    CountOfState(keys, ever);
    FoundFacts(keys, ever, "");
    if ms == [] {
      assert ever + EverActive(cfg, w, ms, name) == ever;
    } else {
      var m, w' := ms[0], Moved(cfg, w, ms[0]);
      OrderlyStepKeeps(cfg, w, m);
      MoveCounts(cfg, w, m, name, ever);
      MoveGrows(cfg, w, m, name, ever);
      MoveKnows(cfg, w, m, name, ever);
      var ever' := EverAfter(w, m, name, ever);
      KnowsMore(w'.s, name, ever, ever');
      RotationCountIsHistory(cfg, w', ms[1..], name, ever');
      EverSoFar(cfg, w, ms, name, ever);
    }
  }

  lemma KnowsMore(s: State, name: string, ever: set<string>, ever': set<string>)
    requires RotorsKnow(s, name, ever) && ever <= ever'
    ensures RotorsKnow(s, name, ever')
  {
  }

  lemma EverSoFar(cfg: Config, w: World, ms: seq<Move>, name: string, ever: set<string>)
    requires Course(cfg, w, ms) && ms != [] && ever + ActiveIds(KeysOf(w.s, name)) == ever
    ensures var w' := Moved(cfg, w, ms[0]);
      ever + EverActive(cfg, w, ms, name) ==
      (ever + ActiveIds(KeysOf(w'.s, name))) + EverActive(cfg, w', ms[1..], name)
  {
    hide ActiveIds, Moved, KeysOf, CanMove;
  }

  /** A secret without records, before any operation or rotation. */
  lemma NothingHasHistory(w: World, name: string)
    requires AtRest(w) && KeysOf(w.s, name) == []
    ensures OrderlyOk(w) && Consistent(KeysOf(w.s, name), {}) && RotorsKnow(w.s, name, {})
  {
    RestIsOrderly(w);
  }

  /** So from a secret without records: the count is of all its keys that have ever been active. */
  lemma CountFromNothing(cfg: Config, w: World, ms: seq<Move>, name: string)
    requires AtRest(w) && KeysOf(w.s, name) == [] && Course(cfg, w, ms) && Orderly(cfg, w, ms)
    ensures var count := StateOf(KeysOf(Later(cfg, w, ms).s, name)).rotationCount;
      && count == |EverActive(cfg, w, ms, name)|
      && (FormerOnly(cfg, w, ms, name, {}) ==> count == Activations(cfg, w, ms, name))
  {
    hide OrderlyOk, Consistent, StateOf, Later, Course, Orderly, FormerOnly;
    NothingHasHistory(w, name);
    RotationCountIsHistory(cfg, w, ms, name, {});
    assert {} + EverActive(cfg, w, ms, name) == EverActive(cfg, w, ms, name);
  }
}
