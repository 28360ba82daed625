/**
 * What runs of interleaved operations and rotations keep: one record per id, ids handed out once, and what an
 * actor still holds of a record it read, told by the log of what others have written since.
 */
module LifecycleInvariant {
  import opened Wrappers
  import opened KeyModel
  import opened KeyLifecycles
  import opened RotationMachine
  import opened RotationInvariant
  import opened RotationTheorems
  import opened LifecycleMachine

  // ---- One move, seen from the records --------------------------------------------------------

  ghost predicate Fits(w: World) {
    && (forall rid :: rid in w.s.rots ==> RotationFits(w.s.rots[rid]))
    && (forall cid :: cid in w.clients ==> CallFits(w.clients[cid].op, w.clients[cid].call))
  }

  /** One actor has taken one step on one secret: the rest of the world is as it was. */
  ghost predicate Touched(w: World, w': World, a: Actor, name: string, x: Access) {
    && (forall b :: b != a ==> HoldOf(w', b) == HoldOf(w, b))
    && (forall n :: KeysOf(w'.s, n) == if n == name then AfterAccess(KeysOf(w.s, n), x) else KeysOf(w.s, n))
    && w'.log == w.log + [Entered(a, name, x)]
    && w.s.usedIds <= w'.s.usedIds
    && HoldOf(w', a).name == name && (HoldOf(w, a) == NoHold("") || HoldOf(w, a).name == name)
    && Passes(HoldOf(w, a), HoldOf(w', a), x, KeysOf(w.s, name), w.s.usedIds, w'.s.usedIds)
  }

  ghost predicate MoveTouches(cfg: Config, w: World, m: Move)
    requires CanMove(w, m)
  {
    Touched(w, Moved(cfg, w, m), ActorOf(m), NameOf(w, m), AccessOf(w, m)) && Fits(Moved(cfg, w, m))
  }

  lemma AdvanceTouches(cfg: Config, w: World, rid: Rid, o: Outcome)
    requires CanMove(w, Rotate(Advance(rid, o))) && Fits(w) && HoldOk(HoldOf(w, Rotor(rid)))
    ensures MoveTouches(cfg, w, Rotate(Advance(rid, o)))
  {
    hide Apply, StepLocal, HoldOk, Passes, RotationHold, CallHold, RotationFits, CallFits, WriteOf, ReadOf, Put;
    var r, m := w.s.rots[rid], Rotate(Advance(rid, o));
    var w' := Moved(cfg, w, m);
    AdvanceFrame(cfg, w.s, rid, o);
    RotationPasses(cfg, w.s, rid, o);
    assert w'.clients == w.clients;
    forall n
      ensures KeysOf(w'.s, n) == if n == r.secret then AfterAccess(KeysOf(w.s, n), AccessOf(w, m)) else KeysOf(w.s, n)
    {
      assert KeysOf(w'.s, n) == SliceOf(w'.s, n).keys;
      assert KeysOf(w.s, n) == SliceOf(w.s, n).keys;
    }
  }

  lemma RotationPasses(cfg: Config, s: State, rid: Rid, o: Outcome)
    requires Enabled(s, Advance(rid, o)) && RotationFits(s.rots[rid]) && HoldOk(RotationHold(s.rots[rid]))
    ensures var r, l := s.rots[rid], LocalOf(cfg, s, rid, o);
      var x := RotationAccess(s.now, KeysOf(s, r.secret), r, o);
      && Passes(RotationHold(r), RotationHold(l.r), x, KeysOf(s, r.secret), s.usedIds, UsedAfter(o, s.usedIds))
      && RotationFits(l.r) && l.r.secret == r.secret && l.slice.keys == AfterAccess(KeysOf(s, r.secret), x)
      && RotationHold(r).name == r.secret && RotationHold(l.r).name == r.secret
  {
    hide Progress, Compensation, HoldOk, Passes, RotationFits, WriteOf, ReadOf, Put;
    var r, kept, sl := s.rots[rid], Kept(s.entries, rid), SliceOf(s, s.rots[rid].secret);
    StepStores(cfg, s.now, s.nextVersion, kept, sl, r, o);
    if Ending(r.pc) {
      CompensationPasses(s.now, sl, r, o, s.usedIds);
    } else {
      ProgressPasses(cfg, s.now, s.nextVersion, kept, sl, r, o, s.usedIds);
    }
  }

  lemma StartTouches(cfg: Config, w: World, l: Label)
    requires CanMove(w, Rotate(l)) && Fits(w) && !l.Advance?
    ensures MoveTouches(cfg, w, Rotate(l))
  {
    hide CallFits, CallHold;
  }

  lemma BeginTouches(cfg: Config, w: World, cid: Cid, name: string, op: Op)
    requires CanMove(w, Begin(cid, name, op)) && Fits(w)
    ensures MoveTouches(cfg, w, Begin(cid, name, op))
  {
    hide RotationFits, RotationHold, CallStep;
  }

  lemma ProceedTouches(cfg: Config, w: World, cid: Cid, throws: bool)
    requires CanMove(w, Proceed(cid, throws)) && Fits(w) && HoldOk(HoldOf(w, Caller(cid)))
    ensures MoveTouches(cfg, w, Proceed(cid, throws))
  {
    hide RotationFits, RotationHold, CallStep, CallFits, Passes, HoldOk, Put, CallHold;
    var c := w.clients[cid];
    ClientPasses(KeysOf(w.s, c.secret), w.s.now, c.secret, c.op, c.call, throws, w.s.usedIds);
    HoldNames(c.secret, c.op, c.call);
    HoldNames(c.secret, c.op, CallOf(w, cid, throws).next);
  }

  lemma HoldNames(name: string, op: Op, call: Call)
    ensures CallHold(name, op, call).name == name
  {
  }

  lemma EachMoveTouches(cfg: Config, w: World, m: Move)
    requires CanMove(w, m) && Fits(w) && HoldOk(HoldOf(w, ActorOf(m)))
    ensures MoveTouches(cfg, w, m)
  {
    hide MoveTouches, HoldOk, Fits;
    match m
    case Rotate(l) =>
      if l.Advance? {
        AdvanceTouches(cfg, w, l.rid, l.o);
      } else {
        StartTouches(cfg, w, l);
      }
    case Begin(cid, name, op) => BeginTouches(cfg, w, cid, name, op);
    case Proceed(cid, throws) => ProceedTouches(cfg, w, cid, throws);
  }

  // ---- Final states ---------------------------------------------------------------------------

  /** A revoked record stays as it is, a failed one can only be revoked, and none returns to pending. */
  predicate KeepsEnd(before: SecretKey, after: SecretKey) {
    && (before.status == Revoked ==> after == before)
    && (before.status == Failed ==> after == before || after.status == Revoked)
    && (before.status != Pending ==> after.status != Pending)
  }

  ghost predicate FinalStep(s: State, s': State) {
    forall name, id :: Find(KeysOf(s, name), id).Some? ==>
      && Find(KeysOf(s', name), id).Some?
      && KeepsEnd(Find(KeysOf(s, name), id).value, Find(KeysOf(s', name), id).value)
  }

  predicate Ends(e: Entered, name: string, id: string) {
    e.name == name && e.access.Wrote? && e.access.key.keyId == id && Terminal(e.access.key.status)
  }

  predicate Reads(e: Entered, a: Actor, name: string, id: string) {
    e.actor == a && e.name == name && e.access.Read? && e.access.key.keyId == id
  }

  /** The last revoked or failed record of the key that anyone has stored since `a` last read that key. */
  function EndedSince(log: seq<Entered>, a: Actor, name: string, id: string): Option<SecretKey> {
    if log == [] then None
    else
      var last := log[|log| - 1];
      if Ends(last, name, id) then Some(last.access.key)
      else if Reads(last, a, name, id) then None
      else EndedSince(log[..|log| - 1], a, name, id)
  }

  lemma EndedLater(log: seq<Entered>, e: Entered, a: Actor, name: string, id: string)
    ensures EndedSince(log + [e], a, name, id) ==
      if Ends(e, name, id) then Some(e.access.key)
      else if Reads(e, a, name, id) then None
      else EndedSince(log, a, name, id)
  {
    assert (log + [e])[..|log + [e]| - 1] == log;
  }

  /**
   * The write has been overtaken: since the actor read the key, another write has ended it, and this one neither
   * repeats that write nor revokes a key that had failed.
   */
  predicate OvertakenBy(w: World, a: Actor, name: string, x: Access) {
    x.Wrote? && HoldOf(w, a).unsaved.None? &&
    var ended := EndedSince(w.log, a, name, x.key.keyId);
    ended.Some? && ended.value != x.key && !(ended.value.status == Failed && x.key.status == Revoked)
  }

  predicate Overtaken(w: World, m: Move)
    requires CanMove(w, m)
  {
    OvertakenBy(w, ActorOf(m), NameOf(w, m), AccessOf(w, m))
  }

  // ---- The invariant --------------------------------------------------------------------------

  ghost predicate RecordsOk(s: State) {
    forall name :: Distinct(KeysOf(s, name)) && Ids(KeysOf(s, name)) <= s.usedIds
  }

  ghost predicate UnsavedOk(w: World) {
    && (forall a :: HoldOf(w, a).unsaved.Some? ==>
          var id := HoldOf(w, a).unsaved.value.keyId;
          id in w.s.usedIds && id !in Ids(KeysOf(w.s, HoldOf(w, a).name)))
    && (forall a, b :: a != b && HoldOf(w, a).unsaved.Some? && HoldOf(w, b).unsaved.Some? ==>
          HoldOf(w, a).unsaved.value.keyId != HoldOf(w, b).unsaved.value.keyId)
  }

  /** A record read earlier is still stored and has not ended since, or the log says how it did. */
  ghost predicate Told(keys: Keys, ended: Option<SecretKey>, key: SecretKey) {
    && Find(keys, key.keyId).Some?
    && var stored := Find(keys, key.keyId).value;
      if ended.Some? then stored == ended.value && Terminal(stored.status)
      else Terminal(stored.status) ==> stored == key
  }

  ghost predicate ToldOf(w: World, a: Actor) {
    forall key :: Holds(HoldOf(w, a), key) ==>
      Told(KeysOf(w.s, HoldOf(w, a).name), EndedSince(w.log, a, HoldOf(w, a).name, key.keyId), key)
  }

  ghost predicate HoldsOk(w: World) {
    forall a :: HoldOk(HoldOf(w, a))
  }

  ghost predicate WorldOk(w: World) {
    RecordsOk(w.s) && Fits(w) && HoldsOk(w) && UnsavedOk(w) && forall a :: ToldOf(w, a)
  }

  lemma StoredOk(keys: Keys, used: set<string>, key: SecretKey)
    requires Distinct(keys) && Ids(keys) <= used && key.keyId in used
    ensures Distinct(Put(keys, key)) && Ids(Put(keys, key)) <= used && Ids(Put(keys, key)) == Ids(keys) + {key.keyId}
  {
    PutIds(keys, key);
    if key.keyId in Ids(keys) {
      PutAt(keys, key);
    } else {
      PutNew(keys, key);
    }
  }

  lemma RecordsKept(w: World, w': World, a: Actor, name: string, x: Access)
    requires RecordsOk(w.s) && UnsavedOk(w) && HoldsOk(w) && Touched(w, w', a, name, x)
    ensures RecordsOk(w'.s) && HoldsOk(w')
    ensures forall n ::
      Ids(KeysOf(w'.s, n)) == Ids(KeysOf(w.s, n)) + (if n == name && x.Wrote? then {x.key.keyId} else {})
  {
    hide Put, Find, Distinct, HoldOf, Ids, Rewritten, KeysOf;
    if x.Wrote? {
      assert x.key.keyId in w.s.usedIds;
      StoredOk(KeysOf(w.s, name), w.s.usedIds, x.key);
    }
    assert HoldOk(HoldOf(w, a));
    forall b ensures HoldOk(HoldOf(w', b)) {
      assert HoldOk(HoldOf(w, b));
    }
  }

  lemma UnsavedKept(w: World, w': World, a: Actor, name: string, x: Access)
    requires RecordsOk(w.s) && UnsavedOk(w) && HoldsOk(w) && Touched(w, w', a, name, x)
    ensures UnsavedOk(w')
  {
    hide Put, Find, Distinct, HoldOf, Ids, Rewritten, KeysOf, HoldsOk;
    RecordsKept(w, w', a, name, x);
  }

  /** Only the written record changes. */
  lemma FindAfter(w: World, w': World, a: Actor, name: string, x: Access, n: string, id: string)
    requires Touched(w, w', a, name, x)
    ensures Find(KeysOf(w'.s, n), id) ==
      if x.Wrote? && n == name && id == x.key.keyId then Some(x.key) else Find(KeysOf(w.s, n), id)
  {
    hide Put, Find, HoldOf, Passes, KeysOf;
    if x.Wrote? {
      FindPut(KeysOf(w.s, name), x.key, id);
    }
  }

  /** A step is final exactly if its write is not overtaken. */
  lemma FinalExactly(w: World, w': World, a: Actor, name: string, x: Access)
    requires WorldOk(w) && Touched(w, w', a, name, x)
    ensures FinalStep(w.s, w'.s) <==> !OvertakenBy(w, a, name, x)
  {
    hide Put, Find, HoldOf, KeysOf, WorldOk, EndedSince, Touched, KeepsEnd;
    forall n, id ensures Find(KeysOf(w'.s, n), id) ==
      if x.Wrote? && n == name && id == x.key.keyId then Some(x.key) else Find(KeysOf(w.s, n), id)
    {
      FindAfter(w, w', a, name, x, n, id);
    }
    Same();
    if x.Wrote? {
      WriteKeepsEnd(w, w', a, name, x);
    }
  }

  lemma Same()
    ensures forall k :: KeepsEnd(k, k)
  {
  }

  lemma WriteKeepsEnd(w: World, w': World, a: Actor, name: string, x: Access)
    requires WorldOk(w) && Touched(w, w', a, name, x) && x.Wrote?
    ensures var stored := Find(KeysOf(w.s, name), x.key.keyId);
      OvertakenBy(w, a, name, x) <==> stored.Some? && !KeepsEnd(stored.value, x.key)
  {
    hide Put, Find, HoldOf, KeysOf, EndedSince, Fits, RecordsOk;
    var h := HoldOf(w, a);
    if h.unsaved.None? {
      var key := if h.outgoing.Some? then h.outgoing.value else h.target.value;
      assert ToldOf(w, a) && Holds(h, key) && HoldOk(h);
      assert Told(KeysOf(w.s, name), EndedSince(w.log, a, name, key.keyId), key);
    } else {
      assert h.unsaved == Some(x.key);
    }
  }

  lemma ToldKept(w: World, w': World, a: Actor, name: string, x: Access, b: Actor)
    requires WorldOk(w) && Touched(w, w', a, name, x) && FinalStep(w.s, w'.s)
    ensures ToldOf(w', b)
  {
    hide Put, Find, HoldOf, KeysOf, EndedSince, Fits, UnsavedOk, Rewritten, Distinct;
    var h', n := HoldOf(w', b), HoldOf(w', b).name;
    var e := Entered(a, name, x);
    assert ToldOf(w, b) && HoldOk(HoldOf(w, b));
    forall key | Holds(h', key) ensures Told(KeysOf(w'.s, n), EndedSince(w'.log, b, n, key.keyId), key) {
      EndedLater(w.log, e, b, n, key.keyId);
      FindAfter(w, w', a, name, x, n, key.keyId);
      if Reads(e, b, n, key.keyId) {
        FindIsUnique(KeysOf(w.s, n), x.key);
      } else {
        assert Holds(HoldOf(w, b), key);
      }
    }
  }

  lemma FinalKeeps(cfg: Config, w: World, m: Move)
    requires WorldOk(w) && CanMove(w, m) && FinalStep(w.s, Moved(cfg, w, m).s)
    ensures WorldOk(Moved(cfg, w, m))
  {
    hide Moved, RecordsOk, UnsavedOk, HoldsOk, Fits, ToldOf, FinalStep, Touched;
    var w', a, name, x := Moved(cfg, w, m), ActorOf(m), NameOf(w, m), AccessOf(w, m);
    HoldIsOk(w, a);
    EachMoveTouches(cfg, w, m);
    RecordsKept(w, w', a, name, x);
    UnsavedKept(w, w', a, name, x);
    forall b ensures ToldOf(w', b) {
      ToldKept(w, w', a, name, x, b);
    }
  }

  lemma HoldIsOk(w: World, a: Actor)
    requires HoldsOk(w)
    ensures HoldOk(HoldOf(w, a))
  {
  }

  lemma FinalUnlessOvertaken(cfg: Config, w: World, m: Move)
    requires WorldOk(w) && CanMove(w, m)
    ensures FinalStep(w.s, Moved(cfg, w, m).s) <==> !Overtaken(w, m)
  {
    hide Moved, RecordsOk, UnsavedOk, HoldsOk, Fits, ToldOf, FinalStep, Touched, OvertakenBy;
    HoldIsOk(w, ActorOf(m));
    EachMoveTouches(cfg, w, m);
    FinalExactly(w, Moved(cfg, w, m), ActorOf(m), NameOf(w, m), AccessOf(w, m));
  }
}
