/** One active key over runs in which operations and rotations take turns on each secret. */
module LifecycleActive {
  import opened Wrappers
  import opened KeyModel
  import opened KeyLifecycles
  import opened RotationMachine
  import opened RotationInvariant
  import opened RotationTheorems
  import opened LifecycleMachine
  import opened LifecycleInvariant
  import opened LifecycleRuns
  import Results = RotationResults

  /** No other key of the secret is active, if the key can be brought back at all. */
  ghost predicate ComesBackAlone(keys: Keys, id: string) {
    Live(keys, Some(id)).Some? ==> ActiveIds(keys) <= {id}
  }

  /** A rotation has none of the failures that leave two keys, and a key is brought back beside no other. */
  ghost predicate Careful(w: World, m: Move) {
    match m
    case Rotate(l) => GoodStep(w.s, l, NO_CLAIMS)
    case Begin(_, name, Reactivate(id)) => ComesBackAlone(KeysOf(w.s, name), id)
    case _ => true
  }

  ghost predicate CarefulCourse(cfg: Config, w: World, ms: seq<Move>)
    requires Course(cfg, w, ms)
    decreases |ms|
  {
    ms == [] || (Careful(w, ms[0]) && CarefulCourse(cfg, Moved(cfg, w, ms[0]), ms[1..]))
  }

  /** What an operation in progress may find active on its secret. */
  ghost predicate CallSafe(keys: Keys, now: Time, op: Op, call: Call) {
    match call
    case CallSave(made) => made.keyId != "" && made.validFrom <= now
    case CallGet => op.Reactivate? ==> ComesBackAlone(keys, op.id)
    case CallGetActive(_) => true
    case CallExpire(_, current) => ActiveIds(keys) <= {current.keyId}
    case CallUpdate(key) =>
      (op.Activate? ==> ActiveIds(keys) == {}) && (op.Reactivate? ==> ActiveIds(keys) <= {key.keyId})
    case Returned(_) => true
  }

  ghost predicate ClientsSafe(w: World) {
    forall cid :: cid in w.clients ==>
      CallSafe(KeysOf(w.s, w.clients[cid].secret), w.s.now, w.clients[cid].op, w.clients[cid].call)
  }

  ghost predicate ActiveOk(cfg: Config, w: World) {
    OrderlyOk(w) && Inv(cfg, w.s, NO_CLAIMS) && ClientsSafe(w)
  }

  // ---- The machine's invariant under a caller's step ------------------------------------------

  /** Ids handed out and records written at rest leave the invariant of the rotations alone. */
  lemma RestWriteKeeps(cfg: Config, s: State, s': State, name: string)
    requires Inv(cfg, s, NO_CLAIMS) && Quiet(s, name)
    requires s' == s.(store := s'.store, usedIds := s'.usedIds) && s.usedIds <= s'.usedIds
    requires forall n :: n != name ==> KeysOf(s', n) == KeysOf(s, n)
    requires KeysOk(KeysOf(s', name), s'.usedIds, s'.now) && AtMostOneActive(KeysOf(s', name))
    ensures Inv(cfg, s', NO_CLAIMS)
  {
    hide RotationOk, QuietOk, KeysOk, AtMostOneActive, KeysOf;
    forall rid | InFlight(s', rid)
      ensures s'.rots[rid].secret in s'.rotating
      ensures RotationOk(cfg, SliceOf(s', s'.rots[rid].secret), s'.rots[rid], s'.usedIds, s'.now, s'.nextVersion,
                         NO_CLAIMS)
    {
      assert InFlight(s, rid);
      var r := s.rots[rid];
      assert SliceOf(s', r.secret) == SliceOf(s, r.secret);
      RotationMonotone(cfg, SliceOf(s, r.secret), r, s.usedIds, s'.usedIds, s.now, s.now, s.nextVersion, s.nextVersion,
                       NO_CLAIMS);
    }
    forall n | Quiet(s', n) ensures QuietOk(SliceOf(s', n), s'.usedIds, s'.now, s'.nextVersion, NO_CLAIMS) {
      assert forall rid :: InFlight(s, rid) ==> InFlight(s', rid);
      assert Quiet(s, n);
      RestMonotone(SliceOf(s, n), SliceOf(s', n), s, s', n == name);
    }
    assert forall rid :: InFlight(s', rid) ==> InFlight(s, rid);
  }

  lemma RestMonotone(sl: Slice, sl': Slice, s: State, s': State, written: bool)
    requires QuietOk(sl, s.usedIds, s.now, s.nextVersion, NO_CLAIMS) && sl'.prov == sl.prov
    requires s.usedIds <= s'.usedIds && s'.now == s.now && s'.nextVersion == s.nextVersion
    requires if written then KeysOk(sl'.keys, s'.usedIds, s'.now) && AtMostOneActive(sl'.keys) else sl'.keys == sl.keys
    ensures QuietOk(sl', s'.usedIds, s'.now, s'.nextVersion, NO_CLAIMS)
  {
    hide AtMostOneActive, ProviderOk, Distinct;
  }

  lemma QuietRecords(cfg: Config, s: State, name: string)
    requires Inv(cfg, s, NO_CLAIMS) && Quiet(s, name)
    ensures KeysOk(KeysOf(s, name), s.usedIds, s.now) && AtMostOneActive(KeysOf(s, name))
  {
    hide RotationOk, KeysOk, AtMostOneActive, ProviderOk;
    assert SliceOf(s, name).keys == KeysOf(s, name);
  }

  /** A write at rest: the records stay in order if the record joins no other active one. */
  lemma PutInOrder(keys: Keys, used: set<string>, now: Time, key: SecretKey)
    requires KeysOk(keys, used, now) && AtMostOneActive(keys)
    requires key.keyId in used && key.keyId != "" && key.validFrom <= now
    requires key.status == Active ==> ActiveIds(keys) <= {key.keyId}
    ensures KeysOk(Put(keys, key), used, now) && AtMostOneActive(Put(keys, key))
    ensures ActiveIds(Put(keys, key)) ==
      ActiveIds(keys) - {key.keyId} + (if key.status == Active then {key.keyId} else {})
  {
    PutMembersOrNew(keys, key);
    var put := Put(keys, key);
    forall a, b | a in put && b in put && a.status == Active && b.status == Active ensures a.keyId == b.keyId {
      SameActive(keys, a, b);
      assert a in keys ==> a.keyId in ActiveIds(keys);
      assert b in keys ==> b.keyId in ActiveIds(keys);
    }
    OneActiveId(put, used, now);
  }

  lemma SameActive(keys: Keys, a: SecretKey, b: SecretKey)
    requires AtMostOneActive(keys)
    ensures a in keys && b in keys && a.status == Active && b.status == Active ==> a == b
  {
  }

  lemma PutMembersOrNew(keys: Keys, key: SecretKey)
    requires Distinct(keys)
    ensures Distinct(Put(keys, key))
    ensures forall k :: k in Put(keys, key) <==> (k in keys && k.keyId != key.keyId) || k == key
  {
    if key.keyId in Ids(keys) {
      PutAt(keys, key);
      PutMembers(keys, key);
    } else {
      PutNew(keys, key);
    }
  }

  // ---- Steps ----------------------------------------------------------------------------------

  /** Nobody else is at work on the secret of an operation in progress. */
  lemma AloneOnSecret(w: World, cid: Cid)
    requires OneByOne(w) && cid in w.clients && !w.clients[cid].call.Returned?
    ensures Quiet(w.s, w.clients[cid].secret)
    ensures forall c :: c in w.clients && c != cid && w.clients[c].secret == w.clients[cid].secret ==>
      w.clients[c].call.Returned?
  {
    assert InProgress(w, Caller(cid)) && HoldOf(w, Caller(cid)).name == w.clients[cid].secret;
    forall rid | InFlight(w.s, rid) ensures w.s.rots[rid].secret != w.clients[cid].secret {
      assert InProgress(w, Rotor(rid)) && HoldOf(w, Rotor(rid)).name == w.s.rots[rid].secret;
    }
    forall c | c in w.clients && c != cid && !w.clients[c].call.Returned?
      ensures w.clients[c].secret != w.clients[cid].secret
    {
      assert InProgress(w, Caller(c)) && HoldOf(w, Caller(c)).name == w.clients[c].secret;
    }
  }

  ghost predicate InOrder(keys: Keys, used: set<string>, now: Time) {
    KeysOk(keys, used, now) && AtMostOneActive(keys)
  }

  /** An operation's reads are what is stored; a record it is about to save has an unused id. */
  ghost predicate CallFresh(keys: Keys, used: set<string>, op: Op, call: Call) {
    && (forall key :: Holds(CallHold("", op, call), key) ==> Find(keys, key.keyId) == Some(key))
    && (call.CallSave? ==> call.made.keyId in used && IsNew(call.made))
  }

  lemma LookKeepsSafe(keys: Keys, used: set<string>, now: Time, op: Op, call: Call, throws: bool)
    requires InOrder(keys, used, now) && CallSafe(keys, now, op, call)
    requires call.CallGet? || call.CallGetActive?
    ensures CallSafe(keys, now, op, CallStep(keys, now, op, call, throws).next)
  {
    hide Find, GetActive, KeysOk;
    GetActiveIsNewest(keys);
    if GetActive(keys).Some? {
      assert forall k :: k in keys && k.status == Active ==> k.keyId == GetActive(keys).value.keyId;
    } else {
      NoActiveIds(keys);
    }
  }

  lemma NoActiveIds(keys: Keys)
    requires !HasActive(keys)
    ensures ActiveIds(keys) == {}
  {
  }

  lemma WriteKeepsSafe(keys: Keys, used: set<string>, now: Time, op: Op, call: Call, throws: bool)
    requires InOrder(keys, used, now) && CallSafe(keys, now, op, call) && CallFits(op, call)
    requires CallFresh(keys, used, op, call) && (call.CallSave? || call.CallExpire? || call.CallUpdate?)
    requires HoldOk(CallHold("", op, call))
    ensures var c := CallStep(keys, now, op, call, throws);
      var keys' := AfterAccess(keys, c.access);
      InOrder(keys', used, now) && CallSafe(keys', now, op, c.next)
  {
    hide Find, GetActive, Put, ActiveIds, AtMostOneActive, Distinct, Rewrite;
    var c := CallStep(keys, now, op, call, throws);
    if call.CallUpdate? {
      assert Holds(CallHold("", op, call), call.key) && call.key in keys;
      RewriteRewrites(op, call.key, now);
      ActiveMakers(op, call.key, now);
    } else if call.CallExpire? {
      assert Holds(CallHold("", op, call), call.active) && call.active in keys;
    }
    if c.access.Wrote? {
      PutInOrder(keys, used, now, c.access.key);
    }
  }

  lemma ActiveMakers(op: Op, key: SecretKey, now: Time)
    requires CallFits(op, CallUpdate(key))
    ensures Rewrite(op, key, now).status == Active ==> op.Activate? || op.Reactivate?
  {
  }

  lemma ProceedKeeps(cfg: Config, w: World, cid: Cid, throws: bool)
    requires ActiveOk(cfg, w) && CanMove(w, Proceed(cid, throws))
    ensures var w' := Moved(cfg, w, Proceed(cid, throws)); Inv(cfg, w'.s, NO_CLAIMS) && ClientsSafe(w')
  {
    hide Inv, KeysOk, AtMostOneActive, CallSafe, CallStep, ActiveIds, AfterAccess, UnsavedOk, RecordsOk, ToldOf,
      CallFits, HoldOk, CallFresh;
    var m, c := Proceed(cid, throws), w.clients[cid];
    var w', keys := Moved(cfg, w, m), KeysOf(w.s, c.secret);
    AloneOnSecret(w, cid);
    QuietRecords(cfg, w.s, c.secret);
    CallIsFresh(w, cid);
    assert HoldOk(CallHold("", c.op, c.call)) by { HoldNameFree(w, cid); }
    CallKeeps(keys, w.s.usedIds, w.s.now, c.op, c.call, throws);
    RestWriteKeeps(cfg, w.s, w'.s, c.secret);
    forall d | d in w'.clients
      ensures CallSafe(KeysOf(w'.s, w'.clients[d].secret), w'.s.now, w'.clients[d].op, w'.clients[d].call)
    {
      if d != cid && w'.clients[d].secret == c.secret {
        ReturnedIsSafe(w'.clients[d].op, w'.clients[d].call, KeysOf(w'.s, c.secret), w'.s.now);
      }
    }
  }

  lemma ReturnedIsSafe(op: Op, call: Call, keys: Keys, now: Time)
    requires call.Returned?
    ensures CallSafe(keys, now, op, call)
  {
  }

  lemma HoldNameFree(w: World, cid: Cid)
    requires HoldsOk(w) && cid in w.clients
    ensures HoldOk(CallHold("", w.clients[cid].op, w.clients[cid].call))
  {
    HoldIsOk(w, Caller(cid));
  }

  lemma CallIsFresh(w: World, cid: Cid)
    requires OrderlyOk(w) && cid in w.clients
    ensures CallFresh(KeysOf(w.s, w.clients[cid].secret), w.s.usedIds, w.clients[cid].op, w.clients[cid].call)
  {
    hide Find, KeysOf, RecordsOk, OneByOne, ToldOf, Fits;
    assert FreshOf(w, Caller(cid));
    HoldIsOk(w, Caller(cid));
    var c := w.clients[cid];
    assert HoldOf(w, Caller(cid)) == CallHold(c.secret, c.op, c.call);
    forall key | Holds(CallHold("", c.op, c.call), key) ensures Find(KeysOf(w.s, c.secret), key.keyId) == Some(key) {
      assert Holds(HoldOf(w, Caller(cid)), key);
    }
  }

  lemma CallKeeps(keys: Keys, used: set<string>, now: Time, op: Op, call: Call, throws: bool)
    requires InOrder(keys, used, now) && CallSafe(keys, now, op, call) && CallFits(op, call)
    requires CallFresh(keys, used, op, call) && HoldOk(CallHold("", op, call)) && !call.Returned?
    ensures var c := CallStep(keys, now, op, call, throws);
      var keys' := AfterAccess(keys, c.access);
      InOrder(keys', used, now) && CallSafe(keys', now, op, c.next)
  {
    hide Find, GetActive, Put, ActiveIds, InOrder, CallSafe, CallFresh, HoldOk, CallFits;
    if call.CallGet? || call.CallGetActive? {
      LookKeepsSafe(keys, used, now, op, call, throws);
      assert !CallStep(keys, now, op, call, throws).access.Wrote?;
    } else {
      WriteKeepsSafe(keys, used, now, op, call, throws);
    }
  }

  lemma BeginKeeps(cfg: Config, w: World, cid: Cid, name: string, op: Op)
    requires ActiveOk(cfg, w) && CanMove(w, Begin(cid, name, op)) && Careful(w, Begin(cid, name, op)) && !Busy(w, name)
    ensures var w' := Moved(cfg, w, Begin(cid, name, op)); Inv(cfg, w'.s, NO_CLAIMS) && ClientsSafe(w')
  {
    hide Inv, OrderlyOk, KeysOk, AtMostOneActive, ActiveIds, Busy;
    var w' := Moved(cfg, w, Begin(cid, name, op));
    NotBusyIsQuiet(w, name);
    QuietRecords(cfg, w.s, name);
    InOrderMonotone(KeysOf(w.s, name), w.s.usedIds, w'.s.usedIds, w.s.now, w.s.now);
    RestWriteKeeps(cfg, w.s, w'.s, name);
  }

  lemma InOrderMonotone(keys: Keys, used: set<string>, used': set<string>, now: Time, now': Time)
    requires KeysOk(keys, used, now) && used <= used' && now <= now'
    ensures KeysOk(keys, used', now')
  {
  }

  lemma NotBusyIsQuiet(w: World, name: string)
    requires !Busy(w, name)
    ensures Quiet(w.s, name)
  {
    forall rid | InFlight(w.s, rid) ensures w.s.rots[rid].secret != name {
      assert InProgress(w, Rotor(rid)) && HoldOf(w, Rotor(rid)).name == w.s.rots[rid].secret;
    }
  }

  lemma RotateKeeps(cfg: Config, w: World, l: Label)
    requires ActiveOk(cfg, w) && CanMove(w, Rotate(l)) && Careful(w, Rotate(l)) && MoveTouches(cfg, w, Rotate(l))
    ensures var w' := Moved(cfg, w, Rotate(l)); Inv(cfg, w'.s, NO_CLAIMS) && ClientsSafe(w')
  {
    hide Inv, WorldOk, FreshOf, GoodStep, ActiveIds, AccessOf, Apply, Passes, Fits, HoldOf;
    var w' := Moved(cfg, w, Rotate(l));
    StepKeeps(cfg, w.s, l, NO_CLAIMS);
    assert w'.clients == w.clients;
    assert w.s.now <= w'.s.now by { ClockOnlyGrows(cfg, w.s, l); }
    forall cid | cid in w.clients
      ensures var c := w.clients[cid]; CallSafe(KeysOf(w'.s, c.secret), w'.s.now, c.op, c.call)
    {
      if !w.clients[cid].call.Returned? {
        AloneOnSecret(w, cid);
        OthersKeysStay(cfg, w, l, w.clients[cid].secret);
      }
    }
  }

  lemma ClockOnlyGrows(cfg: Config, s: State, l: Label)
    requires Enabled(s, l)
    ensures s.now <= Apply(cfg, s, l).now
  {
    hide StepLocal, EntriesAfter;
  }

  /** A rotation's step leaves the records of a secret it is not of. */
  lemma OthersKeysStay(cfg: Config, w: World, l: Label, name: string)
    requires Quiet(w.s, name) && Enabled(w.s, l)
    ensures KeysOf(Apply(cfg, w.s, l), name) == KeysOf(w.s, name)
  {
    hide StepLocal, EntriesAfter;
    if l.Advance? {
      assert InFlight(w.s, l.rid);
    }
  }

  lemma CarefulKeeps(cfg: Config, w: World, m: Move)
    requires ActiveOk(cfg, w) && CanMove(w, m) && Waits(w, m) && Careful(w, m)
    ensures ActiveOk(cfg, Moved(cfg, w, m))
  {
    hide Inv, OrderlyOk, ClientsSafe, Careful, Moved, MoveTouches, FinalStep;
    OrderlyStepKeeps(cfg, w, m);
    match m
    case Rotate(l) => RotateKeeps(cfg, w, l);
    case Begin(cid, name, op) => BeginKeeps(cfg, w, cid, name, op);
    case Proceed(cid, throws) => ProceedKeeps(cfg, w, cid, throws);
  }

  /**
   * No secret ever has two active keys in any run of operations and rotations that take turns on each secret,
   * unless one of the rotation failures of `SingleActiveKey` occurs or a key is reactivated beside another.
   */
  lemma {:induction false} SingleActiveKeyAmongOperations(cfg: Config, w: World, ms: seq<Move>, name: string)
    requires ActiveOk(cfg, w) && Course(cfg, w, ms) && Orderly(cfg, w, ms) && CarefulCourse(cfg, w, ms)
    ensures AtMostOneActive(KeysOf(Later(cfg, w, ms).s, name)) && ActiveOk(cfg, Later(cfg, w, ms))
    decreases |ms|
  {
    hide ActiveOk, Waits, Careful, CanMove, Moved, AtMostOneActive;
    if ms == [] {
      ActiveMeansOne(cfg, w, name);
    } else {
      CarefulKeeps(cfg, w, ms[0]);
      SingleActiveKeyAmongOperations(cfg, Moved(cfg, w, ms[0]), ms[1..], name);
    }
  }

  lemma ActiveMeansOne(cfg: Config, w: World, name: string)
    requires ActiveOk(cfg, w)
    ensures AtMostOneActive(KeysOf(w.s, name))
  {
    hide Inv, OrderlyOk, ClientsSafe, AtMostOneActive;
    Results.InvMeansOneActive(cfg, w.s, name, NO_CLAIMS);
  }

  lemma RestIsActiveOk(cfg: Config, w: World)
    requires AtRest(w) && Initial(w.s, NO_CLAIMS)
    ensures ActiveOk(cfg, w)
  {
    hide QuietOk;
    RestIsOrderly(w);
    Results.InitialInv(cfg, w.s, NO_CLAIMS);
  }

  /** So from any records with at most one active key each, before any operation or rotation. */
  lemma OneActiveFromRest(cfg: Config, w: World, ms: seq<Move>, name: string)
    requires AtRest(w) && Initial(w.s, NO_CLAIMS)
    requires Course(cfg, w, ms) && Orderly(cfg, w, ms) && CarefulCourse(cfg, w, ms)
    ensures AtMostOneActive(KeysOf(Later(cfg, w, ms).s, name))
  {
    hide ActiveOk, AtMostOneActive, Later, Course, Orderly, CarefulCourse;
    RestIsActiveOk(cfg, w);
    SingleActiveKeyAmongOperations(cfg, w, ms, name);
  }
}
