/** The overlaps that break the results about operations, as runs. */
module LifecycleLimits {
  import opened Wrappers
  import opened KeyModel
  import opened KeyLifecycles
  import opened RotationMachine
  import opened RotationInvariant
  import opened RotationTheorems
  import opened LifecycleMachine
  import opened LifecycleInvariant
  import opened LifecycleRuns
  import opened LifecycleActive
  import Overlaps = RotationOverlaps
  import Results = RotationResults
  import RotationLimits
  import WorkflowSteps

  // ---- Runs, move by move ---------------------------------------------------------------------

  ghost predicate Leads(cfg: Config, w: World, ms: seq<Move>, w': World) {
    Course(cfg, w, ms) && Later(cfg, w, ms) == w'
  }

  lemma {:induction false} LeadsOn(cfg: Config, w: World, ms: seq<Move>, w1: World, m: Move)
    requires Leads(cfg, w, ms, w1) && CanMove(w1, m)
    ensures Leads(cfg, w, ms + [m], Moved(cfg, w1, m))
    decreases |ms|
  {
    hide CanMove, Moved;
    if ms == [] {
      assert ms + [m] == [m] && [m][1..] == [];
      assert Later(cfg, w, []) == w && Course(cfg, Moved(cfg, w, m), []);
      assert Course(cfg, w, [m]) && Later(cfg, w, [m]) == Moved(cfg, w, m);
    } else {
      assert (ms + [m])[1..] == ms[1..] + [m] && (ms + [m])[0] == ms[0];
      LeadsOn(cfg, Moved(cfg, w, ms[0]), ms[1..], w1, m);
    }
  }

  // ---- Terminal states ------------------------------------------------------------------------

  /** The state of the actor that is to move. */
  ghost predicate Waiting(w: World, w': World, m: Move) {
    match m
    case Rotate(Advance(rid, _)) => rid in w.s.rots && rid in w'.s.rots && w'.s.rots[rid] == w.s.rots[rid]
    case Proceed(cid, _) => cid in w.clients && cid in w'.clients && w'.clients[cid] == w.clients[cid]
    case _ => false
  }

  lemma CallWriteStays(keys: Keys, now: Time, keys': Keys, now': Time, op: Op, call: Call, throws: bool)
    requires CallStep(keys, now, op, call, throws).access.Wrote? && !call.CallSave? && CallFits(op, call)
    requires HoldOk(CallHold("", op, call))
    requires Find(keys', CallStep(keys, now, op, call, throws).access.key.keyId).Some?
    ensures var x, x' := CallStep(keys, now, op, call, throws).access, CallStep(keys', now', op, call, throws).access;
      && x'.Wrote? && x'.key.keyId == x.key.keyId
      && (x'.key.status == Revoked ==> x'.key.revokedAt == Some(now'))
  {
    hide Find, GetActive;
  }

  lemma RotationWriteStays(now: Time, keys: Keys, now': Time, keys': Keys, r: Rotation, o: Outcome)
    requires WriteOf(now, keys, r, o).Some? && !r.pc.SaveKey? && Find(keys', WriteOf(now, keys, r, o).value.keyId).Some?
    ensures var x, x' := WriteOf(now, keys, r, o), WriteOf(now', keys', r, o);
      x'.Some? && x'.value.keyId == x.value.keyId && x'.value.status != Revoked
  {
    hide Find;
  }

  lemma WriteStays(w: World, w': World, m: Move)
    requires CanMove(w, m) && AccessOf(w, m).Wrote? && HoldOf(w, ActorOf(m)).unsaved.None? && Waiting(w, w', m)
    requires Fits(w) && HoldsOk(w)
    requires Find(KeysOf(w'.s, NameOf(w, m)), AccessOf(w, m).key.keyId).Some?
    ensures CanMove(w', m) && NameOf(w', m) == NameOf(w, m) && HoldOf(w', ActorOf(m)) == HoldOf(w, ActorOf(m))
    ensures var x, x' := AccessOf(w, m), AccessOf(w', m);
      && x'.Wrote? && x'.key.keyId == x.key.keyId
      && (x'.key.status == Revoked ==> x'.key.revokedAt == Some(w'.s.now))
  {
    hide CallStep, WriteOf, ReadOf, Find, KeysOf;
    HoldIsOk(w, ActorOf(m));
    if m.Proceed? {
      var c := w.clients[m.cid];
      CallWriteStays(KeysOf(w.s, c.secret), w.s.now, KeysOf(w'.s, c.secret), w'.s.now, c.op, c.call, m.throws);
    } else {
      var r := w.s.rots[m.l.rid];
      NotSaving(w, m);
      RotationWriteStays(w.s.now, KeysOf(w.s, r.secret), w'.s.now, KeysOf(w'.s, r.secret), r, m.l.o);
    }
  }

  lemma NotSaving(w: World, m: Move)
    requires CanMove(w, m) && m.Rotate? && m.l.Advance? && AccessOf(w, m).Wrote? && HoldOf(w, ActorOf(m)).unsaved.None?
    ensures !w.s.rots[m.l.rid].pc.SaveKey? && !m.l.o.Made?
    ensures WriteOf(w.s.now, KeysOf(w.s, w.s.rots[m.l.rid].secret), w.s.rots[m.l.rid], m.l.o).Some?
  {
    hide Find, KeysOf;
  }

  /** The world once a caller has revoked the key, and a millisecond has passed. */
  ghost predicate RevokedMeanwhile(w: World, w': World, cid: Cid, name: string, key: SecretKey) {
    && w'.s.rots == w.s.rots && w'.s.entries == w.s.entries && w'.s.usedIds == w.s.usedIds && w'.s.now == w.s.now + 1
    && w'.clients == w.clients[cid := Client(name, Revoke(key.keyId, ""), Returned(None))]
    && Find(KeysOf(w'.s, name), key.keyId) == Some(RevokedBy(key, w.s.now, ""))
    && |w'.log| >= 2
    && w'.log[|w'.log| - 1].access == Nothing
    && w'.log[|w'.log| - 2] == Entered(Caller(cid), name, Wrote(RevokedBy(key, w.s.now, "")))
  }

  /** A caller revokes the key, and a millisecond passes. */
  function Revoking(cid: Cid, name: string, id: string): seq<Move> {
    [Begin(cid, name, Revoke(id, "")), Proceed(cid, false), Proceed(cid, false), Rotate(Tick(1))]
  }

  lemma RevokeLooks(cfg: Config, w: World, cid: Cid, name: string, key: SecretKey) returns (w': World)
    requires cid !in w.clients && Find(KeysOf(w.s, name), key.keyId) == Some(key) && key.status != Revoked
    ensures Leads(cfg, w, [Begin(cid, name, Revoke(key.keyId, "")), Proceed(cid, false)], w')
    ensures w'.s.rots == w.s.rots && w'.s.entries == w.s.entries && w'.s.usedIds == w.s.usedIds && w'.s.now == w.s.now
    ensures KeysOf(w'.s, name) == KeysOf(w.s, name)
    ensures w'.clients == w.clients[cid := Client(name, Revoke(key.keyId, ""), CallUpdate(key))]
  {
    hide Find, Leads;
    var begin, go := Begin(cid, name, Revoke(key.keyId, "")), Proceed(cid, false);
    var w1 := Moved(cfg, w, begin);
    w' := Moved(cfg, w1, go);
    LeadsNowhere(cfg, w);
    LeadsOn(cfg, w, [], w, begin);
    LeadsOn(cfg, w, [] + [begin], w1, go);
    assert [] + [begin] + [go] == [begin, go];
  }

  lemma LeadsNowhere(cfg: Config, w: World)
    ensures Leads(cfg, w, [], w)
  {
  }

  lemma RevokeRuns(cfg: Config, w: World, cid: Cid, name: string, key: SecretKey) returns (w': World)
    requires cid !in w.clients && Find(KeysOf(w.s, name), key.keyId) == Some(key) && key.status != Revoked
    ensures Leads(cfg, w, Revoking(cid, name, key.keyId), w') && RevokedMeanwhile(w, w', cid, name, key)
  {
    hide Find, Put, RevokedBy, Leads;
    var w2 := RevokeLooks(cfg, w, cid, name, key);
    var looks := [Begin(cid, name, Revoke(key.keyId, "")), Proceed(cid, false)];
    var w3 := Moved(cfg, w2, Proceed(cid, false));
    RevokedKeepsId(key, w.s.now);
    FindPut(KeysOf(w.s, name), RevokedBy(key, w.s.now, ""), key.keyId);
    w' := Moved(cfg, w3, Rotate(Tick(1)));
    LeadsOn(cfg, w, looks, w2, Proceed(cid, false));
    LeadsOn(cfg, w, looks + [Proceed(cid, false)], w3, Rotate(Tick(1)));
    assert looks + [Proceed(cid, false)] + [Rotate(Tick(1))] == Revoking(cid, name, key.keyId);
  }

  lemma RevokedKeepsId(key: SecretKey, now: Time)
    ensures var k := RevokedBy(key, now, ""); k.keyId == key.keyId && k.status == Revoked && k.revokedAt == Some(now)
  {
  }

  lemma StillFits(w: World, w': World, cid: Cid, name: string, key: SecretKey)
    requires RevokedMeanwhile(w, w', cid, name, key) && Fits(w) && HoldsOk(w) && cid !in w.clients
    requires key.status != Revoked
    ensures Fits(w') && HoldsOk(w')
  {
    hide RotationFits, HoldOk, Find, KeysOf, RotationHold, RevokedBy;
    NothingHeld(name, Revoke(key.keyId, ""), None);
    forall a ensures HoldOk(HoldOf(w', a)) {
      HoldIsOk(w, a);
    }
  }

  lemma NothingHeld(name: string, op: Op, error: Option<string>)
    ensures HoldOk(CallHold(name, op, Returned(error)))
  {
  }

  lemma EndedMeanwhile(w: World, w': World, cid: Cid, name: string, key: SecretKey, a: Actor)
    requires RevokedMeanwhile(w, w', cid, name, key)
    ensures EndedSince(w'.log, a, name, key.keyId) == Some(RevokedBy(key, w.s.now, ""))
  {
    hide Find;
    var log := w'.log;
    var n := |log|;
    assert log[..n - 1][n - 2] == log[n - 2];
    assert EndedSince(log, a, name, key.keyId) == EndedSince(log[..n - 1], a, name, key.keyId);
  }

  /** The overtaken write brings the revoked key back. */
  lemma WriteRevives(cfg: Config, w: World, w': World, m: Move, cid: Cid, key: SecretKey)
    requires WorldOk(w) && CanMove(w, m) && cid !in w.clients && key.status != Revoked
    requires AccessOf(w, m).Wrote? && AccessOf(w, m).key.keyId == key.keyId && HoldOf(w, ActorOf(m)).unsaved.None?
    requires RevokedMeanwhile(w, w', cid, NameOf(w, m), key)
    ensures CanMove(w', m) && Overtaken(w', m) && !FinalStep(w'.s, Moved(cfg, w', m).s)
    ensures var name := NameOf(w, m);
      && AccessOf(w', m).Wrote? && AccessOf(w', m).key != RevokedBy(key, w.s.now, "")
      && Find(KeysOf(Moved(cfg, w', m).s, name), key.keyId) == Some(AccessOf(w', m).key)
  {
    hide Find, HoldOf, ActorOf, NameOf, AccessOf, Moved, KeysOf, CanMove, UnsavedOk, RecordsOk, ToldOf, RevokedBy,
      FinalStep, Fits, HoldsOk, Touched;
    var name, rec := NameOf(w, m), RevokedBy(key, w.s.now, "");
    RevokedKeepsId(key, w.s.now);
    StillFits(w, w', cid, name, key);
    WriterWaits(w, w', m, cid, name, key);
    WriteStays(w, w', m);
    EndedMeanwhile(w, w', cid, name, key, ActorOf(m));
    HoldIsOk(w', ActorOf(m));
    EachMoveTouches(cfg, w', m);
    FindAfter(w', Moved(cfg, w', m), ActorOf(m), name, AccessOf(w', m), name, key.keyId);
    NotFinal(w'.s, Moved(cfg, w', m).s, name, key.keyId);
  }

  lemma WriterWaits(w: World, w': World, m: Move, cid: Cid, name: string, key: SecretKey)
    requires CanMove(w, m) && AccessOf(w, m).Wrote? && cid !in w.clients && RevokedMeanwhile(w, w', cid, name, key)
    ensures Waiting(w, w', m)
  {
    hide Find, KeysOf, CallStep, WriteOf, ReadOf;
  }

  lemma NotFinal(s: State, s': State, name: string, id: string)
    requires Find(KeysOf(s, name), id).Some? && Find(KeysOf(s, name), id).value.status == Revoked
    requires Find(KeysOf(s', name), id) != Find(KeysOf(s, name), id)
    ensures !FinalStep(s, s')
  {
  }

  /**
   * Revoke between get and update.  In every reachable state in which a call, of an operation or of a rotation, is
   * about to store a record made from an earlier read, and the key is not revoked: once a caller has revoked the
   * key, that same call still goes through and stores another record over the revoked one.
   */
  lemma RevokeInBetweenBreaks(cfg: Config, w: World, m: Move, cid: Cid, key: SecretKey)
    requires WorldOk(w) && CanMove(w, m) && cid !in w.clients
    requires AccessOf(w, m).Wrote? && HoldOf(w, ActorOf(m)).unsaved.None?
    requires Find(KeysOf(w.s, NameOf(w, m)), AccessOf(w, m).key.keyId) == Some(key) && key.status != Revoked
    ensures var name := NameOf(w, m);
      && Course(cfg, w, Revoking(cid, name, key.keyId))
      && var w' := Later(cfg, w, Revoking(cid, name, key.keyId));
        && Find(KeysOf(w'.s, name), key.keyId) == Some(RevokedBy(key, w.s.now, ""))
        && CanMove(w', m) && Overtaken(w', m) && !FinalStep(w'.s, Moved(cfg, w', m).s)
        && Find(KeysOf(Moved(cfg, w', m).s, name), key.keyId) == Some(AccessOf(w', m).key)
        && AccessOf(w', m).key != RevokedBy(key, w.s.now, "")
  {
    hide Put, Find, ActorOf, NameOf, AccessOf, Moved, HoldOf, KeysOf, WorldOk, FinalStep, CanMove, RevokedBy, Overtaken;
    var w' := RevokeRuns(cfg, w, cid, NameOf(w, m), key);
    WriteRevives(cfg, w, w', m, cid, key);
  }

  // ---- Two active keys ------------------------------------------------------------------------

  /** The caller is activating the key and about to make this call. */
  ghost predicate ActivatesAt(w: World, cid: Cid, name: string, id: string, call: Call) {
    && cid in w.clients && w.clients[cid].secret == name && w.clients[cid].call == call
    && w.clients[cid].op.Activate? && w.clients[cid].op.id == id
  }

  /** One caller's call goes through and the other waits. */
  lemma Goes(cfg: Config, w0: World, ms: seq<Move>, w: World, cid: Cid, name: string, id: string, call: Call,
             next: Call, keys: Keys, other: Cid, id2: string, call2: Call) returns (w': World)
    requires Leads(cfg, w0, ms, w)
    requires ActivatesAt(w, cid, name, id, call) && ActivatesAt(w, other, name, id2, call2) && other != cid
    requires !call.Returned?
    requires var c := CallStep(KeysOf(w.s, name), w.s.now, w.clients[cid].op, call, false);
      c.next == next && AfterAccess(KeysOf(w.s, name), c.access) == keys
    ensures Leads(cfg, w0, ms + [Proceed(cid, false)], w')
    ensures KeysOf(w'.s, name) == keys && w'.s.now == w.s.now
    ensures w'.clients == w.clients[cid := w.clients[cid].(call := next)]
    ensures ActivatesAt(w', cid, name, id, next) && ActivatesAt(w', other, name, id2, call2)
  {
    hide CallStep, AfterAccess, Leads;
    w' := Moved(cfg, w, Proceed(cid, false));
    LeadsOn(cfg, w0, ms, w, Proceed(cid, false));
  }

  /** The next call of each of two callers. */
  function Both(c1: Cid, c2: Cid): seq<Move> {
    [Proceed(c1, false), Proceed(c2, false)]
  }

  ghost predicate BothSucceed(w: World, name: string, c1: Cid, c2: Cid) {
    && c1 in w.clients && c2 in w.clients
    && w.clients[c1].call == Returned(None) && w.clients[c2].call == Returned(None)
    && !AtMostOneActive(KeysOf(w.s, name))
  }

  lemma UpdatesLeaveTwo(cfg: Config, w0: World, ms: seq<Move>, w: World, name: string, c1: Cid, k1: SecretKey,
                        c2: Cid, k2: SecretKey)
    returns (w': World)
    requires Leads(cfg, w0, ms, w) && k1.keyId != k2.keyId
    requires ActivatesAt(w, c1, name, k1.keyId, CallUpdate(k1)) && ActivatesAt(w, c2, name, k2.keyId, CallUpdate(k2))
    requires Find(KeysOf(w.s, name), k1.keyId).Some? && Find(KeysOf(w.s, name), k2.keyId).Some?
    ensures Leads(cfg, w0, ms + Both(c1, c2), w') && BothSucceed(w', name, c1, c2)
  {
    hide Find, Put, KeysOf, AtMostOneActive, Leads;
    var keys := KeysOf(w.s, name);
    var a1, a2 := Activated(k1, w.s.now), Activated(k2, w.s.now);
    FindPut(keys, a1, k2.keyId);
    FindPut(keys, a1, k1.keyId);
    FindPut(Put(keys, a1), a2, k1.keyId);
    FindPut(Put(keys, a1), a2, k2.keyId);
    w' := Goes(cfg, w0, ms, w, c1, name, k1.keyId, CallUpdate(k1), Returned(None), Put(keys, a1),
               c2, k2.keyId, CallUpdate(k2));
    w' := Goes(cfg, w0, ms + [Proceed(c1, false)], w', c2, name, k2.keyId, CallUpdate(k2), Returned(None),
               Put(Put(keys, a1), a2), c1, k1.keyId, Returned(None));
    assert ms + [Proceed(c1, false)] + [Proceed(c2, false)] == ms + Both(c1, c2);
    Results.TwoMembersActive(Put(Put(keys, a1), a2), a1, a2);
  }

  lemma Expires(cfg: Config, w0: World, ms: seq<Move>, w: World, name: string, c1: Cid, k1: SecretKey,
                c2: Cid, k2: SecretKey, a: SecretKey)
    returns (w': World)
    requires Leads(cfg, w0, ms, w) && c1 != c2
    requires ActivatesAt(w, c1, name, k1.keyId, CallExpire(k1, a))
    requires ActivatesAt(w, c2, name, k2.keyId, CallExpire(k2, a))
    requires Find(KeysOf(w.s, name), a.keyId).Some?
    ensures Leads(cfg, w0, ms + Both(c1, c2), w')
    ensures ActivatesAt(w', c1, name, k1.keyId, CallUpdate(k1)) && ActivatesAt(w', c2, name, k2.keyId, CallUpdate(k2))
    ensures forall id :: Find(KeysOf(w.s, name), id).Some? ==> Find(KeysOf(w'.s, name), id).Some?
  {
    hide Find, Put, KeysOf, Leads;
    var keys := KeysOf(w.s, name);
    var e1 := ExpiredBy(a, w.s.now, w.clients[c1].op.overlapMs);
    var e2 := ExpiredBy(a, w.s.now, w.clients[c2].op.overlapMs);
    forall id ensures Find(keys, id).Some? ==> Find(Put(keys, e1), id).Some? && Find(Put(Put(keys, e1), e2), id).Some? {
      FindPut(keys, e1, id);
      FindPut(Put(keys, e1), e2, id);
    }
    w' := Goes(cfg, w0, ms, w, c1, name, k1.keyId, CallExpire(k1, a), CallUpdate(k1), Put(keys, e1),
               c2, k2.keyId, CallExpire(k2, a));
    w' := Goes(cfg, w0, ms + [Proceed(c1, false)], w', c2, name, k2.keyId, CallExpire(k2, a), CallUpdate(k2),
               Put(Put(keys, e1), e2), c1, k1.keyId, CallUpdate(k1));
    assert ms + [Proceed(c1, false)] + [Proceed(c2, false)] == ms + Both(c1, c2);
  }

  lemma Looks(cfg: Config, w0: World, ms: seq<Move>, w: World, name: string, c1: Cid, k1: SecretKey,
              c2: Cid, k2: SecretKey)
    returns (w': World)
    requires Leads(cfg, w0, ms, w) && c1 != c2
    requires ActivatesAt(w, c1, name, k1.keyId, CallGetActive(k1))
    requires ActivatesAt(w, c2, name, k2.keyId, CallGetActive(k2))
    ensures Leads(cfg, w0, ms + Both(c1, c2), w') && KeysOf(w'.s, name) == KeysOf(w.s, name)
    ensures var active := GetActive(KeysOf(w.s, name));
      && ActivatesAt(w', c1, name, k1.keyId, if active.Some? then CallExpire(k1, active.value) else CallUpdate(k1))
      && ActivatesAt(w', c2, name, k2.keyId, if active.Some? then CallExpire(k2, active.value) else CallUpdate(k2))
  {
    hide KeysOf, GetActive, Leads;
    var keys := KeysOf(w.s, name);
    var active := GetActive(keys);
    var n1 := if active.Some? then CallExpire(k1, active.value) else CallUpdate(k1);
    var n2 := if active.Some? then CallExpire(k2, active.value) else CallUpdate(k2);
    w' := Goes(cfg, w0, ms, w, c1, name, k1.keyId, CallGetActive(k1), n1, keys, c2, k2.keyId, CallGetActive(k2));
    w' := Goes(cfg, w0, ms + [Proceed(c1, false)], w', c2, name, k2.keyId, CallGetActive(k2), n2, keys,
               c1, k1.keyId, n1);
    assert ms + [Proceed(c1, false)] + [Proceed(c2, false)] == ms + Both(c1, c2);
  }

  lemma BothRead(cfg: Config, w: World, name: string, c1: Cid, k1: SecretKey, c2: Cid, k2: SecretKey, overlapMs: int)
    returns (w': World)
    requires c1 != c2 && c1 !in w.clients && c2 !in w.clients
    requires Find(KeysOf(w.s, name), k1.keyId) == Some(k1) && k1.status == Pending
    requires Find(KeysOf(w.s, name), k2.keyId) == Some(k2) && k2.status == Pending
    ensures Leads(cfg, w, BothBegin(name, c1, k1.keyId, c2, k2.keyId, overlapMs) + Both(c1, c2), w')
    ensures KeysOf(w'.s, name) == KeysOf(w.s, name)
    ensures ActivatesAt(w', c1, name, k1.keyId, CallGetActive(k1))
    ensures ActivatesAt(w', c2, name, k2.keyId, CallGetActive(k2))
  {
    hide Find, Put, Leads;
    var keys := KeysOf(w.s, name);
    var begins := BothBegin(name, c1, k1.keyId, c2, k2.keyId, overlapMs);
    var w1 := Moved(cfg, w, begins[0]);
    w' := Moved(cfg, w1, begins[1]);
    LeadsNowhere(cfg, w);
    LeadsOn(cfg, w, [], w, begins[0]);
    LeadsOn(cfg, w, [] + [begins[0]], w1, begins[1]);
    assert [] + [begins[0]] + [begins[1]] == begins;
    hide KeysOf;
    w' := Goes(cfg, w, begins, w', c1, name, k1.keyId, CallGet, CallGetActive(k1), keys, c2, k2.keyId, CallGet);
    w' := Goes(cfg, w, begins + [Proceed(c1, false)], w', c2, name, k2.keyId, CallGet, CallGetActive(k2), keys,
               c1, k1.keyId, CallGetActive(k1));
    assert begins + [Proceed(c1, false)] + [Proceed(c2, false)] == begins + Both(c1, c2);
  }

  function BothBegin(name: string, c1: Cid, id1: string, c2: Cid, id2: string, overlapMs: int): seq<Move> {
    [Begin(c1, name, Activate(id1, overlapMs)), Begin(c2, name, Activate(id2, overlapMs))]
  }

  /** Two callers activate two keys in step: each makes its call before either makes its next. */
  function ActivatingTogether(name: string, c1: Cid, id1: string, c2: Cid, id2: string, overlapMs: int,
                              hasActive: bool): seq<Move>
  {
    BothBegin(name, c1, id1, c2, id2, overlapMs) + Both(c1, c2) + Both(c1, c2)
    + (if hasActive then Both(c1, c2) else []) + Both(c1, c2)
  }

  /**
   * Two callers that activate different pending keys of a secret in step both succeed and leave two active keys,
   * whether or not there is an active key to replace.
   */
  lemma OverlappingActivatesLeaveTwo(cfg: Config, w: World, name: string, c1: Cid, k1: SecretKey, c2: Cid,
                                     k2: SecretKey, overlapMs: int)
    requires c1 != c2 && c1 !in w.clients && c2 !in w.clients && k1.keyId != k2.keyId
    requires Find(KeysOf(w.s, name), k1.keyId) == Some(k1) && k1.status == Pending
    requires Find(KeysOf(w.s, name), k2.keyId) == Some(k2) && k2.status == Pending
    ensures var hasActive := GetActive(KeysOf(w.s, name)).Some?;
      var ms := ActivatingTogether(name, c1, k1.keyId, c2, k2.keyId, overlapMs, hasActive);
      Course(cfg, w, ms) && BothSucceed(Later(cfg, w, ms), name, c1, c2)
  {
    hide Find, Put, KeysOf, GetActive, BothSucceed;
    var active := GetActive(KeysOf(w.s, name));
    GetActiveIsNewest(KeysOf(w.s, name));
    var ms := BothBegin(name, c1, k1.keyId, c2, k2.keyId, overlapMs) + Both(c1, c2);
    var w1 := BothRead(cfg, w, name, c1, k1, c2, k2, overlapMs);
    w1 := Looks(cfg, w, ms, w1, name, c1, k1, c2, k2);
    ms := ms + Both(c1, c2);
    if active.Some? {
      w1 := Expires(cfg, w, ms, w1, name, c1, k1, c2, k2, active.value);
      ms := ms + Both(c1, c2);
    } else {
      assert ms + [] == ms;
    }
    w1 := UpdatesLeaveTwo(cfg, w, ms, w1, name, c1, k1, c2, k2);
  }

  // ---- One active key among operations, exactly -----------------------------------------------

  /** A course that takes turns and is careful leads to two active keys. */
  ghost predicate CanLeaveTwo(cfg: Config, w: World, name: string) {
    exists ms ::
      && Course(cfg, w, ms) && Orderly(cfg, w, ms) && CarefulCourse(cfg, w, ms)
      && !AtMostOneActive(KeysOf(Later(cfg, w, ms).s, name))
  }

  lemma TwoNow(cfg: Config, w: World, name: string)
    requires !AtMostOneActive(KeysOf(w.s, name))
    ensures CanLeaveTwo(cfg, w, name)
  {
    hide AtMostOneActive, KeysOf;
    assert Course(cfg, w, []) && Orderly(cfg, w, []) && CarefulCourse(cfg, w, []) && Later(cfg, w, []) == w;
  }

  lemma TwoLater(cfg: Config, w: World, m: Move, name: string)
    requires CanMove(w, m) && Waits(w, m) && Careful(w, m) && CanLeaveTwo(cfg, Moved(cfg, w, m), name)
    ensures CanLeaveTwo(cfg, w, name)
  {
    hide CanMove, AtMostOneActive, Moved, KeysOf, Waits, Careful;
    var w' := Moved(cfg, w, m);
    var ms :| Course(cfg, w', ms) && Orderly(cfg, w', ms) && CarefulCourse(cfg, w', ms)
      && !AtMostOneActive(KeysOf(Later(cfg, w', ms).s, name));
    assert ([m] + ms)[1..] == ms && ([m] + ms)[0] == m;
    assert Course(cfg, w, [m] + ms) && Orderly(cfg, w, [m] + ms) && CarefulCourse(cfg, w, [m] + ms)
      && !AtMostOneActive(KeysOf(Later(cfg, w, [m] + ms).s, name));
  }

  lemma CallGoesOn(cfg: Config, w: World, m: Move, name: string)
    requires CanMove(w, m) && (m.Proceed? || (m.Rotate? && m.l.Advance? && !m.l.o.Throw?))
    ensures CanLeaveTwo(cfg, Moved(cfg, w, m), name) ==> CanLeaveTwo(cfg, w, name)
  {
    hide CanLeaveTwo, Moved, StepOk;
    if m.Rotate? {
      WorkflowSteps.ReturnIsGood(w.s, m.l.rid, m.l.o, NO_CLAIMS);
    }
    if CanLeaveTwo(cfg, Moved(cfg, w, m), name) {
      TwoLater(cfg, w, m, name);
    }
  }

  /** A key brought back beside another: the caller's two calls leave both active. */
  lemma ReactivateBesideLeavesTwo(cfg: Config, w: World, cid: Cid, name: string, id: string)
    requires RecordsOk(w.s) && cid !in w.clients && !ComesBackAlone(KeysOf(w.s, name), id)
    ensures var ms := [Begin(cid, name, Reactivate(id)), Proceed(cid, false), Proceed(cid, false)];
      Course(cfg, w, ms) && !AtMostOneActive(KeysOf(Later(cfg, w, ms).s, name))
    ensures CanLeaveTwo(cfg, Moved(cfg, w, Begin(cid, name, Reactivate(id))), name)
  {
    hide Find, Put, AtMostOneActive, CanLeaveTwo, Leads, Distinct;
    var keys, begin, go := KeysOf(w.s, name), Begin(cid, name, Reactivate(id)), Proceed(cid, false);
    var key := Live(keys, Some(id)).value;
    var other :| other in keys && other.status == Active && other.keyId != id;
    var back := Reactivated(key, w.s.now);
    FindIsUnique(keys, other);
    FindPut(keys, back, back.keyId);
    FindPut(keys, back, other.keyId);
    Results.TwoMembersActive(Put(keys, back), back, other);
    var w1 := Moved(cfg, w, begin);
    var w2 := Moved(cfg, w1, go);
    var w3 := Moved(cfg, w2, go);
    LeadsNowhere(cfg, w);
    LeadsOn(cfg, w, [], w, begin);
    LeadsOn(cfg, w, [] + [begin], w1, go);
    LeadsOn(cfg, w, [] + [begin] + [go], w2, go);
    assert [] + [begin] + [go] + [go] == [begin, go, go];
    assert Leads(cfg, w, [begin, go, go], w3);
    LeadsMeans(cfg, w, [begin, go, go], w3);
    TwoNow(cfg, w3, name);
    CallGoesOn(cfg, w2, go, name);
    CallGoesOn(cfg, w1, go, name);
  }

  lemma LeadsMeans(cfg: Config, w: World, ms: seq<Move>, w': World)
    requires Leads(cfg, w, ms, w')
    ensures Course(cfg, w, ms) && Later(cfg, w, ms) == w'
  {
  }

  lemma FailedMarkLeavesTwo(cfg: Config, w: World, rid: Rid, o: Outcome)
    requires Inv(cfg, w.s, NO_CLAIMS) && CanMove(w, Rotate(Advance(rid, o))) && !Careful(w, Rotate(Advance(rid, o)))
    ensures CanLeaveTwo(cfg, Moved(cfg, w, Rotate(Advance(rid, o))), w.s.rots[rid].secret)
  {
    hide Inv, Apply, CanLeaveTwo, AtMostOneActive, AccessOf, StepOk;
    var next, name := Rotate(Advance(rid, Ok)), w.s.rots[rid].secret;
    assert InFlight(w.s, rid);
    RotationLimits.TwoCallsLater(cfg, w.s, rid, o, NO_CLAIMS);
    var w1 := Moved(cfg, w, Rotate(Advance(rid, o)));
    var w2 := Moved(cfg, w1, next);
    TwoNow(cfg, Moved(cfg, w2, next), name);
    CallGoesOn(cfg, w2, next, name);
    CallGoesOn(cfg, w1, next, name);
  }

  lemma StartsAreCareful(w: World, l: Label)
    requires Overlaps.MarksAreInFlight(w.s) && CanMove(w, Rotate(l)) && Waits(w, Rotate(l)) && !l.Advance?
    ensures Careful(w, Rotate(l))
  {
    if l.Start? {
      NotBusyIsQuiet(w, l.secret);
    }
  }

  /**
   * The conditions of the single active key among operations are exact: from every reachable state, a move that
   * waits its turn meets them if and only if no continuation that takes turns and meets them leads to two.
   */
  lemma CarefulIsExact(cfg: Config, w: World, m: Move)
    requires ActiveOk(cfg, w) && Overlaps.MarksAreInFlight(w.s) && CanMove(w, m) && Waits(w, m)
    ensures Careful(w, m) <==> !CanLeaveTwo(cfg, Moved(cfg, w, m), NameOf(w, m))
  {
    hide Inv, ClientsSafe, CanLeaveTwo, Moved, Waits, OneByOne, FreshOf, AtMostOneActive, GoodStep, ActiveOk;
    if Careful(w, m) {
      CarefulKeeps(cfg, w, m);
      CarefulNeverLeavesTwo(cfg, Moved(cfg, w, m), NameOf(w, m));
    } else {
      RecordsAreOk(cfg, w);
      match m
      case Rotate(l) =>
        if l.Advance? {
          FailedMarkLeavesTwo(cfg, w, l.rid, l.o);
        } else {
          StartsAreCareful(w, l);
        }
      case Begin(cid, name, op) => ReactivateBesideLeavesTwo(cfg, w, cid, name, op.id);
      case Proceed(_, _) =>
    }
  }

  lemma RecordsAreOk(cfg: Config, w: World)
    requires ActiveOk(cfg, w)
    ensures RecordsOk(w.s) && Inv(cfg, w.s, NO_CLAIMS)
  {
  }

  lemma CarefulNeverLeavesTwo(cfg: Config, w: World, name: string)
    requires ActiveOk(cfg, w)
    ensures !CanLeaveTwo(cfg, w, name)
  {
    hide ActiveOk, Course, Orderly, CarefulCourse, Later, AtMostOneActive;
    forall ms | Course(cfg, w, ms) && Orderly(cfg, w, ms) && CarefulCourse(cfg, w, ms)
      ensures AtMostOneActive(KeysOf(Later(cfg, w, ms).s, name))
    {
      SingleActiveKeyAmongOperations(cfg, w, ms, name);
    }
  }
}
