/**
 * The workflow that carries out one rotation.  The program works on the real store, provider and rollback
 * entries, and its store, provider, generator and verifier may throw at every call; ghost fields keep the
 * machine in lockstep, so that every execution is one of the machine's runs and what is proved of those
 * holds of the program.
 */
module RotationWorkflows {
  import opened Wrappers
  import opened KeyModel
  import opened InMemoryKeyStores
  import opened RotationMachine
  import opened RotationInvariant
  import opened RotationTheorems
  import opened WorkflowSteps
  import Provider = StagedProvider
  import Lifecycle = KeyLifecycles
  import Rollback = RollbackManagers
  import Results = RotationResults

  /** Which store calls of a rotation throw. */
  datatype StoreFaults = StoreFaults(read: bool, save: bool, activate: Lifecycle.Faults, undo: Rollback.UndoFaults)

  /** How the provider and the verifier answer: None if the call succeeds, else the text of what it throws. */
  datatype Replies = Replies(begin: Option<string>, store: Option<string>, verify: Option<string>,
                             complete: Option<string>, cancel: Option<string>)

  function Answer(reply: Option<string>): Result<(), string> {
    if reply.Some? then Failure(reply.value) else Success(())
  }

  /** The stage at which a rotation fails, and with what. */
  datatype Failing = Failing(stage: RotationStage, error: string)

  /** The error of `activate`, which depends neither on the overlap nor on the time. */
  function ActivationError(keys: Keys, id: string, f: Lifecycle.Faults): Option<string> {
    Lifecycle.Attempt(keys, Lifecycle.Op.Activate(id, 0), 0, f).error
  }

  /** The first failing call from the open session on; `activation` is the error of `activate`. */
  function DeliveryFailure(replies: Replies, activation: Option<string>): Option<Failing> {
    if replies.begin.Some? then Some(Failing(Propagation, replies.begin.value))
    else if replies.store.Some? then Some(Failing(Propagation, replies.store.value))
    else if replies.verify.Some? then Some(Failing(Verification, replies.verify.value))
    else if activation.Some? then Some(Failing(Activation, activation.value))
    else if replies.complete.Some? then Some(Failing(Activation, replies.complete.value))
    else None
  }

  /** The first failing call of a rotation; `hasActive` says whether there is an active key to expire. */
  function FirstFailure(draw: Outcome, replies: Replies, f: StoreFaults, hasActive: bool): Option<Failing> {
    var a := f.activate;
    if f.read then Some(Failing(Generation, Lifecycle.UNAVAILABLE))
    else if draw.Throw? then Some(Failing(Generation, draw.error))
    else if f.save then Some(Failing(Generation, Lifecycle.UNAVAILABLE))
    else
      DeliveryFailure(replies, if a.get || a.active || (hasActive && a.expire) || a.write
                               then Some(Lifecycle.UNAVAILABLE) else None)
  }

  /** What a rotation has announced when it comes to a stage. */
  function Announced(stage: RotationStage): seq<Event> {
    match stage
    case Generation => []
    case Propagation => [KeyGenerated]
    case Verification => [KeyGenerated, KeyPropagated]
    case Activation => [KeyGenerated, KeyPropagated, KeyVerified]
  }

  function Tagged(rid: Rid, announced: seq<Event>): seq<(Rid, Event)> {
    seq(|announced|, i requires 0 <= i < |announced| => (rid, announced[i]))
  }

  /** What delivering a recorded key announces. */
  function Delivered(rid: Rid, failing: Option<Failing>): seq<(Rid, Event)> {
    if failing == None || failing.value.stage == Activation then [(rid, KeyPropagated), (rid, KeyVerified)]
    else if failing.value.stage == Verification then [(rid, KeyPropagated)]
    else []
  }

  const NO_UNDO_FAULTS: Rollback.UndoFaults := Rollback.UndoFaults(Lifecycle.NO_FAULTS, Lifecycle.NO_FAULTS)

  // ---- Views ----------------------------------------------------------------------------------

  lemma TickShows(cfg: Config, s: State, v: View, ms: nat)
    requires Shows(s, v)
    ensures var s' := Apply(cfg, s, Tick(ms));
      && Shows(s', v.(now := v.now + ms))
      && s'.rots == s.rots && s'.usedIds == s.usedIds && s'.rotating == s.rotating
  {
    var s' := Apply(cfg, s, Tick(ms));
    forall name ensures KeysOf(s', name) == KeysIn(v, name) && ProviderOf(s', name) == SecretIn(v, name) {
      assert KeysOf(s, name) == KeysIn(v, name) && ProviderOf(s, name) == SecretIn(v, name);
    }
  }

  lemma StartShows(cfg: Config, s: State, v: View, l: Label)
    requires Shows(s, v) && l.Start? && !l.force && l.rid !in s.rots && l.secret !in s.rotating
    ensures Enabled(s, l)
    ensures var s' := Apply(cfg, s, l);
      && Shows(s', v.(rotating := v.rotating + {l.secret})) && s'.usedIds == s.usedIds
      && InFlight(s', l.rid) && Begins(s'.rots[l.rid], l.secret, l.overlapMs)
      && s'.rots[l.rid].hist.begin == KeysIn(v, l.secret)
  {
    var s' := Apply(cfg, s, l);
    forall name ensures KeysOf(s', name) == KeysIn(v, name) && ProviderOf(s', name) == SecretIn(v, name) {
      assert KeysOf(s, name) == KeysIn(v, name) && ProviderOf(s, name) == SecretIn(v, name);
    }
  }

  /** Views that answer every lookup alike are shown alike. */
  lemma SameLookups(s: State, v: View, v': View)
    requires Shows(s, v) && v' == v.(keys := v'.keys, secrets := v'.secrets)
    requires forall name :: KeysIn(v', name) == KeysIn(v, name) && SecretIn(v', name) == SecretIn(v, name)
    ensures Shows(s, v')
  {
    forall n ensures KeysOf(s, n) == KeysIn(v', n) && ProviderOf(s, n) == SecretIn(v', n) {
      assert KeysOf(s, n) == KeysIn(v, n) && ProviderOf(s, n) == SecretIn(v, n);
    }
  }

  lemma WithKeysTwice(v: View, name: string, first: Keys, second: Keys)
    ensures WithKeys(WithKeys(v, name, first), name, second) == WithKeys(v, name, second)
    ensures KeysIn(WithKeys(v, name, first), name) == first
  {
  }

  lemma WithKeysFields(v: View, name: string, keys: Keys)
    ensures var v' := WithKeys(v, name, keys);
      && v'.secrets == v.secrets && v'.entries == v.entries && v'.rotating == v.rotating && v'.events == v.events
      && v'.now == v.now && v'.nextVersion == v.nextVersion && v'.keys == v.keys[name := keys]
  {
  }

  lemma WithKeysLookups(v: View, name: string, keys: Keys)
    ensures var v' := WithKeys(v, name, keys);
      && v' == v.(keys := v'.keys)
      && forall n :: KeysIn(v', n) == if n == name then keys else KeysIn(v, n)
  {
  }

  lemma SameKeysShown(s: State, v: View, name: string)
    requires Shows(s, v)
    ensures Shows(s, WithKeys(v, name, KeysIn(v, name)))
  {
    var v' := WithKeys(v, name, KeysIn(v, name));
    forall n ensures KeysOf(s, n) == KeysIn(v', n) && ProviderOf(s, n) == SecretIn(v', n) {
      assert KeysOf(s, n) == KeysIn(v, n) && ProviderOf(s, n) == SecretIn(v, n);
    }
  }

  lemma MovedOutKeeps(keys: Keys, overlapMs: int, now: Time, id: string)
    requires Find(keys, id).Some?
    ensures Find(Lifecycle.MovedOut(keys, overlapMs, now), id).Some?
  {
    if GetActive(keys).Some? {
      FindPut(keys, ExpiredBy(GetActive(keys).value, now, overlapMs), id);
    }
  }

  // ---- Rollback entries -----------------------------------------------------------------------

  /** If a rollback of the rotation finds an entry, it is the rotation's own. */
  ghost predicate EntryFits(entries: seq<Entry>, rid: Rid, r: Rotation) {
    r.newKey.Some? &&
    var e := Rollback.EntryOf(entries, rid);
    e.Some? ==>
      && e.value.secret == r.secret && e.value.newKeyId == r.newKey.value.keyId && e.value.prevId == r.prevId
      && !e.value.hasSession
  }

  lemma {:induction false} EntryAppended(entries: seq<Entry>, e: Entry)
    requires !Kept(entries, e.id)
    ensures Rollback.EntryOf(entries + [e], e.id) == Some(e)
  {
    if entries != [] {
      assert entries[0] in entries;
      assert forall x :: x in entries[1..] ==> x in entries;
      EntryAppended(entries[1..], e);
      assert (entries + [e])[1..] == entries[1..] + [e];
    }
  }

  /** A pushed entry is found, unless the list keeps nothing; a limit of zero keeps everything. */
  lemma EntryPushed(entries: seq<Entry>, e: Entry, maxEntries: int)
    requires !Kept(entries, e.id)
    ensures var found := Rollback.EntryOf(PushEntry(entries, e, maxEntries), e.id);
      (found.Some? ==> found == Some(e)) && (maxEntries >= 0 ==> found == Some(e))
  {
    var all, after := entries + [e], PushEntry(entries, e, maxEntries);
    if after == all {
      EntryAppended(entries, e);
    } else {
      var from := |all| - |after|;
      assert after == all[from..];
      if from < |all| {
        assert all[from..] == entries[from..] + [e];
        assert forall x :: x in entries[from..] ==> x in entries;
        EntryAppended(entries[from..], e);
      }
    }
  }

  /** Completing the entry keeps it findable and changes only its flag. */
  lemma {:induction false} EntryCompleted(entries: seq<Entry>, id: Rid)
    ensures Rollback.EntryOf(CompleteEntry(entries, id), id) ==
      match Rollback.EntryOf(entries, id) case None => None case Some(e) => Some(e.(completed := true))
  {
    if entries != [] && entries[0].id != id {
      EntryCompleted(entries[1..], id);
      assert ([entries[0]] + CompleteEntry(entries[1..], id))[1..] == CompleteEntry(entries[1..], id);
    }
  }

  // ---- One rotation, earlier and later --------------------------------------------------------

  lemma AfterCancelIgnores(a: Rotation, b: Rotation)
    requires a.prevId == b.prevId && a.newKey == b.newKey
    ensures AfterCancel(a) == AfterCancel(b)
  {
  }

  /** A rotation nothing has happened to yet. */
  ghost predicate Begins(r: Rotation, secret: string, overlapMs: int) {
    && r.pc == ReadPrevious && r.secret == secret && r.overlapMs == overlapMs && r.stage == Generation
    && r.prevId.None? && r.newKey.None? && r.session.None? && !r.hasEntry
  }

  /** The same rotation, later, once its key is recorded. */
  ghost predicate Grows(a: Rotation, b: Rotation) {
    Goes(a, b) && b.newKey == a.newKey && b.prevId == a.prevId && b.hasEntry == a.hasEntry
  }

  /** The rotation has thrown and compensation is next. */
  ghost predicate Halted(cfg: Config, kept: bool, r: Rotation, session: bool, stage: RotationStage, error: string) {
    r.pc == FirstCompensation(cfg, kept, r) && r.session.Some? == session && r.stage == stage && r.error == error
  }

  /** It has thrown, having changed nothing but what its calls returned and wrote. */
  ghost predicate Halts(cfg: Config, kept: bool, a: Rotation, b: Rotation, error: string) {
    && b == a.(error := error, pc := FirstCompensation(cfg, kept, a), seen := b.seen, seenActive := b.seenActive,
               hist := b.hist)
    && a.hist.begin == b.hist.begin
  }

  lemma HaltedHere(cfg: Config, kept: bool, a: Rotation, b: Rotation, error: string)
    requires Halts(cfg, kept, a, b, error)
    ensures Halted(cfg, kept, b, a.session.Some?, a.stage, error) && Grows(a, b)
  {
  }

  lemma ThrownHalts(cfg: Config, kept: bool, a: Rotation, b: Rotation, error: string)
    requires Kin(a, b)
    ensures Halts(cfg, kept, a, Thrown(cfg, kept, b, error), error)
  {
  }

  /** The same rotation, later. */
  ghost predicate Goes(a: Rotation, b: Rotation) {
    a.secret == b.secret && a.hist.begin == b.hist.begin
  }

  lemma GoesOn(a: Rotation, b: Rotation, c: Rotation)
    requires Goes(a, b) && (Kin(b, c) || Goes(b, c))
    ensures Goes(a, c)
  {
  }

  lemma AfterMarkIgnores(a: Rotation, b: Rotation)
    requires a.prevId == b.prevId
    ensures AfterMark(a) == AfterMark(b)
  {
  }

  /** Equal but for where the rotation stands and what its calls returned. */
  ghost predicate Kin(a: Rotation, b: Rotation) {
    a.(pc := b.pc, seen := b.seen, seenActive := b.seenActive, hist := b.hist) == b && a.hist.begin == b.hist.begin
  }

  lemma KeepsItsOwn(cfg: Config, kept: bool, a: Rotation, b: Rotation)
    ensures Kin(a, b) ==> Grows(a, b)
    ensures forall error :: Halts(cfg, kept, a, b, error) ==> Grows(a, b) && FailurePath(b.pc)
  {
    hide FirstCompensation;
  }

  lemma StillKin(a: Rotation, b: Rotation)
    requires b == a.(seen := b.seen, pc := b.pc)
    ensures Kin(a, b)
  {
  }

  lemma KinSwitch(cfg: Config, kept: bool, a: Rotation, b: Rotation, c: Rotation)
    requires Kin(a, b)
    ensures Kin(b, c) ==> Kin(a, c)
    ensures forall error :: Halts(cfg, kept, b, c, error) ==> Halts(cfg, kept, a, c, error)
  {
  }

  /** The records after the rest of `activate`, once the key has been read and found pending, and its error. */
  ghost function Switched(keys: Keys, key: SecretKey, overlapMs: int, now: Time,
                          f: Lifecycle.Faults): Lifecycle.Attempted
  {
    var moved := Lifecycle.MovedOut(keys, overlapMs, now);
    if f.active || (GetActive(keys).Some? && f.expire) then Lifecycle.Attempted(keys, Some(Lifecycle.UNAVAILABLE))
    else if f.write then Lifecycle.Attempted(moved, Some(Lifecycle.UNAVAILABLE))
    else Lifecycle.Attempted(Put(moved, Activated(key, now)), None)
  }

  lemma AttemptActivate(keys: Keys, op: Lifecycle.Op, now: Time, f: Lifecycle.Faults)
    requires op.Activate?
    ensures var found := Find(keys, op.id);
      Lifecycle.Attempt(keys, op, now, f) ==
        if f.get then Lifecycle.Attempted(keys, Some(Lifecycle.UNAVAILABLE))
        else if found.None? then Lifecycle.Attempted(keys, Some("Key not found"))
        else if found.value.status != Pending then Lifecycle.Attempted(keys, Some("Cannot activate key"))
        else Switched(keys, found.value, op.overlapMs, now, f)
  {
    hide Find, Put, GetActive;
  }

  lemma ActivationFails(keys: Keys, id: string, overlapMs: int, now: Time, f: Lifecycle.Faults)
    ensures Lifecycle.Attempt(keys, Lifecycle.Op.Activate(id, overlapMs), now, f).error == ActivationError(keys, id, f)
  {
    hide Lifecycle.Attempt;
    Lifecycle.ActivateFails(keys, id, overlapMs, now, f);
    Lifecycle.ActivateFails(keys, id, 0, 0, f);
  }

  /** Activating a key just saved fails only with the store. */
  lemma SavedKeyActivates(keys: Keys, key: SecretKey, f: Lifecycle.Faults)
    requires key.status == Pending && key.keyId !in Ids(keys)
    ensures ActivationError(Put(keys, key), key.keyId, f) ==
      if f.get || f.active || (HasActive(keys) && f.expire) || f.write then Some(Lifecycle.UNAVAILABLE) else None
  {
    hide Lifecycle.Attempt, Put, Find, GetActive;
    Lifecycle.ActivateFails(Put(keys, key), key.keyId, 0, 0, f);
    FindPut(keys, key, key.keyId);
    PutNew(keys, key);
    GetActiveIsNewest(keys + [key]);
    PendingIsNotActive(keys, key);
  }

  lemma NothingFails(replies: Replies, activation: Option<string>)
    ensures DeliveryFailure(replies, activation) == None ==> activation == None
  {
  }

  /** How a rotation whose key is recorded ends, in its events. */
  function Closing(failing: Option<Failing>): Event {
    if failing.Some? then RotationFailed(failing.value.stage) else KeyActivated
  }

  /** All that a rotation announces, in order. */
  lemma AnnouncedInAll(rid: Rid, replies: Replies, activation: Option<string>)
    ensures var failing := DeliveryFailure(replies, activation);
      [(rid, KeyGenerated)] + Delivered(rid, failing) + [(rid, Closing(failing))] ==
        Tagged(rid, Announced(if failing.Some? then failing.value.stage else Activation) + [Closing(failing)])
  {
  }

  /** With its key saved, a rotation can only fail where delivery does. */
  lemma FailsInDelivery(rid: Rid, draw: Outcome, replies: Replies, f: StoreFaults, keys: Keys, key: SecretKey)
    requires !f.read && draw.Made? && !f.save && key.status == Pending && key.keyId !in Ids(keys)
    ensures var failing := FirstFailure(draw, replies, f, HasActive(keys));
      && failing == DeliveryFailure(replies, ActivationError(Put(keys, key), key.keyId, f.activate))
      && [(rid, KeyGenerated)] + Delivered(rid, failing) + [(rid, Closing(failing))] ==
           Tagged(rid, Announced(if failing.Some? then failing.value.stage else Activation) + [Closing(failing)])
  {
    hide HasActive, ActivationError, Put, Ids, DeliveryFailure, Delivered, Closing, Tagged, Announced;
    SavedKeyActivates(keys, key, f.activate);
    AnnouncedInAll(rid, replies, ActivationError(Put(keys, key), key.keyId, f.activate));
  }

  lemma FailedAtOnce(rid: Rid, draw: Outcome, replies: Replies, f: StoreFaults, hasActive: bool)
    requires f.read || draw.Throw? || f.save
    ensures var failing := FirstFailure(draw, replies, f, hasActive);
      && failing == Some(Failing(Generation, if !f.read && draw.Throw? then draw.error else Lifecycle.UNAVAILABLE))
      && Tagged(rid, Announced(Generation) + [Closing(failing)]) == [(rid, RotationFailed(Generation))]
  {
  }

  /**
   * A rotation has replaced the active key: the new record is active and dated, the old one has expired and is valid
   * for the overlap counted from that moment, and every other id keeps its record.
   */
  ghost predicate Replaces(before: Keys, after: Keys, secret: string, draw: Outcome, overlapMs: int,
                           from: Time, to: Time)
    requires draw.Made?
  {
    var old_, new_ := GetActive(before), Find(after, draw.keyId);
    && new_.Some? && new_.value.rotatedAt.Some?
    && var made, at := new_.value.createdAt, new_.value.rotatedAt.value;
       && from <= made <= at <= to
       && new_.value == SecretKey(draw.keyId, secret, draw.material, draw.format, made, None, Active, made, Some(at),
                                  None, Some(draw.metadata))
       && forall x :: x != draw.keyId ==>
            Find(after, x) ==
              if old_.Some? && x == old_.value.keyId then
                Some(old_.value.(status := Expired, validUntil := Some(at + overlapMs)))
              else Find(before, x)
  }

  /** Saving a new key and activating it replaces the active one. */
  lemma ActivationReplaces(keys: Keys, secret: string, draw: Outcome, made: Time, overlapMs: int, at: Time,
                           f: Lifecycle.Faults, from: Time, to: Time)
    requires draw.Made? && draw.keyId !in Ids(keys) && from <= made <= at <= to
    requires ActivationError(Put(keys, NewKey(secret, draw, made)), draw.keyId, f) == None
    ensures var op := Lifecycle.Op.Activate(draw.keyId, overlapMs);
      var after := Lifecycle.Attempt(Put(keys, NewKey(secret, draw, made)), op, at, f).keys;
      Replaces(keys, after, secret, draw, overlapMs, from, to)
  {
    hide Lifecycle.Attempt, Put, Find, Ids, GetActive;
    var key := NewKey(secret, draw, made);
    var saved := Put(keys, key);
    PutNew(keys, key);
    ActiveBesidePending(keys, key);
    ActivationFails(saved, draw.keyId, overlapMs, at, f);
    Lifecycle.ActivateFails(saved, draw.keyId, overlapMs, at, f);
    var after := Lifecycle.Attempt(saved, Lifecycle.Op.Activate(draw.keyId, overlapMs), at, f).keys;
    FindPut(keys, key, draw.keyId);
    Lifecycle.ActivateEffect(saved, draw.keyId, overlapMs, at, f, draw.keyId);
    forall x | x != draw.keyId
      ensures Find(after, x) ==
        if GetActive(keys).Some? && x == GetActive(keys).value.keyId then
          Some(GetActive(keys).value.(status := Expired, validUntil := Some(at + overlapMs)))
        else Find(keys, x)
    {
      FindPut(keys, key, x);
      Lifecycle.ActivateEffect(saved, draw.keyId, overlapMs, at, f, x);
    }
  }

  /** What is pending is what the provider serves once the session is completed. */
  lemma CompletingServes(s: Provider.Secret, material: string)
    requires Pends(s, material)
    ensures Provider.CurrentValue(Provider.Complete(s)) == Some(material)
  {
  }

  /** The provider holds a pending version with the material. */
  ghost predicate Pends(s: Provider.Secret, material: string) {
    s.pending.Some? && Provider.ValueOf(s, s.pending.value) == Some(material)
  }

  lemma PendingIsNotActive(keys: Keys, key: SecretKey)
    requires key.status == Pending
    ensures HasActive(keys + [key]) <==> HasActive(keys)
  {
    if HasActive(keys) {
      var i :| 0 <= i < |keys| && keys[i].status == Active;
      assert (keys + [key])[i].status == Active;
    }
  }

  class RotationWorkflow {
    const store: InMemoryKeyStore
    const provider: Provider.InMemoryProvider
    const lifecycle: Lifecycle.KeyLifecycleManager
    const rollback: Rollback.RollbackManager?
    var events: seq<(Rid, Event)>           // what the emitter was given
    var now: Time                           // the clock
    var nextVersion: Provider.VersionId     // the id the provider assigns next
    ghost const want: Claims                // what is claimed of the run as long as it is good
    ghost var origin: State
    ghost var trace: seq<Label>
    ghost var model: State
    ghost var good: bool                    // the run has had none of the failures the claims exclude

    /** `start` describes what the objects hold: at most one active key each, which the provider serves if claimed. */
    constructor (provider: Provider.InMemoryProvider, store: InMemoryKeyStore, rollback: Rollback.RollbackManager?,
                 now: Time, nextVersion: Provider.VersionId, ghost start: State, ghost want: Claims)
      requires rollback != null ==>
        rollback.store == store && rollback.provider == provider && rollback.lifecycle.store == store
      requires Initial(start, want) && start.rotating == {} && start.events == []
      requires Shows(start, View(store.store, provider.secrets, if rollback == null then [] else rollback.entries, {},
                                 [], now, nextVersion))
      ensures Valid() && good && model == start && this.want == want
      ensures this.store == store && this.provider == provider && this.rollback == rollback
    {
      var l := new Lifecycle.KeyLifecycleManager(store);
      this.provider, this.store, this.rollback, lifecycle := provider, store, rollback, l;
      events, this.now, this.nextVersion := [], now, nextVersion;
      this.want, origin, trace, model, good := want, start, [], start, true;
      new;
      Results.InitialInv(Cfg(), start, want);
    }

    ghost function Cfg(): Config {
      Config(if rollback == null then None else Some(rollback.maxEntries))
    }

    /** A rotation's own entry is not evicted as soon as it is pushed. */
    ghost predicate HasRoom() {
      rollback != null ==> rollback.maxEntries >= 0
    }

    ghost function Shown(): View
      reads this, store, provider, rollback
    {
      View(store.store, provider.secrets, if rollback == null then [] else rollback.entries, model.rotating,
           events, now, nextVersion)
    }

    ghost predicate Wired() {
      && lifecycle.store == store
      && (rollback != null ==>
            rollback.store == store && rollback.provider == provider && rollback.lifecycle.store == store)
    }

    /** The machine has run from `origin` to `model`; while the run is good, its invariant holds. */
    ghost predicate Tracked()
      reads this`origin, this`trace, this`model, this`good
    {
      && Run(Cfg(), origin, trace) && model == After(Cfg(), origin, trace)
      && (good ==> GoodRun(Cfg(), origin, trace, want) && Inv(Cfg(), model, want))
    }

    ghost predicate Valid()
      reads this, store, provider, rollback
    {
      Wired() && Tracked() && Shows(model, Shown())
    }

    ghost predicate InHand(rid: Rid)
      reads this, store, provider, rollback
    {
      && Wired() && Tracked() && InFlight(model, rid) && lifecycle.Filed(model.rots[rid].secret)
      && (model.rots[rid].hasEntry ==> rollback != null && EntryFits(rollback.entries, rid, model.rots[rid]))
    }

    /** The rotation is in flight and the machine shows what the objects hold. */
    ghost predicate Running(rid: Rid)
      reads this, store, provider, rollback
    {
      rid in model.rots && InHand(rid) && Shows(model, Shown())
    }

    /** The same but for the last event, which the machine has yet to log. */
    ghost predicate Owing(rid: Rid, e: Event)
      reads this, store, provider, rollback
    {
      && rid in model.rots && InHand(rid) && events != [] && events[|events| - 1] == (rid, e)
      && Shows(model, Shown().(events := events[..|events| - 1]))
    }

    /** If the rotation has recorded an entry, a rollback would find it. */
    ghost predicate Watched(rid: Rid)
      requires rid in model.rots
      reads this
    {
      model.rots[rid].hasEntry ==> Kept(model.entries, rid)
    }

    lemma ReadyNow(rid: Rid, v: View)
      requires InHand(rid) && Shows(model, v)
      ensures Ready(model, v, rid)
    {
      hide Inv, GoodRun, Run, After;
    }

    lemma LookupsAreHeld()
      ensures forall name :: KeysIn(Shown(), name) == store.Held(name)
      ensures forall name :: SecretIn(Shown(), name) == provider.Held(name)
    {
    }

    /** The machine shows the store once it shows what became of the one secret whose records have changed. */
    lemma ShowsStore(v: View, secret: string)
      requires Shows(model, WithKeys(v, secret, store.Held(secret)))
      requires v == Shown().(keys := v.keys, rotating := v.rotating)
      requires forall n :: n != secret ==> KeysIn(v, n) == store.Held(n)
      ensures Shows(model, Shown()) && model.rotating == v.rotating && model.entries == v.entries
    {
      hide SameMaps, WithKeys, KeysIn;
      LookupsAreHeld();
      WithKeysFields(v, secret, store.Held(secret));
      WithKeysLookups(v, secret, store.Held(secret));
      SameLookups(model, WithKeys(v, secret, store.Held(secret)), Shown());
    }

    // ---- Keeping the machine in step ----------------------------------------------------------

    /** One step of the machine; the run stays good exactly if the step is. */
    ghost method TakeStep(l: Label)
      requires Tracked() && Enabled(model, l)
      modifies this`trace, this`model, this`good
      ensures Tracked() && trace == old(trace) + [l] && model == Apply(Cfg(), old(model), l)
      ensures good == (old(good) && GoodStep(old(model), l, want))
    {
      hide Inv, GoodStep, Apply, GoodRun, Run, After, Enabled;
      RunExtends(Cfg(), origin, trace, l);
      if good && GoodStep(model, l, want) {
        StepKeeps(Cfg(), model, l, want);
        GoodRunExtends(Cfg(), origin, trace, l, want);
      }
      good := good && GoodStep(model, l, want);
      trace := trace + [l];
      model := Apply(Cfg(), model, l);
    }

    /** One awaited call. */
    ghost method Take(rid: Rid, o: Outcome, next: Rotation, v: View)
      requires Tracked() && Moves(Cfg(), model, rid, o, next, v)
      modifies this`trace, this`model, this`good
      ensures Tracked() && Shows(model, v)
      ensures model.rots == old(model.rots)[rid := next] && model.usedIds == UsedAfter(o, old(model.usedIds))
      ensures good ==> old(good)
      ensures !o.Throw? ==> good == old(good)
      ensures
        var pc := old(model.rots[rid].pc);
        !MarksFailed(pc) && !Reactivates(pc) && old(Watched(rid)) ==> good == old(good)
    {
      hide Apply, Run, After, GoodStep, Kept, SameMaps;
      var l := Advance(rid, o);
      if !o.Throw? {
        ReturnIsGood(model, rid, o, want);
      } else if !MarksFailed(model.rots[rid].pc) && !Reactivates(model.rots[rid].pc) && Watched(rid) {
        ThrowIsGood(model, rid, o, want);
      }
      TakeStep(l);
    }

    ghost method TakeTick(ms: nat, v: View)
      requires Tracked() && Shows(model, v)
      modifies this`trace, this`model, this`good
      ensures Tracked() && Shows(model, v.(now := v.now + ms)) && good == old(good)
      ensures model.rots == old(model.rots) && model.usedIds == old(model.usedIds)
    {
      hide Tracked, SameMaps;
      TickShows(Cfg(), model, v, ms);
      TakeStep(Tick(ms));
    }

    /** A request is admitted: the manager has marked the secret. */
    ghost method TakeStart(rid: Rid, secret: string, overlapMs: int)
      requires Valid() && lifecycle.Filed(secret)
      requires rid !in model.rots && secret !in model.rotating && !Kept(model.entries, rid)
      modifies this`trace, this`model, this`good
      ensures Running(rid) && Begins(model.rots[rid], secret, overlapMs) && !Kept(model.entries, rid)
      ensures model.rots[rid].hist.begin == store.Held(secret) && good == old(good)
      ensures model.usedIds == old(model.usedIds) && model.rotating == old(model.rotating) + {secret}
    {
      hide Tracked, SameMaps;
      var l := Start(rid, secret, overlapMs, false);
      StartShows(Cfg(), model, Shown(), l);
      TakeStep(l);
    }

    /** What `KeyLifecycleManager.activate` did, call by call. */
    ghost method TakeActivate(rid: Rid, v: View, f: Lifecycle.Faults)
      requires Tracked() && Ready(model, v, rid) && model.rots[rid].pc == ActivateGet && model.rots[rid].newKey.Some?
      modifies this`trace, this`model, this`good
      ensures Tracked() && rid in model.rots && (old(Watched(rid)) ==> good == old(good)) && (good ==> old(good))
      ensures var r := old(model.rots[rid]);
        var op := Lifecycle.Op.Activate(r.newKey.value.keyId, r.overlapMs);
        var done := Lifecycle.Attempt(KeysIn(v, r.secret), op, v.now, f);
        && Shows(model, WithKeys(v, r.secret, done.keys))
        && (done.error.None? ==> Kin(r, model.rots[rid]) && model.rots[rid].pc == CompleteSession)
        && (done.error.Some? ==>
              Halts(Cfg(), Kept(old(model.entries), rid), r, model.rots[rid], done.error.value))
    {
      hide Tracked, Moves, SameMaps, Find, Put, GetActive, FirstCompensation, Kept, WithKeys, KeysIn, Switched,
        Lifecycle.Attempt, Kin, Halts;
      var r, name := model.rots[rid], model.rots[rid].secret;
      var found := Find(KeysIn(v, name), r.newKey.value.keyId);
      AttemptActivate(KeysIn(v, name), Lifecycle.Op.Activate(r.newKey.value.keyId, r.overlapMs), v.now, f);
      if f.get || found.None? || found.value.status != Pending {
        TakeRefused(rid, v, f);
      } else {
        AtActivateGet(Cfg(), model, v, rid);
        StillKin(r, r.(seen := found, pc := ActivateGetActive));
        Take(rid, Ok, r.(seen := found, pc := ActivateGetActive), v);
        TakeSwitch(rid, v, f);
        KinSwitch(Cfg(), Kept(old(model.entries), rid), r, r.(seen := found, pc := ActivateGetActive), model.rots[rid]);
      }
    }

    /** The new key cannot be read or is not pending. */
    ghost method TakeRefused(rid: Rid, v: View, f: Lifecycle.Faults)
      requires Tracked() && Ready(model, v, rid) && model.rots[rid].pc == ActivateGet && model.rots[rid].newKey.Some?
      requires var found := Find(KeysIn(v, model.rots[rid].secret), model.rots[rid].newKey.value.keyId);
        f.get || found.None? || found.value.status != Pending
      modifies this`trace, this`model, this`good
      ensures Tracked() && rid in model.rots && (old(Watched(rid)) ==> good == old(good)) && (good ==> old(good))
      ensures var r := old(model.rots[rid]);
        var found := Find(KeysIn(v, r.secret), r.newKey.value.keyId);
        && Shows(model, WithKeys(v, r.secret, KeysIn(v, r.secret)))
        && Halts(Cfg(), Kept(old(model.entries), rid), r, model.rots[rid],
                 if f.get then Lifecycle.UNAVAILABLE
                 else if found.None? then "Key not found" else "Cannot activate key")
    {
      hide Tracked, Moves, SameMaps, Find, Put, GetActive, FirstCompensation, Kept, WithKeys, KeysIn;
      var r, name := model.rots[rid], model.rots[rid].secret;
      var found := Find(KeysIn(v, name), r.newKey.value.keyId);
      if f.get {
        AtThrow(Cfg(), model, v, rid, Lifecycle.UNAVAILABLE);
        Take(rid, Throw(Lifecycle.UNAVAILABLE), Thrown(Cfg(), Kept(model.entries, rid), r, Lifecycle.UNAVAILABLE), v);
      } else {
        var error := if found.None? then "Key not found" else "Cannot activate key";
        AtActivateGet(Cfg(), model, v, rid);
        Take(rid, Ok, Thrown(Cfg(), Kept(model.entries, rid), r, error), v);
      }
      SameKeysShown(model, v, name);
    }

    /** The rest of it, once the new key's record has been read: `getActive` and the two updates. */
    ghost method TakeSwitch(rid: Rid, v: View, f: Lifecycle.Faults)
      requires Tracked() && Ready(model, v, rid) && model.rots[rid].pc == ActivateGetActive
      requires model.rots[rid].seen.Some?
      requires Find(KeysIn(v, model.rots[rid].secret), model.rots[rid].seen.value.keyId).Some?
      modifies this`trace, this`model, this`good
      ensures Tracked() && rid in model.rots && (old(Watched(rid)) ==> good == old(good)) && (good ==> old(good))
      ensures var r := old(model.rots[rid]);
        var done := Switched(KeysIn(v, r.secret), r.seen.value, r.overlapMs, v.now, f);
        && Shows(model, WithKeys(v, r.secret, done.keys))
        && (done.error.None? ==> Kin(r, model.rots[rid]) && model.rots[rid].pc == CompleteSession)
        && (done.error.Some? ==>
              Halts(Cfg(), Kept(old(model.entries), rid), r, model.rots[rid], done.error.value))
    {
      hide Tracked, Moves, SameMaps, Find, Put, GetActive, FirstCompensation, Kept, WithKeys, KeysIn;
      ghost var r0 := model.rots[rid];
      var name := r0.secret;
      if f.active || (GetActive(KeysIn(v, name)).Some? && f.expire) {
        TakeNoExpire(rid, v, f);
      } else {
        TakeExpire(rid, v);
        var r := model.rots[rid];
        var keys := Lifecycle.MovedOut(KeysIn(v, name), r.overlapMs, v.now);
        var v1 := WithKeys(v, name, keys);
        WithKeysFields(v, name, keys);
        if f.write {
          AtThrow(Cfg(), model, v1, rid, Lifecycle.UNAVAILABLE);
          ThrownHalts(Cfg(), Kept(model.entries, rid), r0, r, Lifecycle.UNAVAILABLE);
          Take(rid, Throw(Lifecycle.UNAVAILABLE),
               Thrown(Cfg(), Kept(model.entries, rid), r, Lifecycle.UNAVAILABLE), v1);
        } else {
          var after := Put(keys, Activated(r.seen.value, v.now));
          MovedOutKeeps(KeysIn(v, name), r.overlapMs, v.now, r.seen.value.keyId);
          WithKeysTwice(v, name, keys, after);
          AtActivateUpdate(Cfg(), model, v1, rid);
          Take(rid, Ok, r.(pc := CompleteSession, hist := r.hist.(newNow := Some(Activated(r.seen.value, v.now)))),
               WithKeys(v1, name, after));
        }
      }
    }

    /** Reading or expiring the active key throws. */
    ghost method TakeNoExpire(rid: Rid, v: View, f: Lifecycle.Faults)
      requires Tracked() && Ready(model, v, rid) && model.rots[rid].pc == ActivateGetActive
      requires f.active || (GetActive(KeysIn(v, model.rots[rid].secret)).Some? && f.expire)
      modifies this`trace, this`model, this`good
      ensures Tracked() && rid in model.rots && (old(Watched(rid)) ==> good == old(good)) && (good ==> old(good))
      ensures var r := old(model.rots[rid]);
        && Shows(model, WithKeys(v, r.secret, KeysIn(v, r.secret)))
        && Halts(Cfg(), Kept(old(model.entries), rid), r, model.rots[rid], Lifecycle.UNAVAILABLE)
    {
      hide Tracked, Moves, SameMaps, Find, Put, GetActive, FirstCompensation, Kept, WithKeys, KeysIn;
      var r := model.rots[rid];
      var name, active := r.secret, GetActive(KeysIn(v, r.secret));
      if !f.active {
        AtActivateGetActive(Cfg(), model, v, rid);
        r := r.(seenActive := active, pc := ActivateExpire);
        Take(rid, Ok, r, v);
      }
      AtThrow(Cfg(), model, v, rid, Lifecycle.UNAVAILABLE);
      ThrownHalts(Cfg(), Kept(model.entries, rid), old(model.rots[rid]), r, Lifecycle.UNAVAILABLE);
      Take(rid, Throw(Lifecycle.UNAVAILABLE), Thrown(Cfg(), Kept(model.entries, rid), r, Lifecycle.UNAVAILABLE), v);
      SameKeysShown(model, v, name);
    }

    ghost method TakeExpire(rid: Rid, v: View)
      requires Tracked() && Ready(model, v, rid) && model.rots[rid].pc == ActivateGetActive
      modifies this`trace, this`model, this`good
      ensures Tracked() && rid in model.rots && good == old(good)
      ensures var r := old(model.rots[rid]);
        && Shows(model, WithKeys(v, r.secret, Lifecycle.MovedOut(KeysIn(v, r.secret), r.overlapMs, v.now)))
        && Kin(r, model.rots[rid]) && model.rots[rid].seen == r.seen && model.rots[rid].pc == ActivateUpdate
    {
      hide Tracked, Moves, SameMaps, Find, Put, GetActive, FirstCompensation, Kept, WithKeys, KeysIn;
      var r, name := model.rots[rid], model.rots[rid].secret;
      var keys := KeysIn(v, name);
      var active := GetActive(keys);
      AtActivateGetActive(Cfg(), model, v, rid);
      r := r.(seenActive := active, pc := if active.Some? then ActivateExpire else ActivateUpdate);
      Take(rid, Ok, r, v);
      if active.Some? {
        var expired := ExpiredBy(active.value, v.now, r.overlapMs);
        Lifecycle.ActiveIsStored(keys);
        AtActivateExpire(Cfg(), model, v, rid);
        Take(rid, Ok, r.(pc := ActivateUpdate, hist := r.hist.(prevNow := Some(expired), prevAt := v.now)),
             WithKeys(v, name, Put(keys, expired)));
      } else {
        SameKeysShown(model, v, name);
      }
    }

    /** What marking the new key failed did, whoever asked for it. */
    ghost method TakeMark(rid: Rid, v: View, f: Lifecycle.Faults)
      requires Tracked() && Ready(model, v, rid) && model.rots[rid].pc == MarkGet && model.rots[rid].newKey.Some?
      modifies this`trace, this`model, this`good
      ensures Tracked() && rid in model.rots && (f == Lifecycle.NO_FAULTS ==> good == old(good)) && (good ==> old(good))
      ensures var r := old(model.rots[rid]);
        var op := Lifecycle.Op.MarkFailed(r.newKey.value.keyId, r.error);
        && Shows(model, WithKeys(v, r.secret, Lifecycle.Attempt(KeysIn(v, r.secret), op, v.now, f).keys))
        && Kin(r, model.rots[rid]) && model.rots[rid].pc == AfterMark(r)
    {
      hide Tracked, Moves, SameMaps, Find, Put, Kept, WithKeys, KeysIn, AfterMark, MarkedFailed, Watched,
        Lifecycle.MovedOut, GetActive, Update, FirstCompensation;
      var r, name := model.rots[rid], model.rots[rid].secret;
      var keys := KeysIn(v, name);
      var found := Find(keys, r.newKey.value.keyId);
      WithKeysFields(v, name, keys);
      if f.get {
        AtMarkThrow(Cfg(), model, v, rid, Lifecycle.UNAVAILABLE);
        Take(rid, Throw(Lifecycle.UNAVAILABLE), r.(pc := AfterMark(r)), v);
        SameKeysShown(model, v, name);
      } else if found.None? || Terminal(found.value.status) {
        AtMarkGet(Cfg(), model, v, rid);
        Take(rid, Ok, r.(pc := AfterMark(r)), v);
        SameKeysShown(model, v, name);
      } else {
        AtMarkGet(Cfg(), model, v, rid);
        r := r.(seen := found, pc := MarkUpdate);
        Take(rid, Ok, r, v);
        AfterMarkIgnores(r, old(model.rots[rid]));
        TakeMarkWrite(rid, v, f.write);
      }
    }

    ghost method TakeMarkWrite(rid: Rid, v: View, throws: bool)
      requires Tracked() && Ready(model, v, rid) && model.rots[rid].pc == MarkUpdate && model.rots[rid].seen.Some?
      requires Find(KeysIn(v, model.rots[rid].secret), model.rots[rid].seen.value.keyId) == model.rots[rid].seen
      modifies this`trace, this`model, this`good
      ensures Tracked() && rid in model.rots && (!throws ==> good == old(good)) && (good ==> old(good))
      ensures var r := old(model.rots[rid]);
        var keys := KeysIn(v, r.secret);
        && Shows(model, WithKeys(v, r.secret,
                                 if throws then keys else Put(keys, MarkedFailed(r.seen.value, v.now, r.error))))
        && Kin(r, model.rots[rid]) && model.rots[rid].pc == AfterMark(r)
    {
      hide Tracked, Moves, SameMaps, Find, Put, Kept, WithKeys, KeysIn, AfterMark, MarkedFailed, Watched;
      var r, name := model.rots[rid], model.rots[rid].secret;
      if throws {
        AtMarkThrow(Cfg(), model, v, rid, Lifecycle.UNAVAILABLE);
        Take(rid, Throw(Lifecycle.UNAVAILABLE), r.(pc := AfterMark(r)), v);
        SameKeysShown(model, v, name);
      } else {
        AtMarkUpdate(Cfg(), model, v, rid);
        var failed := MarkedFailed(r.seen.value, v.now, r.error);
        Take(rid, Ok, r.(pc := AfterMark(r), hist := r.hist.(newNow := Some(failed))),
             WithKeys(v, name, Put(KeysIn(v, name), failed)));
      }
    }

    ghost method TakeReactivate(rid: Rid, v: View, f: Lifecycle.Faults)
      requires Tracked() && Ready(model, v, rid) && model.rots[rid].pc == ReactivateGet && model.rots[rid].prevId.Some?
      modifies this`trace, this`model, this`good
      ensures Tracked() && rid in model.rots && (f == Lifecycle.NO_FAULTS ==> good == old(good)) && (good ==> old(good))
      ensures var r := old(model.rots[rid]);
        var op := Lifecycle.Op.Reactivate(r.prevId.value);
        && Shows(model, WithKeys(v, r.secret, Lifecycle.Attempt(KeysIn(v, r.secret), op, v.now, f).keys))
        && Kin(r, model.rots[rid]) && model.rots[rid].pc == EmitFailed
    {
      hide Tracked, Moves, SameMaps, Find, Put, Kept, WithKeys, KeysIn, Watched;
      var r, name := model.rots[rid], model.rots[rid].secret;
      var keys := KeysIn(v, name);
      var found := Find(keys, r.prevId.value);
      WithKeysFields(v, name, keys);
      if f.get {
        AtReactivateThrow(Cfg(), model, v, rid, Lifecycle.UNAVAILABLE);
        Take(rid, Throw(Lifecycle.UNAVAILABLE), r.(pc := EmitFailed), v);
        SameKeysShown(model, v, name);
      } else if found.None? || Terminal(found.value.status) {
        AtReactivateGet(Cfg(), model, v, rid);
        Take(rid, Ok, r.(pc := EmitFailed), v);
        SameKeysShown(model, v, name);
      } else {
        AtReactivateGet(Cfg(), model, v, rid);
        Take(rid, Ok, r.(seen := found, pc := ReactivateUpdate), v);
        TakeReactivateWrite(rid, v, f.write);
      }
    }

    ghost method TakeReactivateWrite(rid: Rid, v: View, throws: bool)
      requires Tracked() && Ready(model, v, rid) && model.rots[rid].pc == ReactivateUpdate && model.rots[rid].seen.Some?
      requires Find(KeysIn(v, model.rots[rid].secret), model.rots[rid].seen.value.keyId) == model.rots[rid].seen
      modifies this`trace, this`model, this`good
      ensures Tracked() && rid in model.rots && (!throws ==> good == old(good)) && (good ==> old(good))
      ensures var r := old(model.rots[rid]);
        var keys := KeysIn(v, r.secret);
        && Shows(model, WithKeys(v, r.secret, if throws then keys else Put(keys, Reactivated(r.seen.value, v.now))))
        && Kin(r, model.rots[rid]) && model.rots[rid].pc == EmitFailed
    {
      hide Tracked, Moves, SameMaps, Find, Put, Kept, WithKeys, KeysIn, Watched;
      var r, name := model.rots[rid], model.rots[rid].secret;
      if throws {
        AtReactivateThrow(Cfg(), model, v, rid, Lifecycle.UNAVAILABLE);
        Take(rid, Throw(Lifecycle.UNAVAILABLE), r.(pc := EmitFailed), v);
        SameKeysShown(model, v, name);
      } else {
        AtReactivateUpdate(Cfg(), model, v, rid);
        var active := Reactivated(r.seen.value, v.now);
        Take(rid, Ok, r.(pc := EmitFailed, hist := r.hist.(prevNow := Some(active), prevAt := v.now)),
             WithKeys(v, name, Put(KeysIn(v, name), active)));
      }
    }

    /** Both ways of compensating: marking the new key failed, if any, and reactivating the previous one, if any. */
    ghost method TakeUndo(rid: Rid, v: View, f: Rollback.UndoFaults)
      requires Tracked() && Ready(model, v, rid) && model.rots[rid].pc == AfterCancel(model.rots[rid])
      modifies this`trace, this`model, this`good
      ensures Tracked() && rid in model.rots && (f == NO_UNDO_FAULTS ==> good == old(good)) && (good ==> old(good))
      ensures var r := old(model.rots[rid]);
        && Shows(model, WithKeys(v, r.secret,
             Rollback.RolledBack(KeysIn(v, r.secret), IdOf(r.newKey), r.prevId, r.error, v.now, f)))
        && Kin(r, model.rots[rid]) && model.rots[rid].pc == EmitFailed
    {
      hide Tracked, SameMaps, Kept, WithKeys, KeysIn, Lifecycle.Attempt;
      var r, name := model.rots[rid], model.rots[rid].secret;
      var keys, v1 := KeysIn(v, name), v;
      if r.newKey.Some? {
        TakeMark(rid, v, f.mark);
        keys := Lifecycle.Attempt(keys, Lifecycle.Op.MarkFailed(r.newKey.value.keyId, r.error), v.now, f.mark).keys;
        v1 := WithKeys(v, name, keys);
        WithKeysFields(v, name, keys);
      } else {
        SameKeysShown(model, v, name);
      }
      WithKeysTwice(v, name, keys, keys);
      AfterMarkIgnores(r, model.rots[rid]);
      if HasPrevious(r) {
        TakeReactivate(rid, v1, f.reactivate);
        WithKeysTwice(v, name, keys,
                      Lifecycle.Attempt(keys, Lifecycle.Op.Reactivate(r.prevId.value), v.now, f.reactivate).keys);
      }
    }

    /** Time passes. */
    method Elapse(rid: Rid)
      requires Running(rid)
      modifies this`now, this`trace, this`model, this`good
      ensures old(now) <= now
      ensures Running(rid) && model.rots == old(model.rots) && model.usedIds == old(model.usedIds) && good == old(good)
      ensures model.rotating == old(model.rotating) && model.entries == old(model.entries)
    {
      hide Tracked, SameMaps, EntryFits;
      var ms: int :| 0 <= ms;
      TakeTick(ms, Shown());
      now := now + ms;
    }

    /** The emitter logs the event; should it throw, `emit` swallows that. */
    method Emit(rid: Rid, e: Event)
      modifies this`events
      ensures events == old(events) + [(rid, e)]
      ensures old(Running(rid)) ==> Owing(rid, e)
    {
      hide Tracked, SameMaps, Rollback.EntryOf;
      events := events + [(rid, e)];
      assert events[..|events| - 1] == old(events);
    }

    // ---- The steps of a rotation --------------------------------------------------------------

    method ReadPrevious(rid: Rid, secret: string, throws: bool) returns (prevId: Result<Option<string>, string>)
      requires Running(rid) && model.rots[rid].pc == Pc.ReadPrevious && model.rots[rid].secret == secret
      requires !model.rots[rid].hasEntry
      modifies this`trace, this`model, this`good
      ensures Running(rid) && model.rotating == old(model.rotating) && model.entries == old(model.entries)
      ensures model.usedIds == old(model.usedIds) && good == old(good) && (prevId.Failure? <==> throws)
      ensures prevId.Failure? ==> prevId.error == Lifecycle.UNAVAILABLE
      ensures prevId.Failure? ==>
        Halts(Cfg(), Kept(model.entries, rid), old(model.rots[rid]), model.rots[rid], prevId.error)
      ensures prevId.Success? ==> model.rots[rid] == old(model.rots[rid]).(prevId := prevId.value, pc := Generate)
    {
      hide Tracked, Moves, SameMaps, Rollback.EntryOf, KeyModel.GetActive, FirstCompensation, Kept;
      ghost var r := model.rots[rid];
      ReadyNow(rid, Shown());
      if throws {
        AtThrow(Cfg(), model, Shown(), rid, Lifecycle.UNAVAILABLE);
        Take(rid, Throw(Lifecycle.UNAVAILABLE),
             Thrown(Cfg(), Kept(model.entries, rid), r, Lifecycle.UNAVAILABLE), Shown());
        return Failure(Lifecycle.UNAVAILABLE);
      }
      AtReadPrevious(Cfg(), model, Shown(), rid);
      var active := store.GetActive(secret);
      var found := if active.Some? then Some(active.value.keyId) else None;
      Take(rid, Ok, r.(prevId := found, pc := Generate), Shown());
      return Success(found);
    }

    /** The generator's answer. */
    method Draw(rid: Rid, secret: string, draw: Outcome) returns (key: Result<SecretKey, string>)
      requires Running(rid) && model.rots[rid].pc == Generate && model.rots[rid].secret == secret
      requires !model.rots[rid].hasEntry && !draw.Ok? && FreshMade(draw, model.usedIds)
      modifies this`trace, this`model, this`good
      ensures Running(rid) && model.rotating == old(model.rotating) && model.entries == old(model.entries)
      ensures good == old(good)
      ensures key.Failure? ==> Halts(Cfg(), Kept(model.entries, rid), old(model.rots[rid]), model.rots[rid], key.error)
      ensures if draw.Throw? then key == Failure(draw.error) else key.Success?
      ensures key.Success? ==>
        && key.value == SecretKey(draw.keyId, secret, draw.material, draw.format, old(now), None, Pending, old(now),
                                  None, None, Some(draw.metadata))
        && model.rots[rid] == old(model.rots[rid]).(made := Some(key.value), pc := Pc.SaveKey)
    {
      hide Tracked, FirstCompensation, Moves, SameMaps, Rollback.EntryOf, Kept;
      ghost var r := model.rots[rid];
      ReadyNow(rid, Shown());
      if draw.Throw? {
        AtThrow(Cfg(), model, Shown(), rid, draw.error);
        Take(rid, draw, Thrown(Cfg(), Kept(model.entries, rid), r, draw.error), Shown());
        return Failure(draw.error);
      }
      AtGenerate(Cfg(), model, Shown(), rid, draw);
      Take(rid, draw, r.(made := Some(NewKey(secret, draw, now)), pc := Pc.SaveKey), Shown());
      return Success(NewKey(secret, draw, now));
    }

    method SaveKey(rid: Rid, secret: string, key: SecretKey, throws: bool) returns (done: Result<(), string>)
      requires Running(rid) && model.rots[rid].pc == Pc.SaveKey && model.rots[rid].made == Some(key)
      requires model.rots[rid].secret == secret == key.secretName && !model.rots[rid].hasEntry
      modifies this`trace, this`model, this`good, store
      ensures Running(rid) && model.rotating == old(model.rotating) && model.entries == old(model.entries)
      ensures good == old(good) && done == Answer(if throws then Some(Lifecycle.UNAVAILABLE) else None)
      ensures done.Success? ==> store.Held(secret) == Put(old(store.Held(secret)), key)
      ensures done.Failure? ==>
        Halts(Cfg(), Kept(model.entries, rid), old(model.rots[rid]), model.rots[rid], done.error)
      ensures done.Success? ==>
        model.rots[rid] ==
          old(model.rots[rid]).(pc := EmitGenerated, hist := old(model.rots[rid]).hist.(newNow := Some(key)))
    {
      hide Tracked, Put, Moves, SameMaps, Rollback.EntryOf, FirstCompensation, Kept;
      ghost var r := model.rots[rid];
      ReadyNow(rid, Shown());
      if throws {
        AtThrow(Cfg(), model, Shown(), rid, Lifecycle.UNAVAILABLE);
        Take(rid, Throw(Lifecycle.UNAVAILABLE),
             Thrown(Cfg(), Kept(model.entries, rid), r, Lifecycle.UNAVAILABLE), Shown());
        return Failure(Lifecycle.UNAVAILABLE);
      }
      AtSaveKey(Cfg(), model, Shown(), rid);
      MembersAfterPut(store.Held(secret), key);
      store.Save(key);
      Take(rid, Ok, r.(pc := EmitGenerated, hist := r.hist.(newNow := Some(key))), Shown());
      return Success(());
    }

    /** Draws a key and saves it.  The machine has yet to see the event. */
    method GenerateKey(rid: Rid, secret: string, draw: Outcome, saveThrows: bool)
      returns (key: Result<SecretKey, string>)
      requires Running(rid) && model.rots[rid].pc == Generate && model.rots[rid].secret == secret
      requires !model.rots[rid].hasEntry && !draw.Ok? && FreshMade(draw, model.usedIds)
      modifies this, store
      ensures model.rotating == old(model.rotating) && model.entries == old(model.entries) && good == old(good)
      ensures old(now) <= now
      ensures key.Failure? <==> draw.Throw? || saveThrows
      ensures key.Failure? ==> key.error == if draw.Throw? then draw.error else Lifecycle.UNAVAILABLE
      ensures key.Success? ==>
        && key.value == NewKey(secret, draw, old(now))
        && store.Held(secret) == Put(old(store.Held(secret)), key.value)
      ensures key.Failure? ==>
        && Running(rid) && events == old(events) && Grows(old(model.rots[rid]), model.rots[rid])
        && Halted(Cfg(), Kept(model.entries, rid), model.rots[rid], old(model.rots[rid].session.Some?),
                  old(model.rots[rid].stage), key.error)
      ensures key.Success? ==>
        && Owing(rid, KeyGenerated) && events == old(events) + [(rid, KeyGenerated)]
        && model.rots[rid] == old(model.rots[rid]).(made := Some(key.value),
             pc := EmitGenerated, hist := old(model.rots[rid]).hist.(newNow := Some(key.value)))
    {
      hide InHand, Shows, Shown, Cfg, Kept, FirstCompensation, Owing;
      key := Draw(rid, secret, draw);
      if key.Failure? {
        HaltedHere(Cfg(), Kept(model.entries, rid), old(model.rots[rid]), model.rots[rid], key.error);
        return;
      }
      Elapse(rid);
      ghost var r := model.rots[rid];
      var saved := SaveKey(rid, secret, key.value, saveThrows);
      if saved.Failure? {
        HaltedHere(Cfg(), Kept(model.entries, rid), r, model.rots[rid], saved.error);
        return Failure(saved.error);
      }
      Emit(rid, KeyGenerated);
    }

    /** Records the rotation for a rollback, if there is a rollback manager. */
    method RecordEntry(rid: Rid, secret: string, newKey: SecretKey, prevId: Option<string>) returns (recorded: bool)
      requires Owing(rid, KeyGenerated) && model.rots[rid].pc == EmitGenerated && !Kept(model.entries, rid)
      requires var r := model.rots[rid];
        r.secret == secret && r.made == Some(newKey) && r.prevId == prevId && !r.hasEntry
      modifies this`trace, this`model, this`good, rollback
      ensures recorded <==> rollback != null
      ensures recorded ==>
        rollback.entries ==
          PushEntry(old(rollback.entries), Entry(rid, secret, newKey.keyId, prevId, false, false), rollback.maxEntries)
      ensures Running(rid) && model.rotating == old(model.rotating) && good == old(good) && (HasRoom() ==> Watched(rid))
      ensures model.rots[rid] ==
        old(model.rots[rid]).(newKey := Some(newKey), hasEntry := recorded, stage := Propagation, pc := BeginSession)
    {
      hide Tracked, Moves, SameMaps, Rollback.EntryOf, PushEntry;
      ghost var r, v := model.rots[rid], Shown().(events := events[..|events| - 1]);
      ReadyNow(rid, v);
      AtEmitGenerated(Cfg(), model, v, rid, Ok);
      recorded := rollback != null;
      if rollback != null {
        ghost var e := Entry(rid, secret, newKey.keyId, prevId, false, false);
        EntryPushed(rollback.entries, e, rollback.maxEntries);
        var entry := rollback.StartRotation(rid, secret, newKey.keyId, prevId, false);
      }
      Take(rid, Ok, r.(newKey := Some(newKey), hasEntry := recorded, stage := Propagation, pc := BeginSession),
           WithEvent(v, rid, KeyGenerated).(entries := EntriesAfter(Cfg(), v.entries, rid, r, Ok)));
      assert events[..|events| - 1] + [(rid, KeyGenerated)] == events;
    }

    method BeginProviderRotation(rid: Rid, reply: Option<string>) returns (done: Result<(), string>)
      requires Running(rid) && model.rots[rid].pc == BeginSession
      modifies this`trace, this`model, this`good
      ensures Running(rid) && model.rotating == old(model.rotating) && model.entries == old(model.entries)
      ensures (good ==> old(good)) && (old(Watched(rid)) ==> good == old(good))
      ensures done == Answer(reply)
      ensures done.Failure? ==>
        Halts(Cfg(), Kept(model.entries, rid), old(model.rots[rid]), model.rots[rid], done.error)
      ensures done.Success? ==> model.rots[rid] == old(model.rots[rid]).(session := Some(None), pc := StorePending)
    {
      hide Tracked, FirstCompensation, Moves, SameMaps, Rollback.EntryOf, Kept;
      ghost var r := model.rots[rid];
      ReadyNow(rid, Shown());
      if reply.Some? {
        var error := reply.value;
        AtThrow(Cfg(), model, Shown(), rid, error);
        Take(rid, Throw(error), Thrown(Cfg(), Kept(model.entries, rid), r, error), Shown());
        return Failure(error);
      }
      AtBeginSession(Cfg(), model, Shown(), rid);
      Take(rid, Ok, r.(session := Some(None), pc := StorePending), Shown());
      return Success(());
    }

    /** Stores the new material as the pending version, under the id the provider assigns. */
    method StoreSecretValue(rid: Rid, secret: string, key: SecretKey, reply: Option<string>)
      returns (done: Result<Provider.VersionId, string>)
      requires Running(rid) && model.rots[rid].pc == StorePending
      requires model.rots[rid].secret == secret && model.rots[rid].newKey == Some(key)
      modifies this`nextVersion, this`trace, this`model, this`good, provider
      ensures Running(rid) && model.rotating == old(model.rotating) && model.entries == old(model.entries)
      ensures (good ==> old(good)) && (old(Watched(rid)) ==> good == old(good))
      ensures if reply.Some? then done == Failure(reply.value) else done == Success(old(nextVersion))
      ensures provider.Held(secret) ==
        if done.Failure? then old(provider.Held(secret))
        else Provider.StorePending(old(provider.Held(secret)), done.value, key.material)
      ensures done.Failure? ==>
        Halts(Cfg(), Kept(model.entries, rid), old(model.rots[rid]), model.rots[rid], done.error)
      ensures done.Success? ==>
        model.rots[rid] == old(model.rots[rid]).(session := Some(Some(done.value)), pc := EmitPropagated)
    {
      hide Tracked, FirstCompensation, Moves, SameMaps, Rollback.EntryOf, Provider.StorePending, Kept;
      ghost var r := model.rots[rid];
      ReadyNow(rid, Shown());
      var version := nextVersion;
      nextVersion := nextVersion + 1;
      if reply.Some? {
        var error := reply.value;
        AtStoreThrow(Cfg(), model, old(Shown()), rid, error);
        Take(rid, Throw(error), Thrown(Cfg(), Kept(model.entries, rid), r, error), Shown());
        return Failure(error);
      }
      AtStorePending(Cfg(), model, old(Shown()), rid);
      provider.StoreSecretValue(secret, version, key.material, true);
      Take(rid, Ok, r.(session := Some(Some(version)), pc := EmitPropagated), Shown());
      return Success(version);
    }

    method AnnouncePropagated(rid: Rid)
      requires Running(rid) && model.rots[rid].pc == EmitPropagated
      modifies this`events, this`trace, this`model, this`good
      ensures Running(rid) && model.rotating == old(model.rotating) && model.entries == old(model.entries)
      ensures good == old(good) && events == old(events) + [(rid, KeyPropagated)]
      ensures model.rots[rid] == old(model.rots[rid]).(stage := Verification, pc := Verify)
    {
      hide Tracked, FirstCompensation, Moves, SameMaps, Rollback.EntryOf, Kept;
      ghost var r := model.rots[rid];
      ReadyNow(rid, Shown());
      AtEmitPropagated(Cfg(), model, Shown(), rid, Ok);
      Emit(rid, KeyPropagated);
      Take(rid, Ok, r.(stage := Verification, pc := Verify), Shown());
    }

    method PropagateToProvider(rid: Rid, secret: string, key: SecretKey, reply: Option<string>)
      returns (done: Result<Provider.VersionId, string>)
      requires Running(rid) && model.rots[rid].pc == StorePending
      requires model.rots[rid].secret == secret && model.rots[rid].newKey == Some(key)
      modifies this, provider
      ensures Running(rid) && model.rotating == old(model.rotating) && model.entries == old(model.entries)
      ensures (good ==> old(good)) && (old(Watched(rid)) ==> good == old(good))
      ensures old(now) <= now && (done.Success? ==> Pends(provider.Held(secret), key.material))
      ensures if reply.Some? then done == Failure(reply.value) else done.Success?
      ensures done.Failure? ==>
        && events == old(events)
        && Halts(Cfg(), Kept(model.entries, rid), old(model.rots[rid]), model.rots[rid], done.error)
      ensures done.Success? ==>
        && events == old(events) + [(rid, KeyPropagated)]
        && model.rots[rid] ==
             old(model.rots[rid]).(session := Some(Some(done.value)), stage := Verification, pc := Verify)
    {
      hide InHand, Shows, Shown, Cfg, Kept, FirstCompensation, Halts, Find, GetActive;
      done := StoreSecretValue(rid, secret, key, reply);
      if done.Success? {
        Elapse(rid);
        AnnouncePropagated(rid);
      }
    }

    /** The verifier's verdict on the pending version. */
    method Verified(rid: Rid, reply: Option<string>) returns (done: Result<(), string>)
      requires Running(rid) && model.rots[rid].pc == Verify
      modifies this`trace, this`model, this`good
      ensures Running(rid) && model.rotating == old(model.rotating) && model.entries == old(model.entries)
      ensures (good ==> old(good)) && (old(Watched(rid)) ==> good == old(good))
      ensures done == Answer(reply)
      ensures done.Failure? ==>
        Halts(Cfg(), Kept(model.entries, rid), old(model.rots[rid]), model.rots[rid], done.error)
      ensures done.Success? ==> model.rots[rid] == old(model.rots[rid]).(pc := EmitVerified,
        verifiedValue := VerifiedIn(old(Shown()), old(model.rots[rid])))
    {
      hide Tracked, FirstCompensation, Moves, SameMaps, Rollback.EntryOf, VerifiedIn, Kept;
      ghost var r, value := model.rots[rid], VerifiedIn(Shown(), model.rots[rid]);
      ReadyNow(rid, Shown());
      if reply.Some? {
        var error := reply.value;
        AtThrow(Cfg(), model, Shown(), rid, error);
        Take(rid, Throw(error), Thrown(Cfg(), Kept(model.entries, rid), r, error), Shown());
        return Failure(error);
      }
      AtVerify(Cfg(), model, Shown(), rid);
      Take(rid, Ok, r.(pc := EmitVerified, verifiedValue := value), Shown());
      return Success(());
    }

    method AnnounceVerified(rid: Rid)
      requires Running(rid) && model.rots[rid].pc == EmitVerified
      modifies this`events, this`trace, this`model, this`good
      ensures Running(rid) && model.rotating == old(model.rotating) && model.entries == old(model.entries)
      ensures good == old(good) && events == old(events) + [(rid, KeyVerified)]
      ensures model.rots[rid] == old(model.rots[rid]).(stage := Activation, pc := ActivateGet)
    {
      hide Tracked, FirstCompensation, Moves, SameMaps, Rollback.EntryOf, Kept;
      ghost var r := model.rots[rid];
      ReadyNow(rid, Shown());
      AtEmitVerified(Cfg(), model, Shown(), rid, Ok);
      Emit(rid, KeyVerified);
      Take(rid, Ok, r.(stage := Activation, pc := ActivateGet), Shown());
    }

    method VerifyPropagation(rid: Rid, reply: Option<string>) returns (done: Result<(), string>)
      requires Running(rid) && model.rots[rid].pc == Verify
      modifies this`events, this`trace, this`model, this`good
      ensures Running(rid) && model.rotating == old(model.rotating) && model.entries == old(model.entries)
      ensures (good ==> old(good)) && (old(Watched(rid)) ==> good == old(good))
      ensures done == Answer(reply)
      ensures done.Failure? ==>
        && events == old(events)
        && Halts(Cfg(), Kept(model.entries, rid), old(model.rots[rid]), model.rots[rid], done.error)
      ensures done.Success? ==>
        && events == old(events) + [(rid, KeyVerified)]
        && model.rots[rid] == old(model.rots[rid]).(stage := Activation, pc := ActivateGet,
             verifiedValue := VerifiedIn(old(Shown()), old(model.rots[rid])))
    {
      hide InHand, Shows, Shown, Cfg, Kept, FirstCompensation, VerifiedIn, Halts, Find, GetActive;
      done := Verified(rid, reply);
      if done.Success? {
        AnnounceVerified(rid);
      }
    }

    method ActivateNewKey(rid: Rid, secret: string, keyId: string, overlapMs: int, f: Lifecycle.Faults)
      returns (done: Result<(), string>)
      requires Running(rid) && model.rots[rid].pc == ActivateGet && model.rots[rid].newKey.Some?
      requires var r := model.rots[rid]; r.secret == secret && r.newKey.value.keyId == keyId && r.overlapMs == overlapMs
      modifies this`trace, this`model, this`good, store
      ensures Running(rid) && model.rotating == old(model.rotating) && model.entries == old(model.entries)
      ensures (good ==> old(good)) && (old(Watched(rid)) ==> good == old(good))
      ensures done == Answer(ActivationError(old(store.Held(secret)), keyId, f))
      ensures done.Success? ==>
        store.Held(secret) ==
          Lifecycle.Attempt(old(store.Held(secret)), Lifecycle.Op.Activate(keyId, overlapMs), now, f).keys
      ensures done.Failure? ==>
        Halts(Cfg(), Kept(model.entries, rid), old(model.rots[rid]), model.rots[rid], done.error)
      ensures done.Success? ==> Kin(old(model.rots[rid]), model.rots[rid]) && model.rots[rid].pc == CompleteSession
    {
      hide Tracked, FirstCompensation, Moves, SameMaps, Rollback.EntryOf, Lifecycle.Attempt, WithKeys, KeysIn, Kept,
        ActivationError, Find, GetActive, Put, Halts, Kin, Activated, Lifecycle.MovedOut;
      ghost var v := Shown();
      ReadyNow(rid, v);
      LookupsAreHeld();
      var activated := lifecycle.Activate(secret, keyId, overlapMs, now, f);
      ActivationFails(old(store.Held(secret)), keyId, overlapMs, now, f);
      TakeActivate(rid, v, f);
      KeepsItsOwn(Cfg(), Kept(old(model.entries), rid), old(model.rots[rid]), model.rots[rid]);
      ShowsStore(v, secret);
      return if activated.Failure? then Failure(activated.error) else Success(());
    }

    /** Promotes the pending version; its continuation flags the rollback entry. */
    method CompleteProviderRotation(rid: Rid, secret: string, hasEntry: bool, reply: Option<string>)
      returns (done: Result<(), string>)
      requires Running(rid) && model.rots[rid].pc == CompleteSession
      requires model.rots[rid].secret == secret && model.rots[rid].hasEntry == hasEntry
      modifies this`trace, this`model, this`good, provider, rollback
      ensures Running(rid) && model.rotating == old(model.rotating)
      ensures (good ==> old(good)) && (old(Watched(rid)) ==> good == old(good))
      ensures done == Answer(reply)
      ensures provider.Held(secret) ==
        if done.Failure? then old(provider.Held(secret)) else Provider.Complete(old(provider.Held(secret)))
      ensures rollback != null ==>
        rollback.entries ==
          if done.Success? && hasEntry then CompleteEntry(old(rollback.entries), rid) else old(rollback.entries)
      ensures done.Failure? ==>
        Halts(Cfg(), Kept(model.entries, rid), old(model.rots[rid]), model.rots[rid], done.error)
      ensures done.Success? ==> model.rots[rid] == old(model.rots[rid]).(pc := EmitActivated)
    {
      hide Tracked, FirstCompensation, Moves, SameMaps, Rollback.EntryOf, Provider.Complete, Kept;
      ghost var r, v := model.rots[rid], Shown();
      ReadyNow(rid, v);
      if reply.Some? {
        var error := reply.value;
        AtThrow(Cfg(), model, v, rid, error);
        Take(rid, Throw(error), Thrown(Cfg(), Kept(model.entries, rid), r, error), v);
        return Failure(error);
      }
      AtComplete(Cfg(), model, v, rid);
      provider.CompleteRotation(secret);
      if rollback != null && hasEntry {
        EntryCompleted(rollback.entries, rid);
        rollback.MarkComplete(rid);
      }
      Take(rid, Ok, r.(pc := EmitActivated), Shown());
      return Success(());
    }

    // ---- Failure ------------------------------------------------------------------------------

    method ReactivatePreviousKey(secret: string, keyId: string, f: Lifecycle.Faults)
      requires Wired() && lifecycle.Filed(secret)
      modifies store
      ensures store.Held(secret) ==
        Lifecycle.Attempt(old(store.Held(secret)), Lifecycle.Op.Reactivate(keyId), now, f).keys
      ensures forall other :: other != secret ==> store.Held(other) == old(store.Held(other))
      ensures lifecycle.Filed(secret)
    {
      hide Put, Find;
      if f.get {
        return;
      }
      var key := store.Get(secret, keyId);
      if key.None? || key.value.status == Revoked || key.value.status == Failed || f.write {
        return;
      }
      var active := key.value.(status := Active, rotatedAt := Some(now), validUntil := None);
      MembersAfterPut(store.Held(secret), active);
      var updated := store.Update(active);
    }

    /** Compensation through the rollback manager's entry, if it has not been evicted. */
    method UndoByEntry(rid: Rid, secret: string, error: string, f: Rollback.UndoFaults)
      requires Running(rid) && rollback != null && model.rots[rid].hasEntry
      requires model.rots[rid].secret == secret && model.rots[rid].error == error
      requires model.rots[rid].pc == (if Kept(model.entries, rid) then MarkGet else EmitFailed)
      modifies this`trace, this`model, this`good, store, provider
      ensures Running(rid) && model.rotating == old(model.rotating) && Kin(old(model.rots[rid]), model.rots[rid])
      ensures model.rots[rid].pc == EmitFailed && (good ==> old(good)) && (f == NO_UNDO_FAULTS ==> good == old(good))
      ensures provider.Held(secret) == old(provider.Held(secret))
      ensures var r, keys := old(model.rots[rid]), old(store.Held(secret));
        store.Held(secret) ==
          (if Kept(old(model.entries), rid) then Rollback.RolledBack(keys, IdOf(r.newKey), r.prevId, error, now, f)
           else keys)
    {
      hide Tracked, SameMaps, Rollback.EntryOf, Rollback.RolledBack, WithKeys, KeysIn, Lifecycle.Attempt, Find, Kept;
      ghost var v := Shown();
      var entry := rollback.GetEntry(rid);
      if entry.Some? {
        LookupsAreHeld();
        ReadyNow(rid, v);
        var success := rollback.Rollback(entry.value, error, false, now, f);
        TakeUndo(rid, v, f);
        ShowsStore(v, secret);
      }
    }

    method CancelSession(rid: Rid, secret: string, reply: Option<string>)
      requires Running(rid) && model.rots[rid].pc == Pc.CancelSession && model.rots[rid].secret == secret
      modifies this`trace, this`model, this`good, provider
      ensures Running(rid) && model.rotating == old(model.rotating) && good == old(good)
      ensures model.rots[rid] == old(model.rots[rid]).(pc := AfterCancel(old(model.rots[rid])))
      ensures provider.Held(secret) ==
        if reply.Some? then old(provider.Held(secret)) else Provider.Cancel(old(provider.Held(secret)))
    {
      hide Tracked, Moves, SameMaps, Rollback.EntryOf, Provider.Cancel, AfterCancel, Kept;
      ghost var r := model.rots[rid];
      ReadyNow(rid, Shown());
      var o := if reply.Some? then Throw(reply.value) else Ok;
      AtCancel(Cfg(), model, Shown(), rid, o);
      CancelIsGood(rid, o);
      if reply.None? {
        provider.CancelRotation(secret);
      }
      TakeFreely(rid, o, r.(pc := AfterCancel(r)), Shown());
    }

    lemma CancelIsGood(rid: Rid, o: Outcome)
      requires rid in model.rots && model.rots[rid].pc == Pc.CancelSession && Enabled(model, Advance(rid, o))
      ensures GoodStep(model, Advance(rid, o), want)
    {
      hide Kept, Find, Possible;
    }

    /** A call known to be good. */
    ghost method TakeFreely(rid: Rid, o: Outcome, next: Rotation, v: View)
      requires Tracked() && Moves(Cfg(), model, rid, o, next, v) && GoodStep(model, Advance(rid, o), want)
      modifies this`trace, this`model, this`good
      ensures Tracked() && Shows(model, v) && good == old(good)
      ensures model.rots == old(model.rots)[rid := next]
    {
      hide Apply, Run, After, GoodStep, Kept, SameMaps;
      TakeStep(Advance(rid, o));
    }

    method UndoRecords(secret: string, newKey: Option<SecretKey>, prevId: Option<string>, error: string,
                       f: Rollback.UndoFaults)
      requires Wired() && lifecycle.Filed(secret)
      modifies store
      ensures store.Held(secret) == Rollback.RolledBack(old(store.Held(secret)), IdOf(newKey), prevId, error, now, f)
      ensures forall other :: other != secret ==> store.Held(other) == old(store.Held(other))
      ensures lifecycle.Filed(secret)
    {
      hide Lifecycle.Attempt;
      if newKey.Some? {
        var marked := lifecycle.MarkFailed(secret, newKey.value.keyId, error, now, f.mark);
      }
      if prevId.Some? && prevId.value != "" {
        ReactivatePreviousKey(secret, prevId.value, f.reactivate);
      }
    }

    /** Compensation in `handleFailure` itself. */
    method UndoInline(rid: Rid, secret: string, session: bool, newKey: Option<SecretKey>, prevId: Option<string>,
                      error: string, cancel: Option<string>, f: Rollback.UndoFaults)
      requires Running(rid) && model.rots[rid].secret == secret && model.rots[rid].error == error
      requires var r := model.rots[rid]; r.session.Some? == session && r.newKey == newKey && r.prevId == prevId
      requires model.rots[rid].pc == (if session then Pc.CancelSession else AfterCancel(model.rots[rid]))
      modifies this`trace, this`model, this`good, store, provider
      ensures Running(rid) && model.rotating == old(model.rotating) && Kin(old(model.rots[rid]), model.rots[rid])
      ensures model.rots[rid].pc == EmitFailed && (good ==> old(good)) && (f == NO_UNDO_FAULTS ==> good == old(good))
      ensures provider.Held(secret) ==
        if session && cancel == None then Provider.Cancel(old(provider.Held(secret))) else old(provider.Held(secret))
      ensures store.Held(secret) == Rollback.RolledBack(old(store.Held(secret)), IdOf(newKey), prevId, error, now, f)
    {
      hide InHand, Shows, Rollback.RolledBack, AfterCancel, Kept;
      if session {
        CancelSession(rid, secret, cancel);
        AfterCancelIgnores(old(model.rots[rid]), model.rots[rid]);
      }
      ghost var r := model.rots[rid];
      UndoAll(rid, secret, newKey, prevId, error, f);
      assert Kin(old(model.rots[rid]), model.rots[rid]) by {
        assert Kin(r, model.rots[rid]);
      }
    }

    method UndoAll(rid: Rid, secret: string, newKey: Option<SecretKey>, prevId: Option<string>, error: string,
                   f: Rollback.UndoFaults)
      requires Running(rid) && model.rots[rid].secret == secret && model.rots[rid].error == error
      requires model.rots[rid].newKey == newKey && model.rots[rid].prevId == prevId
      requires model.rots[rid].pc == AfterCancel(model.rots[rid])
      modifies this`trace, this`model, this`good, store
      ensures Running(rid) && model.rotating == old(model.rotating) && Kin(old(model.rots[rid]), model.rots[rid])
      ensures model.rots[rid].pc == EmitFailed && (good ==> old(good)) && (f == NO_UNDO_FAULTS ==> good == old(good))
      ensures store.Held(secret) == Rollback.RolledBack(old(store.Held(secret)), IdOf(newKey), prevId, error, now, f)
    {
      hide Tracked, SameMaps, Rollback.EntryOf, Rollback.RolledBack, WithKeys, KeysIn, AfterCancel, Kept;
      ghost var v := Shown();
      LookupsAreHeld();
      ReadyNow(rid, v);
      UndoRecords(secret, newKey, prevId, error, f);
      TakeUndo(rid, v, f);
      ShowsStore(v, secret);
    }

    /**
     * Compensates and reports.  With and without a rollback manager the records end up the same: the new key, if
     * there is one, marked failed and the previous one, if there was one, reactivated, as far as the store lets
     * it; but if the rollback manager has evicted the entry they stay as they are.
     */
    method HandleFailure(rid: Rid, secret: string, session: bool, newKey: Option<SecretKey>, error: string,
                         stage: RotationStage, prevId: Option<string>, hasEntry: bool, cancel: Option<string>,
                         f: Rollback.UndoFaults)
      requires Running(rid) && model.rots[rid].secret == secret
      requires var r := model.rots[rid];
        && r.newKey == newKey && r.prevId == prevId && r.hasEntry == hasEntry
        && Halted(Cfg(), Kept(model.entries, rid), r, session, stage, error)
      modifies this`events, this`trace, this`model, this`good, store, provider
      ensures Running(rid) && model.rotating == old(model.rotating) && Kin(old(model.rots[rid]), model.rots[rid])
      ensures model.rots[rid].pc == Unwind(false) && events == old(events) + [(rid, RotationFailed(stage))]
      ensures (good ==> old(good)) && (f == NO_UNDO_FAULTS ==> good == old(good))
      ensures provider.Held(secret) ==
        if !hasEntry && session && cancel == None then Provider.Cancel(old(provider.Held(secret)))
        else old(provider.Held(secret))
      ensures store.Held(secret) ==
        if hasEntry && !Kept(old(model.entries), rid) then old(store.Held(secret))
        else Rollback.RolledBack(old(store.Held(secret)), IdOf(newKey), prevId, error, old(now), f)
    {
      hide InHand, Shows, Rollback.RolledBack, Kept;
      if hasEntry {
        EntryNeedsManager(rid);
      }
      if rollback != null && hasEntry {
        UndoByEntry(rid, secret, error, f);
      } else {
        UndoInline(rid, secret, session, newKey, prevId, error, cancel, f);
      }
      ReportFailure(rid, stage);
    }

    lemma EntryNeedsManager(rid: Rid)
      requires Running(rid) && model.rots[rid].hasEntry
      ensures rollback != null
    {
      hide Tracked, SameMaps, EntryFits;
    }

    method ReportFailure(rid: Rid, stage: RotationStage)
      requires Running(rid) && model.rots[rid].pc == EmitFailed && model.rots[rid].stage == stage
      modifies this`events, this`trace, this`model, this`good
      ensures Running(rid) && model.rotating == old(model.rotating) && good == old(good)
      ensures model.rots[rid] == old(model.rots[rid]).(pc := Unwind(false))
      ensures events == old(events) + [(rid, RotationFailed(stage))]
    {
      hide Tracked, Moves, SameMaps, Rollback.EntryOf, Kept;
      ghost var r := model.rots[rid];
      ReadyNow(rid, Shown());
      AtEmitFailed(Cfg(), model, Shown(), rid, Ok);
      Emit(rid, RotationFailed(stage));
      Take(rid, Ok, r.(pc := Unwind(false)), Shown());
    }

    // ---- The whole rotation -------------------------------------------------------------------

    method ReportSuccess(rid: Rid)
      requires Running(rid) && model.rots[rid].pc == EmitActivated
      modifies this`events, this`trace, this`model, this`good
      ensures Running(rid) && model.rotating == old(model.rotating) && good == old(good)
      ensures model.rots[rid] == old(model.rots[rid]).(pc := Unwind(true))
      ensures events == old(events) + [(rid, KeyActivated)]
    {
      hide Tracked, Moves, SameMaps, Rollback.EntryOf, Kept;
      ghost var r := model.rots[rid];
      ReadyNow(rid, Shown());
      AtEmitActivated(Cfg(), model, Shown(), rid, Ok);
      Emit(rid, KeyActivated);
      Take(rid, Ok, r.(pc := Unwind(true)), Shown());
    }

    /** A session is opened and the new version staged. */
    method Stage(rid: Rid, secret: string, key: SecretKey, replies: Replies)
      returns (done: Result<(), string>, session: bool)
      requires Running(rid) && model.rots[rid].pc == BeginSession && model.rots[rid].session.None?
      requires var r := model.rots[rid]; r.secret == secret && r.newKey == Some(key) && r.stage == Propagation
      modifies this, provider
      ensures Running(rid) && model.rotating == old(model.rotating) && model.entries == old(model.entries)
      ensures Grows(old(model.rots[rid]), model.rots[rid])
      ensures (good ==> old(good)) && (old(Watched(rid)) ==> good == old(good))
      ensures old(now) <= now && (done.Success? ==> Pends(provider.Held(secret), key.material))
      ensures done == Answer(if replies.begin.Some? then replies.begin else replies.store)
      ensures done.Failure? ==>
        Halted(Cfg(), Kept(model.entries, rid), model.rots[rid], session, Propagation, done.error)
        && events == old(events)
      ensures done.Success? ==>
        && model.rots[rid].pc == Verify && model.rots[rid].session.Some? && session
        && model.rots[rid].stage == Verification && events == old(events) + [(rid, KeyPropagated)]
        && model.rots[rid].overlapMs == old(model.rots[rid]).overlapMs
    {
      hide InHand, Shows, Shown, Cfg, Kept, FirstCompensation, Halts, Halted, Find, GetActive;
      session := false;
      done := BeginProviderRotation(rid, replies.begin);
      if done.Failure? {
        HaltedHere(Cfg(), Kept(model.entries, rid), old(model.rots[rid]), model.rots[rid], done.error);
        return;
      }
      session := true;
      Elapse(rid);
      ghost var r := model.rots[rid];
      var propagated := PropagateToProvider(rid, secret, key, replies.store);
      if propagated.Failure? {
        HaltedHere(Cfg(), Kept(model.entries, rid), r, model.rots[rid], propagated.error);
        done := Failure(propagated.error);
      }
    }

    /** The provider's part: from the open key to the closed session, or to the first failure. */
    method Deliver(rid: Rid, secret: string, key: SecretKey, overlapMs: int, hasEntry: bool, f: Lifecycle.Faults,
                   replies: Replies)
      returns (done: Result<(), string>, session: bool, stage: RotationStage, ghost at: Time)
      requires Running(rid) && model.rots[rid].pc == BeginSession && model.rots[rid].session.None?
      requires var r := model.rots[rid];
        && r.secret == secret && r.overlapMs == overlapMs && r.newKey == Some(key) && r.stage == Propagation
        && r.hasEntry == hasEntry
      modifies this, store, provider, rollback
      ensures Running(rid) && model.rotating == old(model.rotating) && Grows(old(model.rots[rid]), model.rots[rid])
      ensures (good ==> old(good)) && (old(Watched(rid)) ==> good == old(good))
      ensures old(now) <= now
      ensures done.Success? ==>
        && old(now) <= at <= now
        && store.Held(secret) ==
             Lifecycle.Attempt(old(store.Held(secret)), Lifecycle.Op.Activate(key.keyId, overlapMs), at, f).keys
      ensures done.Success? ==> Provider.CurrentValue(provider.Held(secret)) == Some(key.material)
      ensures var failing := DeliveryFailure(replies, ActivationError(old(store.Held(secret)), key.keyId, f));
        && done == (if failing.Some? then Failure(failing.value.error) else Success(()))
        && (failing.Some? ==> stage == failing.value.stage)
        && events == old(events) + Delivered(rid, failing)
      ensures done.Failure? ==> Halted(Cfg(), Kept(model.entries, rid), model.rots[rid], session, stage, done.error)
      ensures done.Success? ==> model.rots[rid].pc == EmitActivated
    {
      hide InHand, Shows, Shown, Cfg, Kept, FirstCompensation, Halted, Find, GetActive, ActivationError;
      stage := Propagation;
      at := now;
      done, session := Stage(rid, secret, key, replies);
      if done.Success? {
        stage := Verification;
        Elapse(rid);
        done, stage, at := Confirm(rid, secret, key.keyId, overlapMs, hasEntry, f, replies);
      }
    }

    method Conclude(rid: Rid, secret: string, keyId: string, overlapMs: int, hasEntry: bool, f: Lifecycle.Faults,
                    complete: Option<string>)
      returns (done: Result<(), string>, ghost at: Time)
      requires Running(rid) && model.rots[rid].pc == ActivateGet && model.rots[rid].session.Some?
      requires model.rots[rid].newKey.Some?
      requires var r := model.rots[rid];
        && r.secret == secret && r.overlapMs == overlapMs && r.newKey.value.keyId == keyId && r.stage == Activation
        && r.hasEntry == hasEntry
      modifies this`now, this`trace, this`model, this`good, store, provider, rollback
      ensures Running(rid) && model.rotating == old(model.rotating) && Grows(old(model.rots[rid]), model.rots[rid])
      ensures (good ==> old(good)) && (old(Watched(rid)) ==> good == old(good))
      ensures old(now) <= now
      ensures done.Success? ==>
        && old(now) <= at <= now
        && store.Held(secret) ==
             Lifecycle.Attempt(old(store.Held(secret)), Lifecycle.Op.Activate(keyId, overlapMs), at, f).keys
      ensures done.Success? ==>
        forall material ::
          old(Pends(provider.Held(secret), material)) ==>
            Provider.CurrentValue(provider.Held(secret)) == Some(material)
      ensures var activation := ActivationError(old(store.Held(secret)), keyId, f);
        done == Answer(if activation.Some? then activation else complete)
      ensures done.Failure? ==> Halted(Cfg(), Kept(model.entries, rid), model.rots[rid], true, Activation, done.error)
      ensures done.Success? ==> model.rots[rid].pc == EmitActivated
    {
      hide InHand, Shows, Shown, Cfg, Kept, FirstCompensation, Halts, Halted, Find, GetActive, ActivationError;
      at := now;
      done := ActivateNewKey(rid, secret, keyId, overlapMs, f);
      if done.Failure? {
        HaltedHere(Cfg(), Kept(model.entries, rid), old(model.rots[rid]), model.rots[rid], done.error);
        return;
      }
      Elapse(rid);
      ghost var r := model.rots[rid];
      forall material | Pends(provider.Held(secret), material) {
        CompletingServes(provider.Held(secret), material);
      }
      done := CompleteProviderRotation(rid, secret, hasEntry, complete);
      if done.Failure? {
        HaltedHere(Cfg(), Kept(model.entries, rid), r, model.rots[rid], done.error);
      }
    }

    /** From the propagated version on: verification, activation, completion. */
    method Confirm(rid: Rid, secret: string, keyId: string, overlapMs: int, hasEntry: bool, f: Lifecycle.Faults,
                   replies: Replies)
      returns (done: Result<(), string>, stage: RotationStage, ghost at: Time)
      requires Running(rid) && model.rots[rid].pc == Verify && model.rots[rid].session.Some?
      requires model.rots[rid].newKey.Some?
      requires var r := model.rots[rid];
        && r.secret == secret && r.overlapMs == overlapMs && r.newKey.value.keyId == keyId && r.stage == Verification
        && r.hasEntry == hasEntry
      modifies this, store, provider, rollback
      ensures Running(rid) && model.rotating == old(model.rotating) && Grows(old(model.rots[rid]), model.rots[rid])
      ensures (good ==> old(good)) && (old(Watched(rid)) ==> good == old(good))
      ensures old(now) <= now
      ensures done.Success? ==>
        && old(now) <= at <= now
        && store.Held(secret) ==
             Lifecycle.Attempt(old(store.Held(secret)), Lifecycle.Op.Activate(keyId, overlapMs), at, f).keys
      ensures done.Success? ==>
        forall material ::
          old(Pends(provider.Held(secret), material)) ==>
            Provider.CurrentValue(provider.Held(secret)) == Some(material)
      ensures
        var failing := DeliveryFailure(replies.(begin := None, store := None),
                                       ActivationError(old(store.Held(secret)), keyId, f));
        && done == (if failing.Some? then Failure(failing.value.error) else Success(()))
        && (failing.Some? ==> stage == failing.value.stage)
        && events == old(events) +
             if failing.Some? && failing.value.stage == Verification then [] else [(rid, KeyVerified)]
      ensures done.Failure? ==> Halted(Cfg(), Kept(model.entries, rid), model.rots[rid], true, stage, done.error)
      ensures done.Success? ==> model.rots[rid].pc == EmitActivated
    {
      hide InHand, Shows, Shown, Cfg, Kept, FirstCompensation, VerifiedIn, Halts, Halted, Find, GetActive,
        ActivationError;
      stage := Verification;
      at := now;
      done := VerifyPropagation(rid, replies.verify);
      if done.Failure? {
        HaltedHere(Cfg(), Kept(model.entries, rid), old(model.rots[rid]), model.rots[rid], done.error);
        return;
      }
      stage := Activation;
      Elapse(rid);
      done, at := Conclude(rid, secret, keyId, overlapMs, hasEntry, f, replies.complete);
    }

    /** From the start to a recorded key, or to a failing read, generator or save. */
    method Prepare(rid: Rid, secret: string, ghost overlapMs: int, draw: Outcome, readThrows: bool, saveThrows: bool)
      returns (key: Result<SecretKey, string>, prevId: Option<string>, hasEntry: bool)
      requires Running(rid) && Begins(model.rots[rid], secret, overlapMs)
      requires !draw.Ok? && FreshMade(draw, model.usedIds) && !Kept(model.entries, rid)
      modifies this, store, rollback
      ensures Running(rid) && model.rotating == old(model.rotating) && Goes(old(model.rots[rid]), model.rots[rid])
      ensures good == old(good) && (key.Success? && HasRoom() ==> Watched(rid))
      ensures model.rots[rid].secret == secret
      ensures model.rots[rid].prevId == prevId && model.rots[rid].hasEntry == hasEntry
      ensures key.Failure? <==> readThrows || draw.Throw? || saveThrows
      ensures key.Failure? ==> key.error == if !readThrows && draw.Throw? then draw.error else Lifecycle.UNAVAILABLE
      ensures key.Success? ==>
        && old(now) <= key.value.createdAt <= now && key.value == NewKey(secret, draw, key.value.createdAt)
        && store.Held(secret) == Put(old(store.Held(secret)), key.value)
      ensures key.Failure? ==>
        && events == old(events) && model.rots[rid].newKey.None?
        && Halted(Cfg(), Kept(model.entries, rid), model.rots[rid], false, Generation, key.error)
      ensures key.Success? ==>
        && events == old(events) + [(rid, KeyGenerated)]
        && model.rots[rid].pc == BeginSession && model.rots[rid].newKey == Some(key.value)
        && model.rots[rid].session.None? && model.rots[rid].stage == Propagation
        && model.rots[rid].overlapMs == overlapMs
    {
      hide InHand, Shows, Shown, Cfg, Kept, FirstCompensation, Halts, Watched;
      hasEntry := false;
      prevId := None;
      var previous := ReadPrevious(rid, secret, readThrows);
      if previous.Failure? {
        HaltedHere(Cfg(), Kept(model.entries, rid), old(model.rots[rid]), model.rots[rid], previous.error);
        return Failure(previous.error), prevId, hasEntry;
      }
      prevId := previous.value;
      Elapse(rid);
      key := GenerateKey(rid, secret, draw, saveThrows);
      if key.Success? {
        hasEntry := RecordEntry(rid, secret, key.value, prevId);
      }
    }

    /** The rest of a rotation whose key is recorded: delivery, and the report of how it went. */
    method Finish(rid: Rid, secret: string, key: SecretKey, prevId: Option<string>, overlapMs: int, hasEntry: bool,
                  f: StoreFaults, replies: Replies)
      returns (result: Result<string, string>, ghost at: Time)
      requires Running(rid) && model.rots[rid].pc == BeginSession && model.rots[rid].session.None?
      requires var r := model.rots[rid];
        && r.secret == secret && r.overlapMs == overlapMs && r.newKey == Some(key) && r.stage == Propagation
        && r.hasEntry == hasEntry && r.prevId == prevId
      modifies this, store, provider, rollback
      ensures Running(rid) && model.rotating == old(model.rotating) && Goes(old(model.rots[rid]), model.rots[rid])
      ensures model.rots[rid].pc == Unwind(result.Success?) && model.rots[rid].newKey == Some(key)
      ensures (good ==> old(good)) && (old(Watched(rid)) && f.undo == NO_UNDO_FAULTS ==> good == old(good))
      ensures old(now) <= now
      ensures result.Success? ==>
        && ActivationError(old(store.Held(secret)), key.keyId, f.activate) == None
        && old(now) <= at <= now && Provider.CurrentValue(provider.Held(secret)) == Some(key.material)
        && store.Held(secret) ==
             Lifecycle.Attempt(old(store.Held(secret)), Lifecycle.Op.Activate(key.keyId, overlapMs), at,
                               f.activate).keys
      ensures var failing := DeliveryFailure(replies, ActivationError(old(store.Held(secret)), key.keyId, f.activate));
        && result == (if failing.Some? then Failure(failing.value.error) else Success(key.keyId))
        && events == old(events) + Delivered(rid, failing) + [(rid, Closing(failing))]
    {
      hide InHand, Shows, Shown, Cfg, Kept, FirstCompensation, Watched, HasRoom, Rollback.RolledBack, Find,
        GetActive, Update, Halted, HasActive, ActivationError, DeliveryFailure, Delivered;
      var done, session, stage, delivered := Deliver(rid, secret, key, overlapMs, hasEntry, f.activate, replies);
      at := delivered;
      if done.Failure? {
        Elapse(rid);
        HandleFailure(rid, secret, session, Some(key), done.error, stage, prevId, hasEntry, replies.cancel, f.undo);
        return Failure(done.error), at;
      }
      NothingFails(replies, ActivationError(old(store.Held(secret)), key.keyId, f.activate));
      ReportSuccess(rid);
      return Success(key.keyId), at;
    }

    /**
     * One rotation from start to end.  It succeeds exactly if none of its calls fails before compensation, and then has
     * announced all four stages; else it ends with the error of the first failing call and has announced the
     * stages before that one and its failure.  It leaves the machine where `rotate` unwinds.  The run stays good if
     * the store never throws in compensation and the rollback manager has room for an entry.
     */
    method Execute(rid: Rid, secret: string, overlapMs: int, draw: Outcome, replies: Replies, f: StoreFaults)
      returns (result: Result<string, string>)
      requires Running(rid) && Begins(model.rots[rid], secret, overlapMs) && !Kept(model.entries, rid)
      requires !draw.Ok? && FreshMade(draw, model.usedIds)
      modifies this, store, provider, rollback
      ensures Running(rid) && model.rotating == old(model.rotating) && Goes(old(model.rots[rid]), model.rots[rid])
      ensures model.rots[rid].pc == Unwind(result.Success?)
      ensures (good ==> old(good)) && (HasRoom() && f.undo == NO_UNDO_FAULTS ==> good == old(good))
      ensures result.Success? ==>
        && draw.Made? && model.rots[rid].newKey.Some? && result.value == draw.keyId
        && model.rots[rid].newKey.value.keyId == draw.keyId && model.rots[rid].newKey.value.material == draw.material
      ensures result.Success? ==> Provider.CurrentValue(provider.Held(secret)) == Some(draw.material)
      ensures result.Success? && draw.keyId !in Ids(old(store.Held(secret))) ==>
        Replaces(old(store.Held(secret)), store.Held(secret), secret, draw, overlapMs, old(now), now)
      ensures (draw.Made? ==> draw.keyId !in Ids(old(store.Held(secret)))) ==>
        var failing := FirstFailure(draw, replies, f, HasActive(old(store.Held(secret))));
        && result == (if failing.Some? then Failure(failing.value.error) else Success(draw.keyId))
        && events == old(events) + Tagged(rid,
             Announced(if failing.Some? then failing.value.stage else Activation) + [Closing(failing)])
    {
      hide InHand, Shows, Shown, Cfg, Kept, FirstCompensation, Watched, HasRoom, Rollback.RolledBack, Find,
        GetActive, Update, Halted, HasActive, Ids, Put, ActivationError, DeliveryFailure, Delivered, Tagged, Announced,
        Closing, FirstFailure, Replaces, Lifecycle.Attempt, Halts, Goes, Kin,
        Begins, FreshMade, IdOf;
      ghost var keys := store.Held(secret);
      var key, prevId, hasEntry := Prepare(rid, secret, overlapMs, draw, f.read, f.save);
      ghost var prepared := model.rots[rid];
      if key.Failure? {
        HandleFailure(rid, secret, false, None, key.error, Generation, prevId, hasEntry, replies.cancel, f.undo);
        GoesOn(old(model.rots[rid]), prepared, model.rots[rid]);
        FailedAtOnce(rid, draw, replies, f, HasActive(keys));
        return Failure(key.error);
      }
      if key.value.keyId !in Ids(keys) {
        FailsInDelivery(rid, draw, replies, f, keys, key.value);
      }
      ghost var at;
      result, at := Finish(rid, secret, key.value, prevId, overlapMs, hasEntry, f, replies);
      GoesOn(old(model.rots[rid]), prepared, model.rots[rid]);
      if result.Success? && key.value.keyId !in Ids(keys) {
        ActivationReplaces(keys, secret, draw, key.value.createdAt, overlapMs, at, f.activate, old(now), now);
      }
    }
  }
}
