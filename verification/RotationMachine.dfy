/**
 * The rotation protocol as a step machine: any number of `rotate` calls in flight over any secrets,
 * one step per `await`, and any call may fail.  A rotation only touches its own secret's slice of the
 * key store and of the provider, so a step is a function on that slice; the machine applies it in place.
 */
module RotationMachine {
  import opened Wrappers
  import opened KeyModel
  import Provider = StagedProvider

  // ---- One rotation ---------------------------------------------------------------------------

  type Rid = nat

  datatype RotationStage = Generation | Propagation | Verification | Activation

  datatype Event = KeyGenerated | KeyPropagated | KeyVerified | KeyActivated | RotationFailed(stage: RotationStage)

  /** The call a rotation is about to make. */
  datatype Pc =
    | ReadPrevious | Generate | SaveKey | EmitGenerated
    | BeginSession | StorePending | EmitPropagated
    | Verify | EmitVerified
    | ActivateGet | ActivateGetActive | ActivateExpire | ActivateUpdate
    | CompleteSession | EmitActivated
    | CancelSession | MarkGet | MarkUpdate | ReactivateGet | ReactivateUpdate | EmitFailed
    | Unwind(success: bool)
    | Done(success: bool)

  /** What proofs remember about a rotation; no step reads it. */
  datatype History = History(
    begin: Keys,                    // the secret's records when the rotation started
    prevNow: Option<SecretKey>,     // the previous key as this rotation last wrote it
    prevAt: Time,                   // when it wrote that
    newNow: Option<SecretKey>)      // the new key as this rotation last wrote it

  datatype Rotation = Rotation(
    secret: string,
    overlapMs: int,
    pc: Pc,
    stage: RotationStage,
    prevId: Option<string>,
    made: Option<SecretKey>,        // returned by the generator
    newKey: Option<SecretKey>,      // assigned once `generateKey` has returned
    hasEntry: bool,                 // `rollbackEntryId` is set
    session: Option<Option<Provider.VersionId>>,
    seen: Option<SecretKey>,        // the record the last `get` returned
    seenActive: Option<SecretKey>,  // what `getActive` returned inside `activate`
    error: string,
    verifiedValue: Option<string>,  // for proofs: what the verified provider version held
    hist: History)

  /** How the awaited call ends. */
  datatype Outcome =
    | Ok
    | Made(keyId: string, material: string, format: Format, metadata: map<string, Meta>)
    | Throw(error: string)

  /** The records and the provider versions of one secret. */
  datatype Slice = Slice(keys: Keys, prov: Provider.Secret)

  /** `rollback` is None without a rollback manager, else its `maxEntries`. */
  datatype Config = Config(rollback: Option<int>)

  datatype Local = Local(slice: Slice, r: Rotation, emitted: Option<Event>)

  // ---- Failure dispatch -----------------------------------------------------------------------

  predicate FailurePath(pc: Pc) {
    || pc.CancelSession? || pc.MarkGet? || pc.MarkUpdate?
    || pc.ReactivateGet? || pc.ReactivateUpdate? || pc.EmitFailed?
  }

  predicate Ending(pc: Pc) {
    FailurePath(pc) || pc.Unwind? || pc.Done?
  }

  /** An empty key id is falsy, so it is never reactivated. */
  predicate HasPrevious(r: Rotation) {
    r.prevId.Some? && r.prevId.value != ""
  }

  function AfterMark(r: Rotation): (pc: Pc)
    ensures FailurePath(pc)
  {
    if HasPrevious(r) then ReactivateGet else EmitFailed
  }

  function AfterCancel(r: Rotation): (pc: Pc)
    ensures FailurePath(pc)
  {
    if r.newKey.Some? then MarkGet else AfterMark(r)
  }

  /** Where `handleFailure` goes: an evicted entry means no compensation at all. */
  function FirstCompensation(cfg: Config, kept: bool, r: Rotation): (pc: Pc)
    ensures FailurePath(pc)
  {
    if cfg.rollback.Some? && r.hasEntry then (if kept then MarkGet else EmitFailed)
    else if r.session.Some? then CancelSession
    else AfterCancel(r)
  }

  function Fail(cfg: Config, kept: bool, sl: Slice, r: Rotation, error: string): Local {
    Local(sl, r.(error := error, pc := FirstCompensation(cfg, kept, r)), None)
  }

  // ---- The step -------------------------------------------------------------------------------

  /** The generator's record: pending, valid from now on, open-ended. */
  function NewKey(secret: string, o: Outcome, now: Time): SecretKey
    requires o.Made?
  {
    SecretKey(o.keyId, secret, o.material, o.format, now, None, Pending, now, None, None, Some(o.metadata))
  }

  predicate Possible(r: Rotation, o: Outcome) {
    match r.pc
    case Generate => !o.Ok?
    case Unwind(_) => o.Ok?
    case Done(_) => false
    case _ => !o.Made?
  }

  /** A store write of the new key (`isNew`) or of the previous one, then `next`; a throw fails over to `fail`. */
  function WriteKey(now: Time, sl: Slice, r: Rotation, o: Outcome, key: SecretKey, isNew: bool, next: Pc,
                    fail: Local): Local
  {
    if o.Throw? || Update(sl.keys, key).Failure? then fail
    else
      var hist := if isNew then r.hist.(newNow := Some(key)) else r.hist.(prevNow := Some(key), prevAt := now);
      Local(sl.(keys := Put(sl.keys, key)), r.(pc := next, hist := hist), None)
  }

  /** The calls inside the `try` of `execute`: each either moves on or fails over. */
  function Progress(cfg: Config, now: Time, nextVersion: Provider.VersionId, kept: bool,
                    sl: Slice, r: Rotation, o: Outcome): Local
    requires Possible(r, o) && !Ending(r.pc)
  {
    var failed := Fail(cfg, kept, sl, r, if o.Throw? then o.error else "Key not found");
    match r.pc
    // execute, generateKey
    case ReadPrevious =>
      if o.Throw? then failed
      else
        var active := GetActive(sl.keys);
        Local(sl, r.(prevId := if active.Some? then Some(active.value.keyId) else None, pc := Generate), None)
    case Generate =>
      if o.Throw? then failed else Local(sl, r.(made := Some(NewKey(r.secret, o, now)), pc := SaveKey), None)
    case SaveKey =>
      if o.Throw? || r.made.None? then failed
      else Local(sl.(keys := Put(sl.keys, r.made.value)),
                 r.(pc := EmitGenerated, hist := r.hist.(newNow := r.made)), None)
    case EmitGenerated =>
      Local(sl, r.(newKey := r.made, hasEntry := cfg.rollback.Some?, stage := Propagation, pc := BeginSession),
            Some(KeyGenerated))
    // beginProviderRotation, propagateToProvider
    case BeginSession =>
      if o.Throw? then failed else Local(sl, r.(session := Some(None), pc := StorePending), None)
    case StorePending =>
      if o.Throw? || r.newKey.None? then failed
      else Local(sl.(prov := Provider.StorePending(sl.prov, nextVersion, r.newKey.value.material)),
                 r.(session := Some(Some(nextVersion)), pc := EmitPropagated), None)
    case EmitPropagated =>
      Local(sl, r.(stage := Verification, pc := Verify), Some(KeyPropagated))
    // verifyPropagation
    case Verify =>
      if o.Throw? then failed
      else
        var value :=
          if r.session.Some? && r.session.value.Some? then Provider.ValueOf(sl.prov, r.session.value.value) else None;
        Local(sl, r.(pc := EmitVerified, verifiedValue := value), None)
    case EmitVerified =>
      Local(sl, r.(stage := Activation, pc := ActivateGet), Some(KeyVerified))
    // KeyLifecycleManager.activate
    case ActivateGet =>
      var found := if r.newKey.Some? then Find(sl.keys, r.newKey.value.keyId) else None;
      if o.Throw? || found.None? then failed
      else if found.value.status != Pending then Fail(cfg, kept, sl, r, "Cannot activate key")
      else Local(sl, r.(seen := found, pc := ActivateGetActive), None)
    case ActivateGetActive =>
      if o.Throw? then failed
      else
        var active := GetActive(sl.keys);
        Local(sl, r.(seenActive := active, pc := if active.Some? then ActivateExpire else ActivateUpdate), None)
    case ActivateExpire =>
      if r.seenActive.None? then failed
      else WriteKey(now, sl, r, o, ExpiredBy(r.seenActive.value, now, r.overlapMs), false, ActivateUpdate, failed)
    case ActivateUpdate =>
      if r.seen.None? then failed
      else WriteKey(now, sl, r, o, Activated(r.seen.value, now), true, CompleteSession, failed)
    // completeProviderRotation
    case CompleteSession =>
      if o.Throw? then failed
      else Local(sl.(prov := Provider.Complete(sl.prov)), r.(pc := EmitActivated), None)
    case EmitActivated =>
      Local(sl, r.(pc := Unwind(true)), Some(KeyActivated))
  }

  /** `handleFailure` and `RollbackManager.rollback`, where no failure stops the rest; and the way out. */
  function Compensation(now: Time, sl: Slice, r: Rotation, o: Outcome): Local
    requires Possible(r, o) && Ending(r.pc)
  {
    match r.pc
    case CancelSession =>
      Local(if o.Throw? then sl else sl.(prov := Provider.Cancel(sl.prov)), r.(pc := AfterCancel(r)), None)
    case MarkGet =>
      var skip := Local(sl, r.(pc := AfterMark(r)), None);
      var found := if r.newKey.Some? then Find(sl.keys, r.newKey.value.keyId) else None;
      if o.Throw? || found.None? || Terminal(found.value.status) then skip
      else Local(sl, r.(seen := found, pc := MarkUpdate), None)
    case MarkUpdate =>
      var skip := Local(sl, r.(pc := AfterMark(r)), None);
      if r.seen.None? then skip
      else WriteKey(now, sl, r, o, MarkedFailed(r.seen.value, now, r.error), true, AfterMark(r), skip)
    case ReactivateGet =>
      var skip := Local(sl, r.(pc := EmitFailed), None);
      var found := if r.prevId.Some? then Find(sl.keys, r.prevId.value) else None;
      if o.Throw? || found.None? || Terminal(found.value.status) then skip
      else Local(sl, r.(seen := found, pc := ReactivateUpdate), None)
    case ReactivateUpdate =>
      var skip := Local(sl, r.(pc := EmitFailed), None);
      if r.seen.None? then skip
      else WriteKey(now, sl, r, o, Reactivated(r.seen.value, now), false, EmitFailed, skip)
    case EmitFailed =>
      Local(sl, r.(pc := Unwind(false)), Some(RotationFailed(r.stage)))
    // the `finally` of RotationManager.rotate
    case Unwind(success) =>
      Local(sl, r.(pc := Done(success)), None)
    case Done(_) => Local(sl, r, None)
  }

  function StepLocal(cfg: Config, now: Time, nextVersion: Provider.VersionId, kept: bool,
                     sl: Slice, r: Rotation, o: Outcome): Local
    requires Possible(r, o)
  {
    if Ending(r.pc) then Compensation(now, sl, r, o) else Progress(cfg, now, nextVersion, kept, sl, r, o)
  }

  /** The record the call stores, if it stores one. */
  function WriteOf(now: Time, keys: Keys, r: Rotation, o: Outcome): Option<SecretKey> {
    if o.Throw? then None
    else
      match r.pc
      case SaveKey => r.made
      case ActivateExpire =>
        if r.seenActive.Some? then IfStored(keys, ExpiredBy(r.seenActive.value, now, r.overlapMs)) else None
      case ActivateUpdate => if r.seen.Some? then IfStored(keys, Activated(r.seen.value, now)) else None
      case MarkUpdate => if r.seen.Some? then IfStored(keys, MarkedFailed(r.seen.value, now, r.error)) else None
      case ReactivateUpdate => if r.seen.Some? then IfStored(keys, Reactivated(r.seen.value, now)) else None
      case _ => None
  }

  /** `update` refuses a record that is not stored. */
  function IfStored(keys: Keys, key: SecretKey): Option<SecretKey> {
    if Find(keys, key.keyId).Some? then Some(key) else None
  }

  function Stored(keys: Keys, write: Option<SecretKey>): Keys {
    if write.Some? then Put(keys, write.value) else keys
  }

  // ---- The whole system -----------------------------------------------------------------------

  datatype Entry = Entry(id: Rid, secret: string, newKeyId: string, prevId: Option<string>, hasSession: bool,
                         completed: bool)

  datatype State = State(
    now: Time,
    store: map<string, Keys>,
    provider: map<string, Provider.Secret>,
    entries: seq<Entry>,            // RollbackManager.entries
    rotating: set<string>,          // RotationManager.rotatingSecrets
    rots: map<Rid, Rotation>,
    events: seq<(Rid, Event)>,
    usedIds: set<string>,           // every key id handed out so far
    nextVersion: Provider.VersionId)

  datatype Label =
    | Tick(ms: nat)
    | Start(rid: Rid, secret: string, overlapMs: int, force: bool)
    | Advance(rid: Rid, o: Outcome)

  function KeysOf(s: State, name: string): Keys {
    if name in s.store then s.store[name] else []
  }

  function ProviderOf(s: State, name: string): Provider.Secret {
    if name in s.provider then s.provider[name] else Provider.NO_SECRET
  }

  function SliceOf(s: State, name: string): Slice {
    Slice(KeysOf(s, name), ProviderOf(s, name))
  }

  predicate Kept(entries: seq<Entry>, rid: Rid) {
    exists e :: e in entries && e.id == rid
  }

  function PushEntry(entries: seq<Entry>, e: Entry, maxEntries: int): seq<Entry> {
    var all := entries + [e];
    if |all| > maxEntries then JsSlice(all, -maxEntries) else all
  }

  /** `markComplete`: flags the first entry with the id. */
  function CompleteEntry(entries: seq<Entry>, id: Rid): seq<Entry> {
    if entries == [] then []
    else if entries[0].id == id then [entries[0].(completed := true)] + entries[1..]
    else [entries[0]] + CompleteEntry(entries[1..], id)
  }

  function EntriesAfter(cfg: Config, entries: seq<Entry>, rid: Rid, r: Rotation, o: Outcome): seq<Entry> {
    if r.pc == EmitGenerated && cfg.rollback.Some? && r.made.Some? then
      PushEntry(entries, Entry(rid, r.secret, r.made.value.keyId, r.prevId, false, false), cfg.rollback.value)
    else if r.pc == CompleteSession && !o.Throw? && r.hasEntry then CompleteEntry(entries, rid)
    else entries
  }

  function NewRotation(s: State, secret: string, overlapMs: int): Rotation {
    Rotation(secret, overlapMs, ReadPrevious, Generation, None, None, None, false, None, None, None, "", None,
             History(KeysOf(s, secret), None, s.now, None))
  }

  /** The guard is read and set before the first await; `force` skips the check. */
  predicate Enabled(s: State, l: Label) {
    match l
    case Tick(_) => true
    case Start(rid, secret, _, force) => rid !in s.rots && (force || secret !in s.rotating)
    case Advance(rid, o) =>
      rid in s.rots && Possible(s.rots[rid], o) && (o.Made? ==> o.keyId != "" && o.keyId !in s.usedIds)
  }

  function LocalOf(cfg: Config, s: State, rid: Rid, o: Outcome): Local
    requires Enabled(s, Advance(rid, o))
  {
    var r := s.rots[rid];
    StepLocal(cfg, s.now, s.nextVersion, Kept(s.entries, rid), SliceOf(s, r.secret), r, o)
  }

  function Apply(cfg: Config, s: State, l: Label): State
    requires Enabled(s, l)
  {
    match l
    case Tick(ms) => s.(now := s.now + ms)
    case Start(rid, secret, overlapMs, _) =>
      s.(rotating := s.rotating + {secret}, rots := s.rots[rid := NewRotation(s, secret, overlapMs)])
    case Advance(rid, o) =>
      var r := s.rots[rid];
      var l := LocalOf(cfg, s, rid, o);
      State(s.now,
            s.store[r.secret := l.slice.keys],
            s.provider[r.secret := l.slice.prov],
            EntriesAfter(cfg, s.entries, rid, r, o),
            if r.pc.Unwind? then s.rotating - {r.secret} else s.rotating,
            s.rots[rid := l.r],
            if l.emitted.Some? then s.events + [(rid, l.emitted.value)] else s.events,
            if o.Made? then s.usedIds + {o.keyId} else s.usedIds,
            if r.pc.StorePending? then s.nextVersion + 1 else s.nextVersion)
  }

  /** A run: every label is enabled where it is taken. */
  ghost predicate Run(cfg: Config, s: State, ls: seq<Label>)
    decreases |ls|
  {
    ls == [] || (Enabled(s, ls[0]) && Run(cfg, Apply(cfg, s, ls[0]), ls[1..]))
  }

  ghost function After(cfg: Config, s: State, ls: seq<Label>): State
    requires Run(cfg, s, ls)
    decreases |ls|
  {
    if ls == [] then s else After(cfg, Apply(cfg, s, ls[0]), ls[1..])
  }
}
