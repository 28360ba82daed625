/**
 * Lifecycle operations by any number of callers, one step per awaited store call, interleaved with rotations.
 * `activate`, `expire`, `revoke`, `markFailed` and `reactivateKey` read a record, await, and store what they made
 * of it, so another write can come in between.
 */
module LifecycleMachine {
  import opened Wrappers
  import opened KeyModel
  import opened KeyLifecycles
  import opened RotationMachine
  import opened RotationInvariant
  import Provider = StagedProvider

  // ---- One operation --------------------------------------------------------------------------

  type Cid = nat

  /** The store call an operation is about to make, with the records it has read. */
  datatype Call =
    | CallSave(made: SecretKey)
    | CallGet
    | CallGetActive(key: SecretKey)
    | CallExpire(key: SecretKey, active: SecretKey)
    | CallUpdate(key: SecretKey)
    | Returned(error: Option<string>)

  datatype Client = Client(secret: string, op: Op, call: Call)

  /** What a call does to the records: nothing, a read the operation goes on from, or a write. */
  datatype Access = Nothing | Read(key: SecretKey) | Wrote(key: SecretKey)

  datatype Called = Called(next: Call, access: Access)

  function IdOf(op: Op): string {
    if op.Create? then op.key.keyId else op.id
  }

  function FirstCall(op: Op): Call {
    if op.Create? then CallSave(op.key) else CallGet
  }

  function Raised(error: string): Called {
    Called(Returned(Some(error)), Nothing)
  }

  /** `update` refuses a record that is not stored. */
  function Updating(keys: Keys, key: SecretKey, next: Call): Called {
    if Find(keys, key.keyId).None? then Raised("Key not found") else Called(next, Wrote(key))
  }

  function CallStep(keys: Keys, now: Time, op: Op, call: Call, throws: bool): Called {
    if throws && !call.Returned? then Raised(UNAVAILABLE)
    else
      match call
      case CallSave(made) => Called(Returned(None), Wrote(made))
      case CallGet =>
        var found := Find(keys, IdOf(op));
        if found.None? then Raised("Key not found")
        else
          var key := found.value;
          if Refusal(op, key.status).Some? then Raised(Refusal(op, key.status).value)
          else if Settled(op, key.status) then Called(Returned(None), Nothing)
          else Called(if op.Activate? then CallGetActive(key) else CallUpdate(key), Read(key))
      case CallGetActive(key) =>
        var active := GetActive(keys);
        if active.Some? then Called(CallExpire(key, active.value), Read(active.value))
        else Called(CallUpdate(key), Nothing)
      case CallExpire(key, active) =>
        Updating(keys, ExpiredBy(active, now, if op.Activate? then op.overlapMs else 0), CallUpdate(key))
      case CallUpdate(key) => Updating(keys, Rewrite(op, key, now), Returned(None))
      case Returned(_) => Called(call, Nothing)
  }

  function AfterAccess(keys: Keys, access: Access): Keys {
    if access.Wrote? then Put(keys, access.key) else keys
  }

  /** Which call a fault hits. */
  function Throws(call: Call, f: Faults): bool {
    match call
    case CallSave(_) | CallUpdate(_) => f.write
    case CallGet => f.get
    case CallGetActive(_) => f.active
    case CallExpire(_, _) => f.expire
    case Returned(_) => false
  }

  function CallsLeft(call: Call): nat {
    match call
    case CallGet => 4
    case CallGetActive(_) => 3
    case CallExpire(_, _) => 2
    case CallSave(_) | CallUpdate(_) => 1
    case Returned(_) => 0
  }

  /** The rest of an operation that nobody interrupts. */
  function Finish(keys: Keys, now: Time, op: Op, call: Call, f: Faults): Attempted
    decreases CallsLeft(call)
  {
    if call.Returned? then Attempted(keys, call.error)
    else
      var c := CallStep(keys, now, op, call, Throws(call, f));
      Finish(AfterAccess(keys, c.access), now, op, c.next, f)
  }

  lemma UpdateFinishes(keys: Keys, now: Time, op: Op, key: SecretKey, f: Faults)
    requires Find(keys, key.keyId).Some? && !op.Create?
    ensures Finish(keys, now, op, CallUpdate(key), f) ==
      if f.write then Attempted(keys, Some(UNAVAILABLE)) else Attempted(Put(keys, Rewrite(op, key, now)), None)
  {
    hide Put, Find;
  }

  lemma ActivateFinishes(keys: Keys, now: Time, op: Op, key: SecretKey, f: Faults)
    requires Find(keys, key.keyId).Some? && op.Activate?
    ensures Finish(keys, now, op, CallGetActive(key), f) ==
      if f.active || (GetActive(keys).Some? && f.expire) then Attempted(keys, Some(UNAVAILABLE))
      else Finish(MovedOut(keys, op.overlapMs, now), now, op, CallUpdate(key), f)
    ensures Find(MovedOut(keys, op.overlapMs, now), key.keyId).Some?
  {
    hide Put, Find, GetActive, Rewrite;
    if GetActive(keys).Some? {
      var active := GetActive(keys).value;
      GetActiveIsNewest(keys);
      FindPut(keys, ExpiredBy(active, now, op.overlapMs), key.keyId);
      ExpireFinishes(keys, now, op, key, active, f);
    }
  }

  lemma ExpireFinishes(keys: Keys, now: Time, op: Op, key: SecretKey, active: SecretKey, f: Faults)
    requires Find(keys, active.keyId).Some? && op.Activate?
    ensures Finish(keys, now, op, CallExpire(key, active), f) ==
      if f.expire then Attempted(keys, Some(UNAVAILABLE))
      else Finish(Put(keys, ExpiredBy(active, now, op.overlapMs)), now, op, CallUpdate(key), f)
  {
    hide Put, Find, GetActive, Rewrite;
  }

  /** Uninterrupted, the calls of an operation are what the manager's method does in one go. */
  lemma UninterruptedIsAttempt(keys: Keys, now: Time, op: Op, f: Faults)
    ensures Finish(keys, now, op, FirstCall(op), f) == Attempt(keys, op, now, f)
  {
    hide Put, Find, GetActive, Rewrite, MovedOut, Updating;
    if !op.Create? && Find(keys, op.id).Some? {
      var key := Find(keys, op.id).value;
      var c := CallStep(keys, now, op, CallGet, f.get);
      assert Finish(keys, now, op, CallGet, f) == Finish(AfterAccess(keys, c.access), now, op, c.next, f);
      if op.Activate? {
        ActivateFinishes(keys, now, op, key, f);
        UpdateFinishes(MovedOut(keys, op.overlapMs, now), now, op, key, f);
      } else {
        UpdateFinishes(keys, now, op, key, f);
      }
    }
  }

  /** The calls of `expire`: once the last one has returned, the key has ended and no later query selects it. */
  lemma ExpireByCalls(keys: Keys, now: Time, id: string, f: Faults, at: Time)
    requires at > now
    ensures var was, done := Find(keys, id), Finish(keys, now, Op.Expire(id), CallGet, f);
      done.error == None ==>
        && was.Some? && (was.value.status == Active || was.value.status == Pending)
        && (forall x :: Find(done.keys, x) ==
              if x == id then Some(was.value.(status := Expired, validUntil := Some(now))) else Find(keys, x))
        && (SelectKey(done.keys, at).Some? ==> SelectKey(done.keys, at) != Find(done.keys, id))
  {
    hide Find, Put, SelectKey, Finish;
    UninterruptedIsAttempt(keys, now, Op.Expire(id), f);
    ExpireEffect(keys, id, now, f);
    SelectKeyPrefers(Attempt(keys, Op.Expire(id), now, f).keys, at);
  }

  // ---- Callers and rotations together ---------------------------------------------------------

  /** Who makes a step; the clock touches no record. */
  datatype Actor = Clock | Rotor(rid: Rid) | Caller(cid: Cid)

  /** One access to a secret's records, as it is remembered. */
  datatype Entered = Entered(actor: Actor, name: string, access: Access)

  datatype World = World(s: State, clients: map<Cid, Client>, log: seq<Entered>)

  datatype Move =
    | Rotate(l: Label)
    | Begin(cid: Cid, name: string, op: Op)
    | Proceed(cid: Cid, throws: bool)

  /** A created record is new, valid from now on, under an id not handed out before. */
  predicate CanBegin(s: State, op: Op) {
    op.Create? ==>
      IsNew(op.key) && op.key.keyId != "" && op.key.keyId !in s.usedIds && op.key.validFrom == s.now
  }

  predicate CanMove(w: World, m: Move) {
    match m
    case Rotate(l) => Enabled(w.s, l)
    case Begin(cid, _, op) => cid !in w.clients && CanBegin(w.s, op)
    case Proceed(cid, _) => cid in w.clients && !w.clients[cid].call.Returned?
  }

  function ActorOf(m: Move): Actor {
    match m
    case Rotate(Tick(_)) => Clock
    case Rotate(Start(rid, _, _, _)) => Rotor(rid)
    case Rotate(Advance(rid, _)) => Rotor(rid)
    case Begin(cid, _, _) => Caller(cid)
    case Proceed(cid, _) => Caller(cid)
  }

  function NameOf(w: World, m: Move): string
    requires CanMove(w, m)
  {
    match m
    case Rotate(Tick(_)) => ""
    case Rotate(Start(_, name, _, _)) => name
    case Rotate(Advance(rid, _)) => w.s.rots[rid].secret
    case Begin(_, name, _) => name
    case Proceed(cid, _) => w.clients[cid].secret
  }

  /** The record a rotation's call reads and goes on from. */
  function ReadOf(keys: Keys, r: Rotation, o: Outcome): Option<SecretKey> {
    if o.Throw? then None
    else
      match r.pc
      case ActivateGet =>
        var found := if r.newKey.Some? then Find(keys, r.newKey.value.keyId) else None;
        if found.Some? && found.value.status == Pending then found else None
      case ActivateGetActive => GetActive(keys)
      case MarkGet => Live(keys, if r.newKey.Some? then Some(r.newKey.value.keyId) else None)
      case ReactivateGet => Live(keys, r.prevId)
      case _ => None
  }

  function Live(keys: Keys, id: Option<string>): Option<SecretKey> {
    var found := if id.Some? then Find(keys, id.value) else None;
    if found.Some? && !Terminal(found.value.status) then found else None
  }

  function RotationAccess(now: Time, keys: Keys, r: Rotation, o: Outcome): Access {
    var write, read := WriteOf(now, keys, r, o), ReadOf(keys, r, o);
    if write.Some? then Wrote(write.value) else if read.Some? then Read(read.value) else Nothing
  }

  function CallOf(w: World, cid: Cid, throws: bool): Called
    requires cid in w.clients
  {
    var c := w.clients[cid];
    CallStep(KeysOf(w.s, c.secret), w.s.now, c.op, c.call, throws)
  }

  function AccessOf(w: World, m: Move): Access
    requires CanMove(w, m)
  {
    match m
    case Rotate(Advance(rid, o)) =>
      RotationAccess(w.s.now, KeysOf(w.s, w.s.rots[rid].secret), w.s.rots[rid], o)
    case Proceed(cid, throws) => CallOf(w, cid, throws).access
    case _ => Nothing
  }

  function Moved(cfg: Config, w: World, m: Move): World
    requires CanMove(w, m)
  {
    var entered := Entered(ActorOf(m), NameOf(w, m), AccessOf(w, m));
    match m
    case Rotate(l) => World(Apply(cfg, w.s, l), w.clients, w.log + [entered])
    case Begin(cid, name, op) =>
      World(if op.Create? then w.s.(usedIds := w.s.usedIds + {op.key.keyId}) else w.s,
            w.clients[cid := Client(name, op, FirstCall(op))], w.log + [entered])
    case Proceed(cid, throws) =>
      var c, called := w.clients[cid], CallOf(w, cid, throws);
      World(w.s.(store := w.s.store[c.secret := AfterAccess(KeysOf(w.s, c.secret), called.access)]),
            w.clients[cid := c.(call := called.next)], w.log + [entered])
  }

  /** What a caller's last write stores: the record it read, with only the fields of its operation changed. */
  lemma UpdateStores(cfg: Config, w: World, cid: Cid, x: string)
    requires CanMove(w, Proceed(cid, false)) && w.clients[cid].call.CallUpdate? && !w.clients[cid].op.Create?
    ensures var c, now := w.clients[cid], w.s.now;
      var before, after := KeysOf(w.s, c.secret), KeysOf(Moved(cfg, w, Proceed(cid, false)).s, c.secret);
      var key := c.call.key;
      var metadata := if key.metadata == None then map[] else key.metadata.value;
      Find(after, x) ==
        if x != key.keyId || Find(before, x) == None then Find(before, x)
        else
          match c.op
          case Create(made) => Some(made)
          case Activate(_, _) => Some(key.(status := Active, rotatedAt := Some(now)))
          case Expire(_) => Some(key.(status := Expired, validUntil := Some(now)))
          case Reactivate(_) => Some(key.(status := Active, rotatedAt := Some(now), validUntil := None))
          case Revoke(_, reason) =>
            Some(key.(status := Revoked, revokedAt := Some(now), validUntil := Some(now),
                      metadata := Some(metadata["revokeReason" := Text(reason)])))
          case MarkFailed(_, error) =>
            Some(key.(status := Failed,
                      metadata := Some(metadata["failureReason" := Text(error)]["failedAt" := Instant(now)]
                                               ["previousStatus" := Was(key.status)])))
  {
    hide Find, Put;
    var c := w.clients[cid];
    var key := Rewrite(c.op, c.call.key, w.s.now);
    FindPut(KeysOf(w.s, c.secret), key, x);
    assert key.keyId == c.call.key.keyId;
  }

  ghost predicate Course(cfg: Config, w: World, ms: seq<Move>)
    decreases |ms|
  {
    ms == [] || (CanMove(w, ms[0]) && Course(cfg, Moved(cfg, w, ms[0]), ms[1..]))
  }

  ghost function Later(cfg: Config, w: World, ms: seq<Move>): World
    requires Course(cfg, w, ms)
    decreases |ms|
  {
    if ms == [] then w else Later(cfg, Moved(cfg, w, ms[0]), ms[1..])
  }

  // ---- What an actor holds between its calls --------------------------------------------------

  /**
   * A record it has made and not saved; the record it has read and will rewrite; while it activates that one, the
   * active record it has read and will expire first.
   */
  datatype Hold = Hold(name: string, unsaved: Option<SecretKey>, target: Option<SecretKey>,
                       outgoing: Option<SecretKey>, activating: bool)

  function NoHold(name: string): Hold {
    Hold(name, None, None, None, false)
  }

  function CallHold(name: string, op: Op, call: Call): Hold {
    match call
    case CallSave(made) => Hold(name, Some(made), None, None, false)
    case CallGetActive(key) => Hold(name, None, Some(key), None, true)
    case CallExpire(key, active) => Hold(name, None, Some(key), Some(active), true)
    case CallUpdate(key) => Hold(name, None, Some(key), None, op.Activate?)
    case _ => NoHold(name)
  }

  function RotationHold(r: Rotation): Hold {
    match r.pc
    case SaveKey => Hold(r.secret, r.made, None, None, false)
    case ActivateGetActive | ActivateUpdate => Hold(r.secret, None, r.seen, None, true)
    case ActivateExpire => Hold(r.secret, None, r.seen, r.seenActive, true)
    case MarkUpdate | ReactivateUpdate => Hold(r.secret, None, r.seen, None, false)
    case _ => NoHold(r.secret)
  }

  function HoldOf(w: World, a: Actor): Hold {
    match a
    case Clock => NoHold("")
    case Rotor(rid) => if rid in w.s.rots then RotationHold(w.s.rots[rid]) else NoHold("")
    case Caller(cid) =>
      if cid in w.clients then CallHold(w.clients[cid].secret, w.clients[cid].op, w.clients[cid].call) else NoHold("")
  }

  predicate Holds(h: Hold, key: SecretKey) {
    h.target == Some(key) || h.outgoing == Some(key)
  }

  predicate HoldOk(h: Hold) {
    && (h.unsaved.Some? ==> IsNew(h.unsaved.value) && h.target.None?)
    && (h.target.Some? ==> h.target.value.status != Revoked)
    && (h.activating ==> h.target.Some? && h.target.value.status == Pending)
    && (h.outgoing.Some? ==> h.activating && h.outgoing.value.status == Active)
  }

  /** A rewriting keeps the id, makes nothing pending, dates what it makes active, and only revokes a failed key. */
  predicate Rewritten(key: SecretKey, k: SecretKey) {
    && k.keyId == key.keyId && k.validFrom == key.validFrom && k.status != Pending
    && (key.status == Failed ==> k.status == Revoked)
    && (if k.status == Active then k.rotatedAt.Some? else k.rotatedAt == key.rotatedAt)
  }

  /** How a call takes an actor from one hold to the next; a new record's id has not been used before. */
  predicate Passes(h: Hold, h': Hold, x: Access, keys: Keys, used: set<string>, used': set<string>) {
    match x
    case Nothing =>
      && (h'.unsaved.Some? ==>
            && h'.target.None?
            && (h'.unsaved == h.unsaved || (IsNew(h'.unsaved.value) && h'.unsaved.value.keyId in used' - used)))
      && (h'.target.Some? ==> h'.target == h.target)
      && (h'.activating ==> h.activating && h'.target == h.target) && h'.outgoing.None?
    case Read(key) =>
      && key in keys && key.status != Revoked && h'.unsaved.None?
      && ((h'.target == Some(key) && h'.outgoing.None? && (h'.activating ==> key.status == Pending))
          || (&& h.activating && h'.activating && h'.target == h.target
              && h'.outgoing == Some(key) && key.status == Active))
    case Wrote(key) =>
      && h'.unsaved.None? && h'.outgoing.None?
      && (if h.unsaved.Some? then h.unsaved == Some(key) && h'.target.None? && !h'.activating
          else
            && Find(keys, key.keyId).Some?
            && if h.outgoing.Some? then
                 Rewritten(h.outgoing.value, key) && key.status == Expired && h'.target == h.target && h'.activating
               else
                 && h.target.Some? && Rewritten(h.target.value, key) && h'.target.None? && !h'.activating
                 && (h.activating ==> key.status == Active))
  }

  /** The calls an operation can come to. */
  predicate CallFits(op: Op, call: Call) {
    match call
    case CallSave(made) => op.Create? && op.key == made
    case CallGet => !op.Create?
    case CallGetActive(_) => op.Activate?
    case CallExpire(_, _) => op.Activate?
    case CallUpdate(key) => !op.Create? && Refusal(op, key.status).None? && !Settled(op, key.status)
    case Returned(_) => true
  }

  lemma RewriteRewrites(op: Op, key: SecretKey, now: Time)
    requires CallFits(op, CallUpdate(key)) && key.status != Revoked
    ensures Rewritten(key, Rewrite(op, key, now)) && (op.Activate? ==> Rewrite(op, key, now).status == Active)
  {
  }

  lemma ClientPasses(keys: Keys, now: Time, name: string, op: Op, call: Call, throws: bool, used: set<string>)
    requires HoldOk(CallHold(name, op, call)) && CallFits(op, call)
    ensures var c := CallStep(keys, now, op, call, throws);
      && Passes(CallHold(name, op, call), CallHold(name, op, c.next), c.access, keys, used, used)
      && CallFits(op, c.next)
  {
    hide Find, GetActive, Rewrite, Rewritten;
    GetActiveIsNewest(keys);
    if call.CallUpdate? {
      RewriteRewrites(op, call.key, now);
    } else if call.CallExpire? {
      ExpiredIsRewritten(call.active, now, if op.Activate? then op.overlapMs else 0);
    }
  }

  lemma ExpiredIsRewritten(key: SecretKey, now: Time, overlapMs: int)
    requires key.status == Active
    ensures Rewritten(key, ExpiredBy(key, now, overlapMs))
  {
  }

  /** A rotation never goes on from a record that has ended. */
  predicate RotationFits(r: Rotation) {
    r.pc.MarkUpdate? || r.pc.ReactivateUpdate? ==> r.seen.Some? && !Terminal(r.seen.value.status)
  }

  /** Writes of a rotation, by the stage it has reached. */
  lemma RotationWrites(now: Time, keys: Keys, r: Rotation, o: Outcome)
    requires HoldOk(RotationHold(r)) && RotationFits(r) && WriteOf(now, keys, r, o).Some? && !r.pc.SaveKey?
    ensures var h, key := RotationHold(r), WriteOf(now, keys, r, o).value;
      && Find(keys, key.keyId).Some? && h.unsaved.None?
      && if r.pc.ActivateExpire? then h.outgoing.Some? && Rewritten(h.outgoing.value, key) && key.status == Expired
         else
           && h.outgoing.None? && h.target.Some? && Rewritten(h.target.value, key)
           && (h.activating ==> key.status == Active)
  {
    hide Find;
  }

  /** A pc at which nothing is held. */
  predicate Empty(pc: Pc) {
    FailurePath(pc) && !pc.MarkUpdate? && !pc.ReactivateUpdate?
  }

  lemma FailureIsEmpty(cfg: Config, kept: bool, r: Rotation)
    ensures Empty(FirstCompensation(cfg, kept, r)) && Empty(AfterCancel(r)) && Empty(AfterMark(r))
  {
  }

  ghost predicate StepPasses(now: Time, keys: Keys, r: Rotation, o: Outcome, r': Rotation, used: set<string>) {
    && Passes(RotationHold(r), RotationHold(r'), RotationAccess(now, keys, r, o), keys, used, UsedAfter(o, used))
    && RotationFits(r') && r'.secret == r.secret
  }

  /** The calls at which a rotation comes to hold a record, or lets it go. */
  predicate Handles(pc: Pc) {
    || pc.Generate? || pc.SaveKey? || pc.ActivateGet? || pc.ActivateGetActive? || pc.ActivateExpire?
    || pc.ActivateUpdate? || pc.MarkGet? || pc.MarkUpdate? || pc.ReactivateGet? || pc.ReactivateUpdate?
  }

  lemma DrawPasses(cfg: Config, now: Time, next: Provider.VersionId, kept: bool, sl: Slice, r: Rotation,
                   o: Outcome, used: set<string>)
    requires Possible(r, o) && (r.pc.Generate? || r.pc.SaveKey?) && FreshMade(o, used)
    ensures StepPasses(now, sl.keys, r, o, Progress(cfg, now, next, kept, sl, r, o).r, used)
  {
    hide Find, Put, GetActive, FirstCompensation, AfterCancel, AfterMark, Rewritten, Update;
    FailureIsEmpty(cfg, kept, r);
  }

  lemma GetPasses(cfg: Config, now: Time, next: Provider.VersionId, kept: bool, sl: Slice, r: Rotation,
                   o: Outcome, used: set<string>)
    requires Possible(r, o) && r.pc.ActivateGet?
    ensures StepPasses(now, sl.keys, r, o, Progress(cfg, now, next, kept, sl, r, o).r, used)
  {
    hide Find, Put, GetActive, FirstCompensation, AfterCancel, AfterMark, Rewritten, Update;
    FailureIsEmpty(cfg, kept, r);
  }

  lemma GetActivePasses(cfg: Config, now: Time, next: Provider.VersionId, kept: bool, sl: Slice, r: Rotation,
                   o: Outcome, used: set<string>)
    requires Possible(r, o) && r.pc.ActivateGetActive? && HoldOk(RotationHold(r))
    ensures StepPasses(now, sl.keys, r, o, Progress(cfg, now, next, kept, sl, r, o).r, used)
  {
    hide Find, Put, GetActive, FirstCompensation, AfterCancel, AfterMark, Rewritten, Update;
    FailureIsEmpty(cfg, kept, r);
    GetActiveIsNewest(sl.keys);
  }

  lemma ExpirePasses(cfg: Config, now: Time, next: Provider.VersionId, kept: bool, sl: Slice, r: Rotation,
                     o: Outcome, used: set<string>)
    requires Possible(r, o) && r.pc.ActivateExpire? && HoldOk(RotationHold(r))
    ensures StepPasses(now, sl.keys, r, o, Progress(cfg, now, next, kept, sl, r, o).r, used)
  {
    hide Find, Put, GetActive, FirstCompensation, AfterCancel, AfterMark, Rewritten;
    FailureIsEmpty(cfg, kept, r);
    if WriteOf(now, sl.keys, r, o).Some? {
      RotationWrites(now, sl.keys, r, o);
    }
  }

  lemma ActivatePasses(cfg: Config, now: Time, next: Provider.VersionId, kept: bool, sl: Slice, r: Rotation,
                       o: Outcome, used: set<string>)
    requires Possible(r, o) && r.pc.ActivateUpdate? && HoldOk(RotationHold(r))
    ensures StepPasses(now, sl.keys, r, o, Progress(cfg, now, next, kept, sl, r, o).r, used)
  {
    hide Find, Put, GetActive, FirstCompensation, AfterCancel, AfterMark, Rewritten;
    FailureIsEmpty(cfg, kept, r);
    if WriteOf(now, sl.keys, r, o).Some? {
      RotationWrites(now, sl.keys, r, o);
    }
  }

  lemma OtherProgressHoldsNothing(cfg: Config, now: Time, next: Provider.VersionId, kept: bool, sl: Slice,
                                  r: Rotation, o: Outcome)
    requires Possible(r, o) && !Ending(r.pc) && !Handles(r.pc)
    ensures var r' := Progress(cfg, now, next, kept, sl, r, o).r;
      RotationHold(r') == NoHold(r.secret) && r'.secret == r.secret && RotationFits(r')
  {
    hide Find, Put, GetActive, FirstCompensation, AfterCancel, AfterMark, WriteKey;
    FailureIsEmpty(cfg, kept, r);
  }

  lemma OtherProgressPasses(cfg: Config, now: Time, next: Provider.VersionId, kept: bool, sl: Slice, r: Rotation,
                            o: Outcome, used: set<string>)
    requires Possible(r, o) && !Ending(r.pc) && !Handles(r.pc)
    ensures StepPasses(now, sl.keys, r, o, Progress(cfg, now, next, kept, sl, r, o).r, used)
  {
    hide Find, Put, GetActive, FirstCompensation, AfterCancel, AfterMark, Rewritten, WriteKey, Progress;
    OtherProgressHoldsNothing(cfg, now, next, kept, sl, r, o);
  }

  lemma ProgressPasses(cfg: Config, now: Time, next: Provider.VersionId, kept: bool, sl: Slice, r: Rotation,
                       o: Outcome, used: set<string>)
    requires Possible(r, o) && !Ending(r.pc) && HoldOk(RotationHold(r)) && FreshMade(o, used)
    ensures StepPasses(now, sl.keys, r, o, Progress(cfg, now, next, kept, sl, r, o).r, used)
  {
    hide Progress, StepPasses, RotationHold, HoldOk;
    if r.pc.Generate? || r.pc.SaveKey? {
      DrawPasses(cfg, now, next, kept, sl, r, o, used);
    } else if r.pc.ActivateGet? {
      GetPasses(cfg, now, next, kept, sl, r, o, used);
    } else if r.pc.ActivateGetActive? {
      GetActivePasses(cfg, now, next, kept, sl, r, o, used);
    } else if r.pc.ActivateExpire? {
      ExpirePasses(cfg, now, next, kept, sl, r, o, used);
    } else if r.pc.ActivateUpdate? {
      ActivatePasses(cfg, now, next, kept, sl, r, o, used);
    } else {
      OtherProgressPasses(cfg, now, next, kept, sl, r, o, used);
    }
  }

  lemma MarkLookPasses(now: Time, sl: Slice, r: Rotation, o: Outcome, used: set<string>)
    requires Possible(r, o) && r.pc.MarkGet?
    ensures StepPasses(now, sl.keys, r, o, Compensation(now, sl, r, o).r, used)
  {
    hide Find, Put, GetActive, FirstCompensation, AfterCancel, AfterMark, Rewritten;
    FailureIsEmpty(Config(None), false, r);
  }

  lemma ReactivateLookPasses(now: Time, sl: Slice, r: Rotation, o: Outcome, used: set<string>)
    requires Possible(r, o) && r.pc.ReactivateGet?
    ensures StepPasses(now, sl.keys, r, o, Compensation(now, sl, r, o).r, used)
  {
    hide Find, Put, GetActive, FirstCompensation, AfterCancel, AfterMark, Rewritten;
    FailureIsEmpty(Config(None), false, r);
  }

  lemma MarkPasses(now: Time, sl: Slice, r: Rotation, o: Outcome, used: set<string>)
    requires Possible(r, o) && r.pc.MarkUpdate? && HoldOk(RotationHold(r)) && RotationFits(r)
    ensures StepPasses(now, sl.keys, r, o, Compensation(now, sl, r, o).r, used)
  {
    hide Find, Put, GetActive, FirstCompensation, AfterCancel, AfterMark, Rewritten;
    FailureIsEmpty(Config(None), false, r);
    if WriteOf(now, sl.keys, r, o).Some? {
      RotationWrites(now, sl.keys, r, o);
    }
  }

  lemma ReactivatePasses(now: Time, sl: Slice, r: Rotation, o: Outcome, used: set<string>)
    requires Possible(r, o) && r.pc.ReactivateUpdate? && HoldOk(RotationHold(r)) && RotationFits(r)
    ensures StepPasses(now, sl.keys, r, o, Compensation(now, sl, r, o).r, used)
  {
    hide Find, Put, GetActive, FirstCompensation, AfterCancel, AfterMark, Rewritten;
    FailureIsEmpty(Config(None), false, r);
    if WriteOf(now, sl.keys, r, o).Some? {
      RotationWrites(now, sl.keys, r, o);
    }
  }

  lemma OtherCompensationPasses(now: Time, sl: Slice, r: Rotation, o: Outcome, used: set<string>)
    requires Possible(r, o) && Ending(r.pc) && !Handles(r.pc)
    ensures StepPasses(now, sl.keys, r, o, Compensation(now, sl, r, o).r, used)
  {
    hide Find, Put, GetActive, FirstCompensation, AfterCancel, AfterMark, Rewritten, WriteKey;
    FailureIsEmpty(Config(None), false, r);
  }

  lemma CompensationPasses(now: Time, sl: Slice, r: Rotation, o: Outcome, used: set<string>)
    requires Possible(r, o) && Ending(r.pc) && HoldOk(RotationHold(r)) && RotationFits(r)
    ensures StepPasses(now, sl.keys, r, o, Compensation(now, sl, r, o).r, used)
  {
    hide Compensation, StepPasses, RotationHold, HoldOk, RotationFits;
    match r.pc
    case MarkGet => MarkLookPasses(now, sl, r, o, used);
    case ReactivateGet => ReactivateLookPasses(now, sl, r, o, used);
    case MarkUpdate => MarkPasses(now, sl, r, o, used);
    case ReactivateUpdate => ReactivatePasses(now, sl, r, o, used);
    case _ => OtherCompensationPasses(now, sl, r, o, used);
  }
}
