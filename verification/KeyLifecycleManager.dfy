/** The operations of the lifecycle manager on the records of one secret, and what `getState` makes of them. */
module KeyLifecycles {
  import opened Wrappers
  import opened KeyModel
  import opened InMemoryKeyStores

  // ---- Operations on the records of one secret ------------------------------------------------

  /** `Reactivate` is the rollback manager's; the rest are the lifecycle manager's. */
  datatype Op =
    | Create(key: SecretKey)
    | Activate(id: string, overlapMs: int)
    | Expire(id: string)
    | Revoke(id: string, reason: string)
    | MarkFailed(id: string, error: string)
    | Reactivate(id: string)

  /** A new record: pending, never rotated. */
  predicate IsNew(key: SecretKey) {
    key.status == Pending && key.rotatedAt.None?
  }

  /** The records once `activate` has moved the active key out. */
  function MovedOut(keys: Keys, overlapMs: int, now: Time): Keys {
    var current := GetActive(keys);
    if current.Some? then Put(keys, ExpiredBy(current.value, now, overlapMs)) else keys
  }

  /** Why an operation that has read the key refuses to go on. */
  function Refusal(op: Op, status: Status): Option<string> {
    match op
    case Activate(_, _) => if status != Pending then Some("Cannot activate key") else None
    case Expire(_) => if status != Active && status != Pending then Some("Cannot expire key") else None
    case Reactivate(_) => if Terminal(status) then Some("Cannot reactivate key") else None
    case _ => None
  }

  /** An operation that has read the key and finds nothing to do. */
  predicate Settled(op: Op, status: Status) {
    (op.Revoke? && status == Revoked) || (op.MarkFailed? && Terminal(status))
  }

  /** The record an operation makes of the one it has read. */
  function Rewrite(op: Op, key: SecretKey, now: Time): SecretKey {
    match op
    case Create(made) => made
    case Activate(_, _) => Activated(key, now)
    case Expire(_) => ExpiredBy(key, now, 0)
    case Revoke(_, reason) => RevokedBy(key, now, reason)
    case MarkFailed(_, error) => MarkedFailed(key, now, error)
    case Reactivate(_) => Reactivated(key, now)
  }

  /** Which of an operation's store calls throw: `get`, `getActive`, the `update` of the active key, the last write. */
  datatype Faults = Faults(get: bool, active: bool, expire: bool, write: bool)

  const NO_FAULTS: Faults := Faults(false, false, false, false)

  const UNAVAILABLE := "Store unavailable"

  function ErrorOf<T>(r: Result<T, string>): Option<string> {
    if r.Success? then None else Some(r.error)
  }

  datatype Attempted = Attempted(keys: Keys, error: Option<string>)

  /** An operation whose calls nobody interrupts: the records afterwards, and the error if it throws. */
  function Attempt(keys: Keys, op: Op, now: Time, f: Faults): Attempted {
    if op.Create? then
      if f.write then Attempted(keys, Some(UNAVAILABLE)) else Attempted(Put(keys, op.key), None)
    else if f.get then Attempted(keys, Some(UNAVAILABLE))
    else if Find(keys, op.id).None? then Attempted(keys, Some("Key not found"))
    else
      var key := Find(keys, op.id).value;
      if Refusal(op, key.status).Some? then Attempted(keys, Refusal(op, key.status))
      else if Settled(op, key.status) then Attempted(keys, None)
      else if op.Activate? && (f.active || (GetActive(keys).Some? && f.expire)) then Attempted(keys, Some(UNAVAILABLE))
      else
        var moved := if op.Activate? then MovedOut(keys, op.overlapMs, now) else keys;
        if f.write then Attempted(moved, Some(UNAVAILABLE)) else Attempted(Put(moved, Rewrite(op, key, now)), None)
  }

  // ---- What each operation changes ------------------------------------------------------------

  /** After a write every id is found as before, but for `id`, which holds `key`. */
  ghost predicate OnlyChanged(before: Keys, after: Keys, id: string, key: SecretKey) {
    forall x :: Find(after, x) == if x == id then Some(key) else Find(before, x)
  }

  lemma WriteOnlyChanges(keys: Keys, key: SecretKey)
    ensures OnlyChanged(keys, Put(keys, key), key.keyId, key)
  {
    forall x { FindPut(keys, key, x); }
  }

  /** `create` adds its record, unless the store throws. */
  lemma CreateEffect(keys: Keys, key: SecretKey, now: Time, f: Faults)
    ensures var done := Attempt(keys, Op.Create(key), now, f);
      && done.error == (if f.write then Some(UNAVAILABLE) else None)
      && if f.write then done.keys == keys else OnlyChanged(keys, done.keys, key.keyId, key)
  {
    hide Put, OnlyChanged;
    WriteOnlyChanges(keys, key);
  }

  /** An expired key ends at the moment of the call, so that no later query finds it valid. */
  lemma ExpireEffect(keys: Keys, id: string, now: Time, f: Faults)
    ensures var done, was := Attempt(keys, Op.Expire(id), now, f), Find(keys, id);
      && done.error == (
           if f.get then Some(UNAVAILABLE) else if was == None then Some("Key not found")
           else if was.value.status != Active && was.value.status != Pending then Some("Cannot expire key")
           else if f.write then Some(UNAVAILABLE) else None)
      && if done.error.Some? then done.keys == keys
         else
           var expired := was.value.(status := Expired, validUntil := Some(now));
           OnlyChanged(keys, done.keys, id, expired) && forall at :: at > now ==> !ValidAt(expired, at)
  {
    hide Put, Find, OnlyChanged;
    if Find(keys, id).Some? {
      WriteOnlyChanges(keys, ExpiredBy(Find(keys, id).value, now, 0));
    }
  }

  /** A revoked key is dated, ended and given its reason; revoking it again changes nothing. */
  lemma RevokeEffect(keys: Keys, id: string, reason: string, now: Time, f: Faults)
    ensures var done, was := Attempt(keys, Op.Revoke(id, reason), now, f), Find(keys, id);
      && done.error == (
           if f.get then Some(UNAVAILABLE) else if was == None then Some("Key not found")
           else if was.value.status != Revoked && f.write then Some(UNAVAILABLE) else None)
      && if done.error.Some? || was.value.status == Revoked then done.keys == keys
         else
           var metadata := if was.value.metadata == None then map[] else was.value.metadata.value;
           OnlyChanged(keys, done.keys, id,
                       was.value.(status := Revoked, revokedAt := Some(now), validUntil := Some(now),
                                  metadata := Some(metadata["revokeReason" := Text(reason)])))
  {
    hide Put, Find, OnlyChanged;
    if Find(keys, id).Some? {
      WriteOnlyChanges(keys, RevokedBy(Find(keys, id).value, now, reason));
    }
  }

  /** A key marked failed keeps its dates and is told the error, the moment and its last status. */
  lemma MarkFailedEffect(keys: Keys, id: string, error: string, now: Time, f: Faults)
    ensures var done, was := Attempt(keys, Op.MarkFailed(id, error), now, f), Find(keys, id);
      var ended := was.Some? && (was.value.status == Failed || was.value.status == Revoked);
      && done.error == (
           if f.get then Some(UNAVAILABLE) else if was == None then Some("Key not found")
           else if !ended && f.write then Some(UNAVAILABLE) else None)
      && if done.error.Some? || ended then done.keys == keys
         else
           var metadata := if was.value.metadata == None then map[] else was.value.metadata.value;
           OnlyChanged(keys, done.keys, id,
                       was.value.(status := Failed,
                                  metadata := Some(metadata["failureReason" := Text(error)]["failedAt" := Instant(now)]
                                                           ["previousStatus" := Was(was.value.status)])))
  {
    hide Put, Find, OnlyChanged;
    if Find(keys, id).Some? {
      WriteOnlyChanges(keys, MarkedFailed(Find(keys, id).value, now, error));
    }
  }

  /** Reactivation opens the validity of a stored key again, unless it has ended for good. */
  lemma ReactivateEffect(keys: Keys, id: string, now: Time, f: Faults)
    ensures var done, was := Attempt(keys, Op.Reactivate(id), now, f), Find(keys, id);
      && (done.error == None <==> !f.get && !f.write && was.Some? && was.value.status != Revoked
                                  && was.value.status != Failed)
      && if done.error.Some? then done.keys == keys
         else
           OnlyChanged(keys, done.keys, id,
                       was.value.(status := Active, rotatedAt := Some(now), validUntil := None))
  {
    hide Put, Find, OnlyChanged;
    if Find(keys, id).Some? {
      WriteOnlyChanges(keys, Reactivated(Find(keys, id).value, now));
    }
  }

  /** What `activate` does up to its last write. */
  lemma ActivateFails(keys: Keys, id: string, overlapMs: int, now: Time, f: Faults)
    ensures var done, was, active := Attempt(keys, Op.Activate(id, overlapMs), now, f), Find(keys, id), GetActive(keys);
      done.error == (
        if f.get then Some(UNAVAILABLE) else if was == None then Some("Key not found")
        else if was.value.status != Pending then Some("Cannot activate key")
        else if f.active || (active.Some? && f.expire) || f.write then Some(UNAVAILABLE) else None)
  {
    hide Put, Find, GetActive, Activated;
  }

  /**
   * `activate` makes a pending key the active one and ends the active one after the overlap.  Only a throw of its
   * last write leaves the active key expired and the pending one as it was.
   */
  lemma ActivateEffect(keys: Keys, id: string, overlapMs: int, now: Time, f: Faults, x: string)
    ensures var done, was, active := Attempt(keys, Op.Activate(id, overlapMs), now, f), Find(keys, id), GetActive(keys);
      var expiring := !f.get && was.Some? && was.value.status == Pending && !f.active && active.Some? && !f.expire;
      Find(done.keys, x) ==
        if done.error == None && x == id then Some(was.value.(status := Active, rotatedAt := Some(now)))
        else if expiring && x == active.value.keyId then
          Some(active.value.(status := Expired, validUntil := Some(now + overlapMs)))
        else Find(keys, x)
  {
    hide Put, Find, GetActive;
    ActivateFails(keys, id, overlapMs, now, f);
    if Find(keys, id).Some? {
      var moved := MovedOut(keys, overlapMs, now);
      FindPut(moved, Activated(Find(keys, id).value, now), x);
      if GetActive(keys).Some? {
        FindPut(keys, ExpiredBy(GetActive(keys).value, now, overlapMs), x);
      }
    }
  }

  // ---- The manager ----------------------------------------------------------------------------

  datatype RotationState = RotationState(
    activeKey: Option<SecretKey>,
    pendingKeys: Keys,
    expiredKeys: Keys,
    revokedKeys: Keys,
    failedKeys: Keys,
    lastRotationAt: Option<Time>,
    rotationCount: nat)

  function Rotated(keys: Keys): (r: Keys)
    ensures forall k :: k in r <==> k in keys && k.rotatedAt.Some?
  {
    if keys == [] then []
    else (if keys[0].rotatedAt.Some? then [keys[0]] else []) + Rotated(keys[1..])
  }

  function StateOf(keys: Keys): RotationState {
    var active := FirstWithStatus(keys, Active);
    RotationState(active, WithStatus(keys, Pending), WithStatus(keys, Expired), WithStatus(keys, Revoked),
                  WithStatus(keys, Failed), if active.Some? then active.value.rotatedAt else None, |Rotated(keys)|)
  }

  class KeyLifecycleManager {
    const store: InMemoryKeyStore

    constructor (store: InMemoryKeyStore)
      ensures this.store == store
    {
      this.store := store;
    }

    /** The store holds what attempting `op` gives, which ends with `error`; other secrets are untouched. */
    twostate predicate Performed(name: string, op: Op, now: Time, f: Faults, error: Option<string>)
      reads store
    {
      var done := Attempt(old(store.Held(name)), op, now, f);
      && store.Held(name) == done.keys && error == done.error
      && forall other :: other != name ==> store.Held(other) == old(store.Held(other))
    }

    /** Records sit under their own secret's name. */
    predicate Filed(name: string)
      reads store
    {
      forall k :: k in store.Held(name) ==> k.secretName == name
    }

    method Create(name: string, id: string, material: string, format: Format, validUntil: Option<Time>,
                  metadata: Option<map<string, Meta>>, now: Time, f: Faults) returns (r: Result<SecretKey, string>)
      modifies store
      ensures var key := SecretKey(id, name, material, format, now, validUntil, Pending, now, None, None, metadata);
        && Performed(name, Op.Create(key), now, f, ErrorOf(r)) && (r.Success? ==> r.value == key && IsNew(key))
        && (r.Success? <==> !f.write) && (r.Success? ==> OnlyChanged(old(store.Held(name)), store.Held(name), id, key))
    {
      hide Put, OnlyChanged;
      var key := SecretKey(id, name, material, format, now, validUntil, Pending, now, None, None, metadata);
      CreateEffect(store.Held(name), key, now, f);
      if f.write {
        return Failure(UNAVAILABLE);
      }
      store.Save(key);
      return Success(key);
    }

    method Activate(name: string, id: string, overlapMs: int, now: Time, f: Faults)
      returns (r: Result<SecretKey, string>)
      requires Filed(name)
      modifies store
      ensures Performed(name, Op.Activate(id, overlapMs), now, f, ErrorOf(r)) && Filed(name)
      ensures var keys := old(store.Held(name));
        var was, active := Find(keys, id), KeyModel.GetActive(keys);
        && (r.Success? <==> !f.get && was.Some? && was.value.status == Pending
                            && !f.active && (active.Some? ==> !f.expire) && !f.write)
        && (r.Success? ==>
              && r.value == was.value.(status := Active, rotatedAt := Some(now))
              && forall x :: Find(store.Held(name), x) ==
                   if x == id then Some(r.value)
                   else if active.Some? && x == active.value.keyId then
                     Some(active.value.(status := Expired, validUntil := Some(now + overlapMs)))
                   else Find(keys, x))
    {
      hide Put, Find, Ids, KeyModel.GetActive;
      ActivateFails(store.Held(name), id, overlapMs, now, f);
      forall x { ActivateEffect(store.Held(name), id, overlapMs, now, f, x); }
      if f.get {
        return Failure(UNAVAILABLE);
      }
      var key := store.Get(name, id);
      if key.None? {
        return Failure("Key not found");
      }
      if key.value.status != Pending {
        return Failure("Cannot activate key");
      }
      if f.active {
        return Failure(UNAVAILABLE);
      }
      ghost var before := store.Held(name);
      var current := store.GetActive(name);
      if current.Some? {
        if f.expire {
          return Failure(UNAVAILABLE);
        }
        var expired := current.value.(status := Expired,
          validUntil := Some(if overlapMs != 0 then now + overlapMs else now));
        ActiveIsStored(before);
        FindPut(before, expired, id);
        MembersAfterPut(before, expired);
        var u := store.Update(expired);
      }
      if f.write {
        return Failure(UNAVAILABLE);
      }
      var activated := key.value.(status := Active, rotatedAt := Some(now));
      MembersAfterPut(store.Held(name), activated);
      var u := store.Update(activated);
      return Success(activated);
    }

    method Expire(name: string, id: string, now: Time, f: Faults) returns (r: Result<SecretKey, string>)
      requires Filed(name)
      modifies store
      ensures Performed(name, Op.Expire(id), now, f, ErrorOf(r)) && Filed(name)
      ensures var keys, was := old(store.Held(name)), old(Find(store.Held(name), id));
        && (r.Success? <==>
              !f.get && was.Some? && (was.value.status == Active || was.value.status == Pending) && !f.write)
        && (r.Failure? ==> store.Held(name) == keys)
        && (r.Success? ==>
              && r.value == was.value.(status := Expired, validUntil := Some(now))
              && OnlyChanged(keys, store.Held(name), id, r.value)
              && forall at :: at > now ==> !ValidAt(r.value, at))
    {
      hide Put, OnlyChanged;
      ExpireEffect(store.Held(name), id, now, f);
      if f.get {
        return Failure(UNAVAILABLE);
      }
      var key := store.Get(name, id);
      if key.None? {
        return Failure("Key not found");
      }
      if key.value.status != Active && key.value.status != Pending {
        return Failure("Cannot expire key");
      }
      if f.write {
        return Failure(UNAVAILABLE);
      }
      var expired := key.value.(status := Expired, validUntil := Some(now));
      MembersAfterPut(store.Held(name), expired);
      var u := store.Update(expired);
      return Success(expired);
    }

    method Revoke(name: string, id: string, reason: string, now: Time, f: Faults) returns (r: Result<SecretKey, string>)
      requires Filed(name)
      modifies store
      ensures Performed(name, Op.Revoke(id, reason), now, f, ErrorOf(r)) && Filed(name)
      ensures var keys, was := old(store.Held(name)), old(Find(store.Held(name), id));
        && (r.Success? <==> !f.get && was.Some? && (was.value.status == Revoked || !f.write))
        && (r.Failure? || was.value.status == Revoked ==> store.Held(name) == keys)
        && (r.Success? && was.value.status == Revoked ==> r.value == was.value)
        && (r.Success? && was.value.status != Revoked ==>
              && OnlyChanged(keys, store.Held(name), id, r.value)
              && var metadata := if was.value.metadata == None then map[] else was.value.metadata.value;
                 r.value == was.value.(status := Revoked, revokedAt := Some(now), validUntil := Some(now),
                                       metadata := Some(metadata["revokeReason" := Text(reason)])))
    {
      hide Put, OnlyChanged;
      RevokeEffect(store.Held(name), id, reason, now, f);
      if f.get {
        return Failure(UNAVAILABLE);
      }
      var key := store.Get(name, id);
      if key.None? {
        return Failure("Key not found");
      }
      if key.value.status == Revoked {
        return Success(key.value);
      }
      if f.write {
        return Failure(UNAVAILABLE);
      }
      var metadata := if key.value.metadata.Some? then key.value.metadata.value else map[];
      var revoked := key.value.(status := Revoked, revokedAt := Some(now), validUntil := Some(now),
                                metadata := Some(metadata["revokeReason" := Text(reason)]));
      MembersAfterPut(store.Held(name), revoked);
      var u := store.Update(revoked);
      return Success(revoked);
    }

    method MarkFailed(name: string, id: string, error: string, now: Time, f: Faults)
      returns (r: Result<SecretKey, string>)
      requires Filed(name)
      modifies store
      ensures Performed(name, Op.MarkFailed(id, error), now, f, ErrorOf(r)) && Filed(name)
      ensures var keys, was := old(store.Held(name)), old(Find(store.Held(name), id));
        var ended := was.Some? && (was.value.status == Failed || was.value.status == Revoked);
        && (r.Success? <==> !f.get && was.Some? && (ended || !f.write))
        && (r.Failure? || ended ==> store.Held(name) == keys)
        && (r.Success? && ended ==> r.value == was.value)
        && (r.Success? && !ended ==>
              && OnlyChanged(keys, store.Held(name), id, r.value)
              && var metadata := if was.value.metadata == None then map[] else was.value.metadata.value;
                 r.value == was.value.(status := Failed,
                   metadata := Some(metadata["failureReason" := Text(error)]["failedAt" := Instant(now)]
                                            ["previousStatus" := Was(was.value.status)])))
    {
      hide Put, OnlyChanged;
      MarkFailedEffect(store.Held(name), id, error, now, f);
      if f.get {
        return Failure(UNAVAILABLE);
      }
      var key := store.Get(name, id);
      if key.None? {
        return Failure("Key not found");
      }
      if key.value.status == Failed || key.value.status == Revoked {
        return Success(key.value);
      }
      if f.write {
        return Failure(UNAVAILABLE);
      }
      var metadata := if key.value.metadata.Some? then key.value.metadata.value else map[];
      var failed := key.value.(status := Failed,
        metadata := Some(metadata["failureReason" := Text(error)]["failedAt" := Instant(now)]
                                 ["previousStatus" := Was(key.value.status)]));
      MembersAfterPut(store.Held(name), failed);
      var u := store.Update(failed);
      return Success(failed);
    }

    method GetState(name: string) returns (state: RotationState)
      ensures state == StateOf(store.Held(name))
    {
      var keys := store.List(name);
      var active := FirstWithStatus(keys, Active);
      state := RotationState(active, WithStatus(keys, Pending), WithStatus(keys, Expired), WithStatus(keys, Revoked),
                             WithStatus(keys, Failed), if active.Some? then active.value.rotatedAt else None,
                             |Rotated(keys)|);
    }
  }

  // ---- getState -------------------------------------------------------------------------------

  lemma {:induction false} StatusesPartition(keys: Keys)
    ensures multiset(keys) == multiset(WithStatus(keys, Active)) + multiset(WithStatus(keys, Pending))
      + multiset(WithStatus(keys, Expired)) + multiset(WithStatus(keys, Revoked)) + multiset(WithStatus(keys, Failed))
  {
    hide WithStatus;
    if keys == [] {
      NoneWithStatus();
    } else {
      StatusesPartition(keys[1..]);
      assert keys == [keys[0]] + keys[1..];
      WithStatusFirst(keys, Active);
      WithStatusFirst(keys, Pending);
      WithStatusFirst(keys, Expired);
      WithStatusFirst(keys, Revoked);
      WithStatusFirst(keys, Failed);
    }
  }

  lemma NoneWithStatus()
    ensures forall s :: WithStatus([], s) == []
  {
  }

  lemma WithStatusFirst(keys: Keys, s: Status)
    requires keys != []
    ensures var rest := multiset(WithStatus(keys[1..], s));
      multiset(WithStatus(keys, s)) == if s == keys[0].status then multiset{keys[0]} + rest else rest
  {
  }

  lemma {:induction false} LoneActive(keys: Keys)
    requires AtMostOneActive(keys)
    ensures WithStatus(keys, Active) ==
      if FirstWithStatus(keys, Active).Some? then [FirstWithStatus(keys, Active).value] else []
  {
    if keys != [] {
      var rest := keys[1..];
      forall i, j | 0 <= i < |rest| && 0 <= j < |rest| && rest[i].status == Active && rest[j].status == Active
        ensures i == j
      {
        assert keys[i + 1] == rest[i] && keys[j + 1] == rest[j];
      }
      LoneActive(rest);
      if keys[0].status == Active {
        forall k | k in rest ensures k.status != Active {
          var i :| 0 <= i < |rest| && rest[i] == k;
          assert keys[i + 1] == k;
        }
        assert WithStatus(rest, Active) == [];
      }
    }
  }

  /** `getState` splits the records into its lists: with at most one active key none is lost or repeated. */
  lemma StatePartitionsKeys(keys: Keys)
    requires AtMostOneActive(keys)
    ensures var s := StateOf(keys);
      multiset(keys) == multiset(if s.activeKey.Some? then [s.activeKey.value] else []) + multiset(s.pendingKeys)
        + multiset(s.expiredKeys) + multiset(s.revokedKeys) + multiset(s.failedKeys)
  {
    StatusesPartition(keys);
    LoneActive(keys);
  }

  lemma {:induction false} StatusCounts(keys: Keys, status: Status, k: SecretKey)
    ensures multiset(WithStatus(keys, status))[k] == if k.status == status then multiset(keys)[k] else 0
  {
    if keys != [] {
      StatusCounts(keys[1..], status, k);
      assert keys == [keys[0]] + keys[1..];
    }
  }

  lemma {:induction false} FirstActive(keys: Keys, i: nat)
    requires i < |keys| && keys[i].status == Active && forall j :: 0 <= j < i ==> keys[j].status != Active
    ensures FirstWithStatus(keys, Active) == Some(keys[i])
  {
    if i > 0 {
      FirstActive(keys[1..], i - 1);
    }
  }

  /**
   * Each list of `getState` holds the records of its own status, as often as they are stored; the active key is
   * the first active record, and there is none exactly when no record is active.
   */
  lemma StateListsByStatus(keys: Keys, k: SecretKey)
    ensures var s, n := StateOf(keys), multiset(keys)[k];
      && multiset(s.pendingKeys)[k] == (if k.status == Pending then n else 0)
      && multiset(s.expiredKeys)[k] == (if k.status == Expired then n else 0)
      && multiset(s.revokedKeys)[k] == (if k.status == Revoked then n else 0)
      && multiset(s.failedKeys)[k] == (if k.status == Failed then n else 0)
      && (s.activeKey == None <==> forall a :: a in keys ==> a.status != Active)
      && s.lastRotationAt == (if s.activeKey == None then None else s.activeKey.value.rotatedAt)
    ensures forall i ::
      0 <= i < |keys| && keys[i].status == Active && (forall j :: 0 <= j < i ==> keys[j].status != Active) ==>
        StateOf(keys).activeKey == Some(keys[i])
  {
    hide WithStatus, FirstWithStatus;
    StatusCounts(keys, Pending, k);
    StatusCounts(keys, Expired, k);
    StatusCounts(keys, Revoked, k);
    StatusCounts(keys, Failed, k);
    forall i | 0 <= i < |keys| && keys[i].status == Active && forall j :: 0 <= j < i ==> keys[j].status != Active {
      FirstActive(keys, i);
    }
  }

  // ---- Which keys have been active ------------------------------------------------------------

  ghost function ActiveIds(keys: Keys): set<string> {
    set k | k in keys && k.status == Active :: k.keyId
  }

  ghost predicate Consistent(keys: Keys, ever: set<string>) {
    && Distinct(keys) && ever <= Ids(keys)
    && forall k :: k in keys ==>
      && (k.rotatedAt.Some? <==> k.keyId in ever)
      && (k.status == Active ==> k.rotatedAt.Some?) && (k.status == Pending ==> k.rotatedAt.None?)
  }

  /** A write of one record, as far as the counts are concerned. */
  lemma PutConsistent(keys: Keys, ever: set<string>, key: SecretKey)
    requires Consistent(keys, ever) && (key.keyId in Ids(keys) || (IsNew(key) && key.keyId !in Ids(keys)))
    requires key.status == Active ==> key.rotatedAt.Some?
    requires key.status == Pending ==> key.rotatedAt.None?
    requires key.rotatedAt.None? ==> key.keyId !in ever
    requires key.rotatedAt.Some? ==> key.keyId in ever || key.status == Active
    ensures Consistent(Put(keys, key), ever + ActiveIds(Put(keys, key)))
    ensures ActiveIds(Put(keys, key)) ==
      ActiveIds(keys) - {key.keyId} + (if key.status == Active then {key.keyId} else {})
  {
    var put := Put(keys, key);
    PutIds(keys, key);
    if key.keyId in Ids(keys) {
      PutAt(keys, key);
    } else {
      PutNew(keys, key);
    }
    forall k ensures k in put <==> (k in keys && k.keyId != key.keyId) || k == key {
      FindPut(keys, key, k.keyId);
      if k in put { FindIsUnique(put, k); }
      if k in keys { FindIsUnique(keys, k); }
    }
    assert ActiveIds(keys) <= ever;
  }

  lemma FoundFacts(keys: Keys, ever: set<string>, id: string)
    requires Consistent(keys, ever)
    ensures ever + ActiveIds(keys) == ever && ever <= Ids(keys)
    ensures Find(keys, id).Some? ==>
      var k := Find(keys, id).value;
      && k.keyId == id && id in Ids(keys) && (k.rotatedAt.Some? <==> id in ever)
      && (k.status == Active ==> k.rotatedAt.Some?) && (k.status == Pending ==> k.rotatedAt.None?)
  {
  }

  lemma NewlyActive(ever: set<string>, before: set<string>, after: set<string>, id: string, active: bool)
    requires ever + before == ever && after == before - {id} + (if active then {id} else {})
    ensures ever + after == if active then ever + {id} else ever
  {
    assert before <= ever by {
      forall x | x in before ensures x in ever { assert x in ever + before; }
    }
  }

  lemma {:induction false} DistinctCount(keys: Keys)
    requires Distinct(keys)
    ensures |Ids(keys)| == |keys|
  {
    if keys != [] {
      var rest := keys[1..];
      DistinctCount(rest);
      assert keys[0].keyId !in Ids(rest);
      assert Ids(keys) == Ids(rest) + {keys[0].keyId};
    }
  }

  lemma {:induction false} RotatedIsDistinct(keys: Keys)
    requires Distinct(keys)
    ensures Distinct(Rotated(keys))
  {
    if keys != [] {
      var rest := Rotated(keys[1..]);
      RotatedIsDistinct(keys[1..]);
      assert forall i :: 0 <= i < |rest| ==> rest[i] in keys[1..] && rest[i].keyId != keys[0].keyId;
    }
  }

  lemma CountOfState(keys: Keys, ever: set<string>)
    requires Consistent(keys, ever)
    ensures StateOf(keys).rotationCount == |ever|
  {
    RotatedIsDistinct(keys);
    DistinctCount(Rotated(keys));
    forall id | id in ever ensures id in Ids(Rotated(keys)) {
      var k :| k in keys && k.keyId == id;
    }
    assert Ids(Rotated(keys)) == ever;
  }

  lemma ActiveIsStored(keys: Keys)
    requires GetActive(keys).Some?
    ensures GetActive(keys).value in keys && Find(keys, GetActive(keys).value.keyId).Some?
  {
    GetActiveIsNewest(keys);
  }
}
