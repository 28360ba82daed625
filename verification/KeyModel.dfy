/**
 * Secret keys and the record store of one secret.  A secret's records are the values of a JavaScript
 * Map keyed by key id: a sequence in insertion order, where writing an existing id keeps its place.
 */
module KeyModel {
  import opened Wrappers
  import opened Sorting

  /** Milliseconds since the epoch. */
  type Time = int

  datatype Status = Pending | Active | Expired | Revoked | Failed

  datatype Format = Base64 | Hex | Pem | Raw

  /** Values the library writes into a key's metadata. */
  datatype Meta = Text(text: string) | Instant(at: Time) | Was(status: Status)

  datatype SecretKey = SecretKey(
    keyId: string,
    secretName: string,
    material: string,
    format: Format,
    validFrom: Time,
    validUntil: Option<Time>,
    status: Status,
    createdAt: Time,
    rotatedAt: Option<Time>,
    revokedAt: Option<Time>,
    metadata: Option<map<string, Meta>>)

  type Keys = seq<SecretKey>

  // ---- Map operations -------------------------------------------------------------------------

  function Find(keys: Keys, id: string): (r: Option<SecretKey>)
    ensures r.Some? ==> r.value.keyId == id && r.value in keys
    ensures r.None? <==> id !in Ids(keys)
  {
    if keys == [] then None
    else if keys[0].keyId == id then Some(keys[0])
    else Find(keys[1..], id)
  }

  function Put(keys: Keys, key: SecretKey): Keys {
    if keys == [] then [key]
    else if keys[0].keyId == key.keyId then [key] + keys[1..]
    else [keys[0]] + Put(keys[1..], key)
  }

  function Remove(keys: Keys, id: string): Keys {
    if keys == [] then []
    else if keys[0].keyId == id then keys[1..]
    else [keys[0]] + Remove(keys[1..], id)
  }

  function Ids(keys: Keys): set<string> {
    set k | k in keys :: k.keyId
  }

  /** The map invariant: one record per id. */
  ghost predicate Distinct(keys: Keys) {
    forall i, j :: 0 <= i < j < |keys| ==> keys[i].keyId != keys[j].keyId
  }

  /** `update`: replaces an existing record and refuses a missing one. */
  function Update(keys: Keys, key: SecretKey): Result<Keys, string> {
    if Find(keys, key.keyId).None? then Failure("Key not found") else Success(Put(keys, key))
  }

  // ---- Queries --------------------------------------------------------------------------------

  function WithStatus(keys: Keys, status: Status): (r: Keys)
    ensures forall k :: k in r <==> k in keys && k.status == status
  {
    if keys == [] then []
    else (if keys[0].status == status then [keys[0]] else []) + WithStatus(keys[1..], status)
  }

  /** Whether `getValid` keeps the key at time `at`; pending keys are kept too. */
  predicate ValidAt(key: SecretKey, at: Time) {
    && key.status != Revoked
    && key.status != Failed
    && (key.validUntil.Some? ==> at <= key.validUntil.value)
    && key.validFrom <= at
  }

  function WhereValid(keys: Keys, at: Time): (r: Keys)
    ensures forall k :: k in r <==> k in keys && ValidAt(k, at)
  {
    if keys == [] then []
    else (if ValidAt(keys[0], at) then [keys[0]] else []) + WhereValid(keys[1..], at)
  }

  const NEWEST_FIRST: SecretKey -> real := (k: SecretKey) => -(k.createdAt as real)

  const OLDEST_FIRST: SecretKey -> real := (k: SecretKey) => k.createdAt as real

  function GetActive(keys: Keys): Option<SecretKey> {
    var sorted := SortBy(NEWEST_FIRST, WithStatus(keys, Active));
    if sorted == [] then None else Some(sorted[0])
  }

  function GetValid(keys: Keys, at: Time): Keys {
    SortBy(NEWEST_FIRST, WhereValid(keys, at))
  }

  function FirstWithStatus(keys: Keys, status: Status): (r: Option<SecretKey>)
    ensures r.Some? ==> r.value in keys && r.value.status == status
    ensures r.None? <==> forall k :: k in keys ==> k.status != status
  {
    if keys == [] then None
    else if keys[0].status == status then Some(keys[0])
    else FirstWithStatus(keys[1..], status)
  }

  /** `selectKey`: active before expired before whatever is left (pending). */
  function SelectKey(keys: Keys, at: Time): Option<SecretKey> {
    var valid := GetValid(keys, at);
    if valid == [] then None
    else if FirstWithStatus(valid, Active).Some? then FirstWithStatus(valid, Active)
    else if FirstWithStatus(valid, Expired).Some? then FirstWithStatus(valid, Expired)
    else Some(valid[0])
  }

  // ---- Lifecycle rewrites ---------------------------------------------------------------------

  /** `activate` on the previous key; a zero overlap ends its validity at once. */
  function ExpiredBy(key: SecretKey, now: Time, overlapMs: int): SecretKey {
    key.(status := Expired, validUntil := Some(now + overlapMs))
  }

  function Activated(key: SecretKey, now: Time): SecretKey {
    key.(status := Active, rotatedAt := Some(now))
  }

  function Reactivated(key: SecretKey, now: Time): SecretKey {
    key.(status := Active, rotatedAt := Some(now), validUntil := None)
  }

  function MetadataOf(key: SecretKey): map<string, Meta> {
    if key.metadata.Some? then key.metadata.value else map[]
  }

  function MarkedFailed(key: SecretKey, now: Time, error: string): SecretKey {
    key.(status := Failed,
         metadata := Some(MetadataOf(key)["failureReason" := Text(error)]["failedAt" := Instant(now)]
                                         ["previousStatus" := Was(key.status)]))
  }

  function RevokedBy(key: SecretKey, now: Time, reason: string): SecretKey {
    key.(status := Revoked, revokedAt := Some(now), validUntil := Some(now),
         metadata := Some(MetadataOf(key)["revokeReason" := Text(reason)]))
  }

  predicate Terminal(status: Status) {
    status == Revoked || status == Failed
  }

  // ---- Laws of the record store ---------------------------------------------------------------

  lemma {:induction false} FindPut(keys: Keys, key: SecretKey, id: string)
    ensures Find(Put(keys, key), id) == if id == key.keyId then Some(key) else Find(keys, id)
  {
    if keys != [] {
      if keys[0].keyId == key.keyId {
        assert ([key] + keys[1..])[1..] == keys[1..];
      } else {
        FindPut(keys[1..], key, id);
        assert ([keys[0]] + Put(keys[1..], key))[1..] == Put(keys[1..], key);
      }
    }
  }

  lemma {:induction false} PutIds(keys: Keys, key: SecretKey)
    ensures Ids(Put(keys, key)) == Ids(keys) + {key.keyId}
  {
    forall id ensures id in Ids(Put(keys, key)) <==> id in Ids(keys) + {key.keyId} {
      FindPut(keys, key, id);
    }
  }

  lemma {:induction false} MembersAfterPut(keys: Keys, key: SecretKey)
    ensures forall k :: k in Put(keys, key) ==> k in keys || k == key
  {
    if keys != [] {
      MembersAfterPut(keys[1..], key);
    }
  }

  /** Position by position, a write changes only the record with its own id. */
  lemma {:induction false} PutAt(keys: Keys, key: SecretKey)
    requires Distinct(keys) && key.keyId in Ids(keys)
    ensures |Put(keys, key)| == |keys|
    ensures forall i :: 0 <= i < |keys| ==>
      Put(keys, key)[i] == if keys[i].keyId == key.keyId then key else keys[i]
    ensures Distinct(Put(keys, key))
  {
    var rest := keys[1..];
    if keys[0].keyId != key.keyId {
      assert key.keyId in Ids(rest) by {
        var k :| k in keys && k.keyId == key.keyId;
        assert k in rest;
      }
      PutAt(rest, key);
      assert Put(keys, key) == [keys[0]] + Put(rest, key);
      forall i | 0 <= i < |keys|
        ensures Put(keys, key)[i] == if keys[i].keyId == key.keyId then key else keys[i]
      {
        if i > 0 { assert Put(keys, key)[i] == Put(rest, key)[i - 1] && keys[i] == rest[i - 1]; }
      }
    }
  }

  lemma {:induction false} PutNew(keys: Keys, key: SecretKey)
    requires key.keyId !in Ids(keys)
    ensures Put(keys, key) == keys + [key]
    ensures Distinct(keys) ==> Distinct(Put(keys, key))
  {
    if keys != [] {
      assert keys[0] in keys && forall k :: k in keys[1..] ==> k in keys;
      PutNew(keys[1..], key);
      assert keys + [key] == [keys[0]] + (keys[1..] + [key]);
      forall i, j | 0 <= i < j < |keys + [key]| && Distinct(keys)
        ensures (keys + [key])[i].keyId != (keys + [key])[j].keyId
      {
        assert keys[i] in keys;
      }
    }
  }

  lemma {:induction false} FindIsUnique(keys: Keys, key: SecretKey)
    requires Distinct(keys) && key in keys
    ensures Find(keys, key.keyId) == Some(key)
  {
    if keys[0] != key {
      assert key in keys[1..];
      assert keys[0].keyId != key.keyId;
      FindIsUnique(keys[1..], key);
    }
  }

  lemma {:induction false} RemoveAbsent(keys: Keys, id: string)
    requires id !in Ids(keys)
    ensures Remove(keys, id) == keys
  {
    if keys != [] {
      assert keys[0] in keys && forall k :: k in keys[1..] ==> k in keys;
      RemoveAbsent(keys[1..], id);
    }
  }

  /** Deleting a record takes out its position alone, and keeps the others in order. */
  lemma {:induction false} RemoveAt(keys: Keys, i: nat)
    requires Distinct(keys) && i < |keys|
    ensures Remove(keys, keys[i].keyId) == keys[..i] + keys[i + 1..]
  {
    if i == 0 {
      assert keys[..0] + keys[1..] == keys[1..];
    } else {
      RemoveAt(keys[1..], i - 1);
      FirstKept(keys, i);
    }
  }

  lemma FirstKept(keys: Keys, i: nat)
    requires 0 < i < |keys|
    ensures [keys[0]] + (keys[1..][..i - 1] + keys[1..][i..]) == keys[..i] + keys[i + 1..]
  {
    assert [keys[0]] + keys[1..][..i - 1] == keys[..i];
  }

  /** A deleted record is no longer found, every other one still is, and ids stay distinct. */
  lemma {:induction false} FindRemove(keys: Keys, id: string, x: string)
    requires Distinct(keys)
    ensures Find(Remove(keys, id), x) == if x == id then None else Find(keys, x)
    ensures Distinct(Remove(keys, id))
  {
    if keys != [] {
      var rest := keys[1..];
      if keys[0].keyId == id {
        assert forall k :: k in rest ==> k.keyId != id;
      } else {
        FindRemove(rest, id, x);
        MembersAfterRemove(rest, id);
        assert ([keys[0]] + Remove(rest, id))[1..] == Remove(rest, id);
        var out := Remove(rest, id);
        assert forall i :: 0 <= i < |out| ==> out[i] in rest && out[i].keyId != keys[0].keyId;
      }
    }
  }

  lemma {:induction false} MembersAfterRemove(keys: Keys, id: string)
    ensures forall k :: k in Remove(keys, id) ==> k in keys
  {
    if keys != [] {
      MembersAfterRemove(keys[1..], id);
    }
  }

  lemma {:induction false} PutTwice(keys: Keys, first: SecretKey, second: SecretKey)
    requires first.keyId == second.keyId
    ensures Put(Put(keys, first), second) == Put(keys, second)
  {
    if keys != [] && keys[0].keyId != first.keyId {
      PutTwice(keys[1..], first, second);
      assert ([keys[0]] + Put(keys[1..], first))[1..] == Put(keys[1..], first);
    } else if keys != [] {
      assert ([first] + keys[1..])[1..] == keys[1..];
    }
  }

  lemma {:induction false} PutAppend(keys: Keys, last: SecretKey, key: SecretKey)
    ensures key.keyId in Ids(keys) ==> Put(keys + [last], key) == Put(keys, key) + [last]
    ensures key.keyId !in Ids(keys) && key.keyId == last.keyId ==> Put(keys + [last], key) == keys + [key]
  {
    if keys == [] {
      assert [] + [last] == [last];
    } else {
      var rest := keys[1..];
      assert (keys + [last])[1..] == rest + [last] && (keys + [last])[0] == keys[0];
      assert forall k :: k in keys <==> k == keys[0] || k in rest;
      PutAppend(rest, last, key);
    }
  }

  // ---- What the queries mean ------------------------------------------------------------------

  ghost predicate AtMostOneActive(keys: Keys) {
    forall i, j :: 0 <= i < |keys| && 0 <= j < |keys| && keys[i].status == Active && keys[j].status == Active ==> i == j
  }

  ghost predicate HasActive(keys: Keys) {
    exists i :: 0 <= i < |keys| && keys[i].status == Active
  }

  ghost predicate ExactlyOneActive(keys: Keys) {
    HasActive(keys) && AtMostOneActive(keys)
  }

  /** `getActive` returns a newest active record, and nothing exactly when there is none. */
  lemma GetActiveIsNewest(keys: Keys)
    ensures GetActive(keys).None? <==> !HasActive(keys)
    ensures GetActive(keys).Some? ==>
      var k := GetActive(keys).value;
      && k in keys && k.status == Active
      && forall o :: o in keys && o.status == Active ==> o.createdAt <= k.createdAt
  {
    var actives := WithStatus(keys, Active);
    SameElements(NEWEST_FIRST, actives);
    if HasActive(keys) {
      var i :| 0 <= i < |keys| && keys[i].status == Active;
      assert keys[i] in actives;
      var j := HeadIsFirstLeast(NEWEST_FIRST, actives);
      forall o | o in keys && o.status == Active ensures o.createdAt <= actives[j].createdAt {
        assert o in actives;
        var n :| 0 <= n < |actives| && actives[n] == o;
        assert NEWEST_FIRST(actives[j]) <= NEWEST_FIRST(actives[n]);
      }
    }
  }

  lemma {:induction false} PendingAddsNoActive(keys: Keys, key: SecretKey)
    requires key.status == Pending
    ensures WithStatus(keys + [key], Active) == WithStatus(keys, Active)
  {
    if keys == [] {
      assert [] + [key] == [key] && [key][1..] == [];
    } else {
      assert (keys + [key])[1..] == keys[1..] + [key] && (keys + [key])[0] == keys[0];
      PendingAddsNoActive(keys[1..], key);
    }
  }

  lemma ActiveBesidePending(keys: Keys, key: SecretKey)
    requires key.status == Pending
    ensures GetActive(keys + [key]) == GetActive(keys)
  {
    PendingAddsNoActive(keys, key);
  }

  lemma GetActiveIsTheOne(keys: Keys, key: SecretKey)
    requires AtMostOneActive(keys) && key in keys && key.status == Active
    ensures GetActive(keys) == Some(key)
  {
    GetActiveIsNewest(keys);
  }

  lemma {:induction false} ValidCounts(keys: Keys, at: Time, k: SecretKey)
    ensures multiset(WhereValid(keys, at))[k] == if ValidAt(k, at) then multiset(keys)[k] else 0
  {
    if keys != [] {
      ValidCounts(keys[1..], at, k);
      assert keys == [keys[0]] + keys[1..];
    }
  }

  /**
   * `getValid` returns, newest first, each record neither revoked nor failed that has begun and has not ended, as
   * often as it is stored, and no other.
   */
  lemma GetValidIsWhatIsUsable(keys: Keys, at: Time, k: SecretKey)
    ensures multiset(GetValid(keys, at))[k] ==
      if (k.status == Active || k.status == Pending || k.status == Expired) && k.validFrom <= at
         && (k.validUntil == None || at <= k.validUntil.value)
      then multiset(keys)[k] else 0
    ensures var out := GetValid(keys, at);
      forall i, j :: 0 <= i < j < |out| ==> out[i].createdAt >= out[j].createdAt
  {
    ValidCounts(keys, at, k);
    SortByIsSortedPermutation(NEWEST_FIRST, WhereValid(keys, at));
    var out := GetValid(keys, at);
    forall i, j | 0 <= i < j < |out| ensures out[i].createdAt >= out[j].createdAt {
      assert NEWEST_FIRST(out[i]) <= NEWEST_FIRST(out[j]);
    }
  }

  lemma {:induction false} FirstIsNewest(keys: Keys, status: Status)
    requires SortedBy(NEWEST_FIRST, keys) && FirstWithStatus(keys, status).Some?
    ensures forall o :: o in keys && o.status == status ==>
      o.createdAt <= FirstWithStatus(keys, status).value.createdAt
  {
    forall o | o in keys && o.status == status
      ensures o.createdAt <= FirstWithStatus(keys, status).value.createdAt
    {
      var i :| 0 <= i < |keys| && keys[i] == o;
      if keys[0].status == status {
        assert NEWEST_FIRST(keys[0]) <= NEWEST_FIRST(keys[i]);
      } else {
        assert keys[1..][i - 1] == o;
        FirstIsNewest(keys[1..], status);
      }
    }
  }

  /**
   * `selectKey` finds a key exactly when one is valid; it prefers active to expired to pending, and
   * within the chosen status a newest key.
   */
  lemma SelectKeyPrefers(keys: Keys, at: Time)
    ensures SelectKey(keys, at).None? <==> forall k :: k in keys ==> !ValidAt(k, at)
    ensures SelectKey(keys, at).Some? ==>
      var best := SelectKey(keys, at).value;
      && best in keys && ValidAt(best, at)
      && (best.status != Active ==> forall k :: k in keys && ValidAt(k, at) ==> k.status != Active)
      && (best.status == Pending ==> forall k :: k in keys && ValidAt(k, at) ==> k.status == Pending)
      && forall k :: k in keys && ValidAt(k, at) && k.status == best.status ==> k.createdAt <= best.createdAt
  {
    var kept := WhereValid(keys, at);
    SameElements(NEWEST_FIRST, kept);
    SortByIsSortedPermutation(NEWEST_FIRST, kept);
    var valid := GetValid(keys, at);
    assert forall k :: k in valid <==> k in keys && ValidAt(k, at);
    if valid != [] {
      assert valid[0] in valid;
      if FirstWithStatus(valid, Active).Some? {
        FirstIsNewest(valid, Active);
      } else if FirstWithStatus(valid, Expired).Some? {
        FirstIsNewest(valid, Expired);
      } else {
        assert forall k :: k in valid ==> k.status == Pending;
        assert FirstWithStatus(valid, Pending) == Some(valid[0]);
        FirstIsNewest(valid, Pending);
      }
    }
  }
}
