/** Overlapping validity windows: activation with a cap on usable keys, and revocation after a grace period. */
module KeyWindows {
  import opened Wrappers
  import opened KeyModel
  import opened Sorting
  import opened InMemoryKeyStores

  datatype WindowConfig = WindowConfig(overlapPeriodMs: int, gracePeriodMs: int, maxValidKeys: int)

  predicate Live(key: SecretKey) {
    key.status == Active || key.status == Pending || key.status == Expired
  }

  function LiveKeys(keys: Keys): (r: Keys)
    ensures |r| <= |keys|
  {
    if keys == [] then [] else (if Live(keys[0]) then [keys[0]] else []) + LiveKeys(keys[1..])
  }

  function Withdrawn(key: SecretKey, now: Time): SecretKey {
    key.(status := Revoked, revokedAt := Some(now))
  }

  /** Withdrawing one key after the other. */
  function WithdrawAll(keys: Keys, which: seq<SecretKey>, now: Time): Keys {
    if which == [] then keys
    else Put(WithdrawAll(keys, which[..|which| - 1], now), Withdrawn(which[|which| - 1], now))
  }

  function ExpiredOldestFirst(keys: Keys): Keys {
    SortBy(OLDEST_FIRST, WithStatus(LiveKeys(keys), Expired))
  }

  /** How many expired keys exceed the cap; a cap of zero means none. */
  function Excess(keys: Keys, cap: int): nat {
    var expired, over := |ExpiredOldestFirst(keys)|, |LiveKeys(keys)| - cap;
    if cap == 0 || over <= 0 then 0 else if over <= expired then over else expired
  }

  function Enforced(keys: Keys, cap: int, now: Time): Keys
  {
    var expired := ExpiredOldestFirst(keys);
    var n := Excess(keys, cap);
    if n <= |expired| then WithdrawAll(keys, expired[..n], now) else keys
  }

  /** The records once the new key is active and before the cap is enforced. */
  function Switched(keys: Keys, newKey: SecretKey, overlapMs: int, now: Time): Keys {
    var previous := GetActive(keys);
    var moved := if previous.Some? && previous.value.keyId != newKey.keyId
                 then Put(keys, ExpiredBy(previous.value, now, overlapMs)) else keys;
    Put(moved, Activated(newKey, now))
  }

  /** Whether `cleanupExpired` revokes the key. */
  predicate PastGrace(key: SecretKey, graceMs: int, now: Time) {
    key.status == Expired && (key.validUntil.None? || key.validUntil.value + graceMs < now)
  }

  function Cleaned(key: SecretKey, graceMs: int, now: Time): SecretKey {
    if PastGrace(key, graceMs, now) then Withdrawn(key, now) else key
  }

  function CleanedTo(keys: Keys, n: nat, graceMs: int, now: Time): Keys {
    seq(|keys|, i requires 0 <= i < |keys| => if i < n then Cleaned(keys[i], graceMs, now) else keys[i])
  }

  function PastGraceIds(keys: Keys, graceMs: int, now: Time): seq<string> {
    if keys == [] then []
    else
      var n := |keys| - 1;
      PastGraceIds(keys[..n], graceMs, now) + (if PastGrace(keys[n], graceMs, now) then [keys[n].keyId] else [])
  }

  class KeyWindowManager {
    const store: InMemoryKeyStore
    const config: WindowConfig

    constructor (store: InMemoryKeyStore, config: WindowConfig)
      ensures this.store == store && this.config == config
    {
      this.store, this.config := store, config;
    }

    /** Fails on an unknown key; otherwise switches to it and enforces the cap.  Other secrets are untouched. */
    method Activate(name: string, newKeyId: string, now: Time) returns (r: Result<SecretKey, string>)
      requires forall k :: k in store.Held(name) ==> k.secretName == name
      modifies store
      ensures r.Success? <==> Find(old(store.Held(name)), newKeyId).Some?
      ensures r.Failure? ==> store.store == old(store.store)
      ensures r.Success? ==>
        var newKey := Find(old(store.Held(name)), newKeyId).value;
        && r.value == Activated(newKey, now)
        && store.Held(name) ==
             Enforced(Switched(old(store.Held(name)), newKey, config.overlapPeriodMs, now), config.maxValidKeys, now)
      ensures forall other :: other != name ==> store.Held(other) == old(store.Held(other))
    {
      hide SortBy, Enforced, Put, Find, Ids, KeyModel.GetActive;
      var found := store.Get(name, newKeyId);
      if found.None? {
        return Failure("Key not found");
      }
      var newKey := found.value;
      ghost var before := store.Held(name);
      var previous := store.GetActive(name);
      GetActiveIsNewest(before);
      if previous.Some? && previous.value.keyId != newKeyId {
        var expired := ExpiredBy(previous.value, now, config.overlapPeriodMs);
        FindPut(before, expired, newKeyId);
        MembersAfterPut(before, expired);
        MemberId(before, previous.value);
        var u := store.Update(expired);
      }
      assert Find(store.Held(name), newKeyId).Some?;
      var active := newKey.(status := KeyModel.Active, rotatedAt := Some(now));
      MembersAfterPut(store.Held(name), active);
      var u := store.Update(active);
      EnforceMaxValidKeys(name, now);
      return Success(active);
    }

    method EnforceMaxValidKeys(name: string, now: Time)
      requires forall k :: k in store.Held(name) ==> k.secretName == name
      modifies store
      ensures store.Held(name) == Enforced(old(store.Held(name)), config.maxValidKeys, now)
      ensures forall other :: other != name ==> store.Held(other) == old(store.Held(other))
    {
      hide SortBy, WithdrawAll, LiveKeys, WithStatus, Put, Find, Ids;
      NoneWithdrawn(store.Held(name), ExpiredOldestFirst(store.Held(name)), now);
      if config.maxValidKeys == 0 {
        return;
      }
      var allKeys := store.List(name);
      var live := LiveKeys(allKeys);
      if |live| <= config.maxValidKeys {
        return;
      }
      var toExpire := SortBy(OLDEST_FIRST, WithStatus(live, Expired));
      var over := |live| - config.maxValidKeys;
      var excess := if over <= |toExpire| then toExpire[..over] else toExpire;
      ExpiredAreMembers(allKeys);
      assert toExpire[..|toExpire|] == toExpire;
      NoneWithdrawn(allKeys, excess, now);
      var i := 0;
      while i < |excess|
        invariant 0 <= i <= |excess|
        invariant store.Held(name) == WithdrawAll(allKeys, excess[..i], now)
        invariant forall other :: other != name ==> store.Held(other) == old(store.Held(other))
        invariant Ids(allKeys) <= Ids(store.Held(name))
      {
        var key := excess[i];
        assert key in toExpire && key in allKeys;
        MemberId(allKeys, key);
        PutIds(store.Held(name), Withdrawn(key, now));
        var u := store.Update(key.(status := Revoked, revokedAt := Some(now)));
        OneMoreWithdrawn(allKeys, excess, i, now);
        i := i + 1;
      }
      assert excess[..i] == excess;
    }

    /** Revokes exactly the expired keys past their grace period and reports their ids in order. */
    method CleanupExpired(name: string, now: Time) returns (revoked: seq<string>)
      requires Distinct(store.Held(name)) && forall k :: k in store.Held(name) ==> k.secretName == name
      modifies store
      ensures var before := old(store.Held(name));
        && store.Held(name) == CleanedTo(before, |before|, config.gracePeriodMs, now)
        && revoked == PastGraceIds(before, config.gracePeriodMs, now)
      ensures var before, after := old(store.Held(name)), store.Held(name);
        && |after| == |before|
        && forall i :: 0 <= i < |before| ==>
             var key := before[i];
             var past := key.status == Expired
               && (key.validUntil == None || key.validUntil.value + config.gracePeriodMs < now);
             && after[i] == (if past then key.(status := Revoked, revokedAt := Some(now)) else key)
             && (key.keyId in revoked <==> past)
      ensures forall id :: id in revoked ==> id in Ids(old(store.Held(name)))
      ensures forall a, b, i, j ::
        0 <= a < b < |revoked| && 0 <= i < |old(store.Held(name))| && 0 <= j < |old(store.Held(name))|
        && revoked[a] == old(store.Held(name))[i].keyId && revoked[b] == old(store.Held(name))[j].keyId ==>
          i < j
      ensures forall other :: other != name ==> store.Held(other) == old(store.Held(other))
    {
      hide Put, Find, Distinct, CleanedTo, PastGraceIds, Ids;
      var keys := store.List(name);
      CleanedEffect(keys, config.gracePeriodMs, now);
      ReportedAreCleaned(keys, config.gracePeriodMs, now);
      forall a: nat, b: nat, i: nat, j: nat |
        a < b < |PastGraceIds(keys, config.gracePeriodMs, now)| && i < |keys| && j < |keys|
        && PastGraceIds(keys, config.gracePeriodMs, now)[a] == keys[i].keyId
        && PastGraceIds(keys, config.gracePeriodMs, now)[b] == keys[j].keyId
      {
        ReportedInOrder(keys, config.gracePeriodMs, now, a, b, i, j);
      }
      revoked := [];
      var i := 0;
      NothingCleaned(keys, config.gracePeriodMs, now);
      while i < |keys|
        invariant 0 <= i <= |keys|
        invariant store.Held(name) == CleanedTo(keys, i, config.gracePeriodMs, now)
        invariant revoked == PastGraceIds(keys[..i], config.gracePeriodMs, now)
        invariant forall other :: other != name ==> store.Held(other) == old(store.Held(other))
      {
        var key := keys[i];
        CleanOne(keys, i, config.gracePeriodMs, now);
        CollectOne(keys, i, config.gracePeriodMs, now);
        assert key in keys;
        if key.status == Expired {
          if key.validUntil.None? || key.validUntil.value + config.gracePeriodMs < now {
            var u := store.Update(key.(status := Revoked, revokedAt := Some(now)));
            revoked := revoked + [key.keyId];
          }
        }
        i := i + 1;
      }
      assert keys[..i] == keys;
    }

    method Select(name: string, at: Time) returns (key: Option<SecretKey>)
      ensures key == SelectKey(store.Held(name), at)
    {
      var validKeys := store.GetValid(name, at);
      if |validKeys| == 0 {
        return None;
      }
      var active := FirstWithStatus(validKeys, KeyModel.Active);
      if active.Some? {
        return active;
      }
      var expired := FirstWithStatus(validKeys, Expired);
      if expired.Some? {
        return expired;
      }
      return Some(validKeys[0]);
    }
  }

  lemma MemberId(keys: Keys, key: SecretKey)
    requires key in keys
    ensures key.keyId in Ids(keys)
  {
  }

  lemma NoneWithdrawn(keys: Keys, which: seq<SecretKey>, now: Time)
    ensures WithdrawAll(keys, which[..0], now) == keys
  {
  }

  lemma OneMoreWithdrawn(keys: Keys, which: seq<SecretKey>, i: nat, now: Time)
    requires i < |which|
    ensures WithdrawAll(keys, which[..i + 1], now) == Put(WithdrawAll(keys, which[..i], now), Withdrawn(which[i], now))
  {
    assert which[..i + 1][..i] == which[..i];
  }

  lemma {:induction false} LiveMembers(keys: Keys)
    ensures forall k :: k in LiveKeys(keys) <==> k in keys && Live(k)
  {
    if keys != [] {
      LiveMembers(keys[1..]);
      assert forall k :: k in keys <==> k == keys[0] || k in keys[1..];
    }
  }

  lemma ExpiredAreMembers(keys: Keys)
    ensures forall k :: k in ExpiredOldestFirst(keys) <==> k in keys && k.status == Expired
  {
    LiveMembers(keys);
    SameElements(OLDEST_FIRST, WithStatus(LiveKeys(keys), Expired));
  }

  lemma NothingCleaned(keys: Keys, graceMs: int, now: Time)
    ensures CleanedTo(keys, 0, graceMs, now) == keys && PastGraceIds(keys[..0], graceMs, now) == []
  {
  }

  lemma CleanedEffect(keys: Keys, graceMs: int, now: Time)
    ensures var after := CleanedTo(keys, |keys|, graceMs, now);
      && |after| == |keys|
      && forall i :: 0 <= i < |keys| ==>
           after[i] ==
             if keys[i].status == Expired && (keys[i].validUntil == None || keys[i].validUntil.value + graceMs < now)
             then keys[i].(status := Revoked, revokedAt := Some(now)) else keys[i]
  {
  }

  /** `cleanupExpired` reports a key exactly if it is expired past its grace period. */
  lemma {:induction false} ReportedAreCleaned(keys: Keys, graceMs: int, now: Time)
    requires Distinct(keys)
    ensures forall i :: 0 <= i < |keys| ==>
      (keys[i].keyId in PastGraceIds(keys, graceMs, now) <==>
       keys[i].status == Expired && (keys[i].validUntil == None || keys[i].validUntil.value + graceMs < now))
    ensures forall id :: id in PastGraceIds(keys, graceMs, now) ==> id in Ids(keys)
  {
    hide Ids, Distinct;
    if keys != [] {
      var n := |keys| - 1;
      LastIdIsNew(keys);
      ReportedAreCleaned(keys[..n], graceMs, now);
      forall i | 0 <= i < n ensures keys[i] == keys[..n][i] && keys[i].keyId != keys[n].keyId {
        MemberId(keys[..n], keys[..n][i]);
      }
    }
  }

  /** The report is in insertion order. */
  lemma {:induction false} ReportedInOrder(keys: Keys, graceMs: int, now: Time, a: nat, b: nat, i: nat, j: nat)
    requires Distinct(keys) && a < b < |PastGraceIds(keys, graceMs, now)| && i < |keys| && j < |keys|
    requires PastGraceIds(keys, graceMs, now)[a] == keys[i].keyId
    requires PastGraceIds(keys, graceMs, now)[b] == keys[j].keyId
    ensures i < j
  {
    hide Ids, Distinct;
    var n := |keys| - 1;
    var before := PastGraceIds(keys[..n], graceMs, now);
    LastIdIsNew(keys);
    ReportedAreCleaned(keys[..n], graceMs, now);
    assert before[a] in before && before[a] == keys[i].keyId;
    if b < |before| {
      assert before[b] in before && before[b] == keys[j].keyId;
      ReportedInOrder(keys[..n], graceMs, now, a, b, i, j);
    } else if j < n {
      MemberId(keys[..n], keys[..n][j]);
    }
  }

  lemma LastIdIsNew(keys: Keys)
    requires Distinct(keys) && keys != []
    ensures Distinct(keys[..|keys| - 1]) && keys[|keys| - 1].keyId !in Ids(keys[..|keys| - 1])
    ensures Ids(keys[..|keys| - 1]) <= Ids(keys) && keys[|keys| - 1].keyId in Ids(keys)
  {
    assert forall k :: k in keys[..|keys| - 1] ==> k in keys;
  }

  lemma CollectOne(keys: Keys, i: nat, graceMs: int, now: Time)
    requires i < |keys|
    ensures PastGraceIds(keys[..i + 1], graceMs, now) ==
      PastGraceIds(keys[..i], graceMs, now) + (if PastGrace(keys[i], graceMs, now) then [keys[i].keyId] else [])
  {
    assert keys[..i + 1][..i] == keys[..i];
  }

  lemma CleanOne(keys: Keys, i: nat, graceMs: int, now: Time)
    requires Distinct(keys) && i < |keys|
    ensures CleanedTo(keys, i + 1, graceMs, now) ==
      if PastGrace(keys[i], graceMs, now) then Put(CleanedTo(keys, i, graceMs, now), Withdrawn(keys[i], now))
      else CleanedTo(keys, i, graceMs, now)
    ensures Find(CleanedTo(keys, i, graceMs, now), keys[i].keyId).Some?
  {
    var done := CleanedTo(keys, i, graceMs, now);
    assert done[i] == keys[i] && done[i] in done;
    assert forall j :: 0 <= j < |keys| ==> done[j].keyId == keys[j].keyId;
    PutAt(done, Withdrawn(keys[i], now));
  }

  // ---- What enforcement guarantees ------------------------------------------------------------

  lemma {:induction false} LiveSplit(keys: Keys)
    ensures |LiveKeys(keys)| == |WithStatus(keys, Active)| + |WithStatus(keys, Pending)| + |WithStatus(keys, Expired)|
    ensures WithStatus(LiveKeys(keys), Expired) == WithStatus(keys, Expired)
  {
    if keys != [] {
      var rest := keys[1..];
      LiveSplit(rest);
      if Live(keys[0]) {
        assert LiveKeys(keys) == [keys[0]] + LiveKeys(rest);
        assert LiveKeys(keys)[1..] == LiveKeys(rest);
      } else {
        assert LiveKeys(keys) == LiveKeys(rest);
        assert forall s :: s == Active || s == Pending || s == Expired ==> WithStatus(keys, s) == WithStatus(rest, s);
      }
    }
  }

  lemma {:induction false} PutLive(keys: Keys, old_: SecretKey, key: SecretKey)
    requires Distinct(keys) && Find(keys, key.keyId) == Some(old_)
    ensures |LiveKeys(Put(keys, key))| ==
      |LiveKeys(keys)| - (if Live(old_) then 1 else 0) + (if Live(key) then 1 else 0)
  {
    if keys[0].keyId == key.keyId {
      assert ([key] + keys[1..])[1..] == keys[1..];
    } else {
      PutLive(keys[1..], old_, key);
      assert ([keys[0]] + Put(keys[1..], key))[1..] == Put(keys[1..], key);
    }
  }

  /** Withdrawing distinct expired records lowers the live count by their number and rewrites nothing else. */
  lemma {:induction false} WithdrawAllSpec(keys: Keys, which: seq<SecretKey>, now: Time)
    requires Distinct(keys) && Distinct(which)
    requires forall k :: k in which ==> k in keys && k.status == Expired
    ensures var out := WithdrawAll(keys, which, now);
      && Distinct(out) && Ids(out) == Ids(keys) && |LiveKeys(out)| == |LiveKeys(keys)| - |which|
      && forall k :: k in keys ==> Find(out, k.keyId) == Some(if k in which then Withdrawn(k, now) else k)
  {
    hide Put, Find, Ids, LiveKeys;
    if which == [] {
      forall k | k in keys ensures Find(keys, k.keyId) == Some(k) {
        FindIsUnique(keys, k);
      }
    } else {
      var n := |which| - 1;
      var before, last := which[..n], which[n];
      WithdrawAllSpec(keys, before, now);
      var mid := WithdrawAll(keys, before, now);
      assert last !in before && Find(mid, last.keyId) == Some(last);
      PutLive(mid, last, Withdrawn(last, now));
      PutAt(mid, Withdrawn(last, now));
      PutIds(mid, Withdrawn(last, now));
      forall k | k in keys
        ensures Find(WithdrawAll(keys, which, now), k.keyId) == Some(if k in which then Withdrawn(k, now) else k)
      {
        FindPut(mid, Withdrawn(last, now), k.keyId);
        assert k in which <==> k in before || k == last;
        if k.keyId == last.keyId {
          FindIsUnique(keys, k);
          FindIsUnique(keys, last);
        }
      }
    }
  }

  lemma {:induction false} FilterDistinct(keys: Keys, status: Status)
    requires Distinct(keys)
    ensures Distinct(WithStatus(keys, status))
  {
    if keys != [] {
      FilterDistinct(keys[1..], status);
      var rest := WithStatus(keys[1..], status);
      assert forall j :: 0 <= j < |rest| ==> rest[j] in keys[1..] && rest[j].keyId != keys[0].keyId;
    }
  }

  lemma TwiceInMultiset(s: Keys, i: nat, j: nat)
    requires i < j < |s| && s[i] == s[j]
    ensures multiset(s)[s[i]] >= 2
  {
    assert s == s[..j] + [s[j]] + s[j + 1..];
    assert s[..j][i] == s[i] && s[i] in s[..j];
    assert multiset(s) == multiset(s[..j]) + multiset([s[j]]) + multiset(s[j + 1..]);
  }

  lemma {:induction false} OnceInMultiset(s: Keys, k: SecretKey)
    requires Distinct(s)
    ensures multiset(s)[k] <= 1
  {
    if s != [] {
      OnceInMultiset(s[1..], k);
      assert s == [s[0]] + s[1..];
      assert k == s[0] ==> k !in s[1..];
    }
  }

  lemma ExpiredAreDistinct(keys: Keys)
    requires Distinct(keys)
    ensures Distinct(ExpiredOldestFirst(keys)) && |ExpiredOldestFirst(keys)| == |WithStatus(keys, Expired)|
    ensures SortedBy(OLDEST_FIRST, ExpiredOldestFirst(keys))
  {
    LiveSplit(keys);
    ExpiredAreMembers(keys);
    var expired, sorted := WithStatus(keys, Expired), ExpiredOldestFirst(keys);
    FilterDistinct(keys, Expired);
    SortByIsSortedPermutation(OLDEST_FIRST, expired);
    SameElements(OLDEST_FIRST, expired);
    forall i, j | 0 <= i < j < |sorted| ensures sorted[i].keyId != sorted[j].keyId {
      if sorted[i].keyId == sorted[j].keyId {
        assert sorted[i] in keys && sorted[j] in keys;
        FindIsUnique(keys, sorted[i]);
        FindIsUnique(keys, sorted[j]);
        TwiceInMultiset(sorted, i, j);
        OnceInMultiset(expired, sorted[i]);
        assert false;
      }
    }
  }

  function Larger(a: int, b: int): int {
    if a >= b then a else b
  }

  /** Switching keys changes two records: the new key becomes active, the previous one ends after the overlap. */
  lemma SwitchedEffect(keys: Keys, newKey: SecretKey, overlapMs: int, now: Time, x: string)
    ensures var previous := GetActive(keys);
      Find(Switched(keys, newKey, overlapMs, now), x) ==
        if x == newKey.keyId then Some(newKey.(status := Active, rotatedAt := Some(now)))
        else if previous.Some? && x == previous.value.keyId then
          Some(previous.value.(status := Expired, validUntil := Some(now + overlapMs)))
        else Find(keys, x)
  {
    hide Find, Put, GetActive;
    var previous := GetActive(keys);
    if previous.Some? && previous.value.keyId != newKey.keyId {
      var expired := ExpiredBy(previous.value, now, overlapMs);
      FindPut(Put(keys, expired), Activated(newKey, now), x);
      FindPut(keys, expired, x);
    } else {
      FindPut(keys, Activated(newKey, now), x);
    }
  }

  /**
   * Enforcing the cap leaves at most the cap, or the active and pending keys if they alone exceed it; it revokes
   * expired keys only, no more of them than needed, and the oldest ones.  A cap of zero enforces nothing.
   */
  lemma CapIsEnforced(keys: Keys, cap: int, now: Time)
    requires Distinct(keys)
    ensures var out, live := Enforced(keys, cap, now), |LiveKeys(keys)|;
      var inUse := |WithStatus(keys, Active)| + |WithStatus(keys, Pending)|;
      var withdrawn := ExpiredOldestFirst(keys)[..Excess(keys, cap)];
      && |LiveKeys(out)| == (if cap == 0 || live <= cap then live else Larger(cap, inUse))
      && |withdrawn| == live - |LiveKeys(out)|
      && (forall k :: k in withdrawn ==> k in keys && k.status == Expired)
      && (forall k :: k in keys ==>
            Find(out, k.keyId) == Some(if k in withdrawn then k.(status := Revoked, revokedAt := Some(now)) else k))
      && (forall k, e :: k in withdrawn && e in keys && e.status == Expired && e !in withdrawn ==>
            k.createdAt <= e.createdAt)
  {
    hide WithdrawAll, SortBy, LiveKeys, WithStatus, Find, ExpiredOldestFirst, Enforced, Excess, Ids;
    LiveSplit(keys);
    ExpiredAreMembers(keys);
    ExpiredAreDistinct(keys);
    EnforcedWithdraws(keys, cap, now);
    var sorted, n := ExpiredOldestFirst(keys), Excess(keys, cap);
    var withdrawn := sorted[..n];
    assert forall k :: k in withdrawn ==> k in sorted;
    WithdrawAllSpec(keys, withdrawn, now);
    forall k, e | k in withdrawn && e in keys && e.status == Expired && e !in withdrawn
      ensures k.createdAt <= e.createdAt
    {
      OldestComeFirst(sorted, n, k, e);
    }
  }

  lemma EnforcedWithdraws(keys: Keys, cap: int, now: Time)
    ensures var n, expired, live := Excess(keys, cap), |ExpiredOldestFirst(keys)|, |LiveKeys(keys)|;
      && n <= expired && Enforced(keys, cap, now) == WithdrawAll(keys, ExpiredOldestFirst(keys)[..n], now)
      && live - n == if cap == 0 || live <= cap then live else Larger(cap, live - expired)
  {
    hide WithdrawAll, LiveKeys, ExpiredOldestFirst;
  }

  lemma OldestComeFirst(sorted: Keys, n: nat, k: SecretKey, e: SecretKey)
    requires SortedBy(OLDEST_FIRST, sorted) && n <= |sorted| && k in sorted[..n] && e in sorted && e !in sorted[..n]
    ensures k.createdAt <= e.createdAt
  {
    var i :| 0 <= i < n && sorted[i] == k;
    var j :| 0 <= j < |sorted| && sorted[j] == e;
    assert forall a :: 0 <= a < n ==> sorted[a] == sorted[..n][a] && sorted[a] in sorted[..n];
    assert OLDEST_FIRST(sorted[i]) <= OLDEST_FIRST(sorted[j]);
  }

  lemma SwitchedDistinct(keys: Keys, newKey: SecretKey, overlapMs: int, now: Time)
    requires Distinct(keys) && Find(keys, newKey.keyId) == Some(newKey)
    ensures Distinct(Switched(keys, newKey, overlapMs, now))
    ensures GetActive(keys).Some? && GetActive(keys).value.keyId != newKey.keyId ==>
      ExpiredBy(GetActive(keys).value, now, overlapMs) in Switched(keys, newKey, overlapMs, now)
  {
    GetActiveIsNewest(keys);
    var previous := GetActive(keys);
    if previous.Some? && previous.value.keyId != newKey.keyId {
      var expired := ExpiredBy(previous.value, now, overlapMs);
      PutAt(keys, expired);
      PutIds(keys, expired);
      PutAt(Put(keys, expired), Activated(newKey, now));
      FindPut(keys, expired, expired.keyId);
      FindPut(Put(keys, expired), Activated(newKey, now), expired.keyId);
    } else {
      PutAt(keys, Activated(newKey, now));
    }
  }

  /**
   * The key that `activate` has just expired keeps its overlap: the cap spares it if it is strictly newest
   * among the expired ones and the active and pending keys do not fill the cap; and `cleanupExpired`
   * revokes it only after its overlap and its grace period.
   */
  lemma JustExpiredKeySurvives(keys: Keys, newKey: SecretKey, c: WindowConfig, now: Time, later: Time)
    requires Distinct(keys) && Find(keys, newKey.keyId) == Some(newKey) && newKey.status == Pending
    requires c.maxValidKeys >= 1
    requires GetActive(keys).Some?
    requires var switched := Switched(keys, newKey, c.overlapPeriodMs, now);
      var expired := ExpiredBy(GetActive(keys).value, now, c.overlapPeriodMs);
      && (forall e :: e in switched && e.status == Expired && e != expired ==> e.createdAt < expired.createdAt)
      && |WithStatus(switched, Active)| + |WithStatus(switched, Pending)| < c.maxValidKeys
    ensures var switched := Switched(keys, newKey, c.overlapPeriodMs, now);
      var expired := ExpiredBy(GetActive(keys).value, now, c.overlapPeriodMs);
      && Find(Enforced(switched, c.maxValidKeys, now), expired.keyId) == Some(expired)
      && (PastGrace(expired, c.gracePeriodMs, later) <==> later > now + c.overlapPeriodMs + c.gracePeriodMs)
  {
    hide WithdrawAll, SortBy, LiveKeys, WithStatus, Find, ExpiredOldestFirst, Switched, Enforced, GetActive;
    var switched := Switched(keys, newKey, c.overlapPeriodMs, now);
    var expired := ExpiredBy(GetActive(keys).value, now, c.overlapPeriodMs);
    GetActiveIsNewest(keys);
    FindIsUnique(keys, GetActive(keys).value);
    SwitchedDistinct(keys, newKey, c.overlapPeriodMs, now);
    CapIsEnforced(switched, c.maxValidKeys, now);
    LiveSplit(switched);
    ExpiredAreMembers(switched);
    ExpiredAreDistinct(switched);
    NewestIsLast(ExpiredOldestFirst(switched), expired, Excess(switched, c.maxValidKeys));
  }

  lemma NewestIsLast(sorted: Keys, newest: SecretKey, n: nat)
    requires SortedBy(OLDEST_FIRST, sorted) && Distinct(sorted) && newest in sorted && n < |sorted|
    requires forall e :: e in sorted && e != newest ==> e.createdAt < newest.createdAt
    ensures newest !in sorted[..n]
  {
    var last := |sorted| - 1;
    var i :| 0 <= i <= last && sorted[i] == newest;
    assert OLDEST_FIRST(sorted[i]) <= OLDEST_FIRST(sorted[last]) && sorted[last] in sorted;
    assert sorted[last] == newest;
    assert forall a :: 0 <= a < n ==> sorted[a].keyId != sorted[last].keyId;
  }
}
