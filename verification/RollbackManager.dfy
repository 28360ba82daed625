/** The rollback manager: a bounded list of rotation entries, and the compensation of a failed rotation. */
module RollbackManagers {
  import opened Wrappers
  import opened KeyModel
  import opened InMemoryKeyStores
  import opened KeyLifecycles
  import opened StagedProvider
  import M = RotationMachine

  /** Which store calls of a compensation throw. */
  datatype UndoFaults = UndoFaults(mark: Faults, reactivate: Faults)

  /** Marking the new key failed, if there is one, then reactivating the previous key, if there is one. */
  function RolledBack(keys: Keys, newId: Option<string>, prevId: Option<string>, error: string, now: Time,
                      f: UndoFaults): Keys
  {
    var marked := if newId.Some? then Attempt(keys, Op.MarkFailed(newId.value, error), now, f.mark).keys else keys;
    if prevId.Some? && prevId.value != "" then Attempt(marked, Op.Reactivate(prevId.value), now, f.reactivate).keys
    else marked
  }

  /** A key that marking or reactivating goes on from: stored and not ended. */
  predicate Correctable(keys: Keys, id: Option<string>, f: Faults) {
    && id.Some? && !f.get && !f.write && Find(keys, id.value).Some?
    && Find(keys, id.value).value.status != Failed && Find(keys, id.value).value.status != Revoked
  }

  /**
   * Record by record, a rollback marks the new key failed and gives the previous one back its open validity, each
   * unless the store throws or the key has ended, and touches no other.
   */
  lemma RolledBackEffect(keys: Keys, newId: Option<string>, prevId: Option<string>, error: string, now: Time,
                         f: UndoFaults, x: string)
    ensures var after, marking := RolledBack(keys, newId, prevId, error, now, f), Correctable(keys, newId, f.mark);
      Find(after, x) ==
        if marking && newId == Some(x) then
          var k := Find(keys, x).value;
          var metadata := if k.metadata == None then map[] else k.metadata.value;
          Some(k.(status := Failed,
                  metadata := Some(metadata["failureReason" := Text(error)]["failedAt" := Instant(now)]
                                           ["previousStatus" := Was(k.status)])))
        else if prevId == Some(x) && x != "" && Correctable(keys, prevId, f.reactivate) then
          Some(Find(keys, x).value.(status := Active, rotatedAt := Some(now), validUntil := None))
        else Find(keys, x)
  {
    hide Find, Put, Attempt;
    if newId.Some? {
      MarkFailedEffect(keys, newId.value, error, now, f.mark);
      if prevId.Some? && prevId.value != "" {
        ReactivateEffect(Attempt(keys, Op.MarkFailed(newId.value, error), now, f.mark).keys, prevId.value, now,
                         f.reactivate);
      }
    } else if prevId.Some? && prevId.value != "" {
      ReactivateEffect(keys, prevId.value, now, f.reactivate);
    }
  }

  /** The previous key comes back unless the store throws or it has ended, be it by having been marked just now. */
  lemma ReactivationSucceeds(keys: Keys, newId: string, prevId: string, error: string, now: Time, f: UndoFaults)
    ensures var marked := Attempt(keys, Op.MarkFailed(newId, error), now, f.mark).keys;
      Attempt(marked, Op.Reactivate(prevId), now, f.reactivate).error.None? <==>
        Correctable(keys, Some(prevId), f.reactivate)
        && !(prevId == newId && Correctable(keys, Some(prevId), f.mark))
  {
    hide Find, Put, Attempt;
    MarkFailedEffect(keys, newId, error, now, f.mark);
    ReactivateEffect(Attempt(keys, Op.MarkFailed(newId, error), now, f.mark).keys, prevId, now, f.reactivate);
  }

  /** The first entry with the id. */
  function EntryOf(entries: seq<M.Entry>, id: M.Rid): (r: Option<M.Entry>)
    ensures r.Some? <==> M.Kept(entries, id)
    ensures r.Some? ==> r.value in entries && r.value.id == id
  {
    if entries == [] then None
    else if entries[0].id == id then Some(entries[0])
    else
      var later := EntryOf(entries[1..], id);
      assert forall e :: e in entries <==> e == entries[0] || e in entries[1..];
      later
  }

  lemma {:induction false} CompletesFirst(entries: seq<M.Entry>, id: M.Rid, i: nat)
    requires i <= |entries| && (forall j :: 0 <= j < i ==> entries[j].id != id)
    requires i < |entries| ==> entries[i].id == id
    ensures M.CompleteEntry(entries, id) ==
      if i < |entries| then entries[i := entries[i].(completed := true)] else entries
  {
    if i > 0 {
      CompletesFirst(entries[1..], id, i - 1);
      assert entries == [entries[0]] + entries[1..];
    } else if entries != [] {
      assert entries == [entries[0]] + entries[1..];
    }
  }

  class RollbackManager {
    const store: InMemoryKeyStore
    const provider: InMemoryProvider
    const lifecycle: KeyLifecycleManager
    const maxEntries: int
    var entries: seq<M.Entry>

    constructor (provider: InMemoryProvider, store: InMemoryKeyStore, maxEntries: int)
      ensures this.store == store && this.provider == provider && this.maxEntries == maxEntries
      ensures lifecycle.store == store && entries == []
    {
      var l := new KeyLifecycleManager(store);
      this.provider, this.store, this.lifecycle, this.maxEntries, entries := provider, store, l, maxEntries, [];
    }

    method StartRotation(id: M.Rid, secret: string, newKeyId: string, prevId: Option<string>, hasSession: bool)
      returns (entry: M.Entry)
      modifies this
      ensures entry == M.Entry(id, secret, newKeyId, prevId, hasSession, false)
      ensures entries == M.PushEntry(old(entries), entry, maxEntries)
    {
      entry := M.Entry(id, secret, newKeyId, prevId, hasSession, false);
      entries := entries + [entry];
      if |entries| > maxEntries {
        entries := JsSlice(entries, -maxEntries);
      }
    }

    method MarkComplete(id: M.Rid)
      modifies this
      ensures entries == M.CompleteEntry(old(entries), id)
    {
      var i := 0;
      while i < |entries| && entries[i].id != id
        invariant 0 <= i <= |entries| && forall j :: 0 <= j < i ==> entries[j].id != id
      {
        i := i + 1;
      }
      CompletesFirst(entries, id, i);
      if i < |entries| {
        entries := entries[i := entries[i].(completed := true)];
      }
    }

    method GetEntry(id: M.Rid) returns (entry: Option<M.Entry>)
      ensures entry == EntryOf(entries, id)
    {
      entry := EntryOf(entries, id);
    }

    /**
     * Compensates the entry's rotation; `cancelFails` is the provider's answer.  It succeeds unless reactivating
     * the previous key throws, and in that case has still marked the new key, if the store let it.
     */
    method Rollback(entry: M.Entry, error: string, cancelFails: bool, now: Time, f: UndoFaults) returns (success: bool)
      requires lifecycle.store == store && lifecycle.Filed(entry.secret)
      modifies store, provider
      ensures store.Held(entry.secret) ==
        RolledBack(old(store.Held(entry.secret)), Some(entry.newKeyId), entry.prevId, error, now, f)
      ensures forall other :: other != entry.secret ==> store.Held(other) == old(store.Held(other))
      ensures if entry.hasSession && !cancelFails
        then provider.secrets == old(provider.secrets)[entry.secret := Cancel(old(provider.Held(entry.secret)))]
        else provider.secrets == old(provider.secrets)
      ensures lifecycle.Filed(entry.secret)
      ensures success <==> (entry.prevId.Some? && entry.prevId.value != "" ==>
        var marked := Attempt(old(store.Held(entry.secret)), Op.MarkFailed(entry.newKeyId, error), now, f.mark).keys;
        Attempt(marked, Op.Reactivate(entry.prevId.value), now, f.reactivate).error.None?)
      ensures var keys := old(store.Held(entry.secret));
        success <==>
          entry.prevId == None || entry.prevId == Some("")
          || (Correctable(keys, entry.prevId, f.reactivate)
              && !(entry.prevId == Some(entry.newKeyId) && Correctable(keys, entry.prevId, f.mark)))
    {
      hide Attempt, Correctable;
      if entry.prevId.Some? {
        ReactivationSucceeds(store.Held(entry.secret), entry.newKeyId, entry.prevId.value, error, now, f);
      }
      var reactivationFailed := false;
      if entry.hasSession && !cancelFails {
        provider.CancelRotation(entry.secret);
      }
      var marked := lifecycle.MarkFailed(entry.secret, entry.newKeyId, error, now, f.mark);
      if entry.prevId.Some? && entry.prevId.value != "" {
        var reactivated := ReactivateKey(entry.secret, entry.prevId.value, now, f.reactivate);
        if reactivated.Failure? {
          reactivationFailed := true;
        }
      }
      return !reactivationFailed;
    }

    method ReactivateKey(secret: string, keyId: string, now: Time, f: Faults) returns (r: Result<(), string>)
      requires lifecycle.store == store && lifecycle.Filed(secret)
      modifies store
      ensures var done := Attempt(old(store.Held(secret)), Op.Reactivate(keyId), now, f);
        store.Held(secret) == done.keys && (r.Success? <==> done.error.None?)
      ensures var keys, was := old(store.Held(secret)), old(Find(store.Held(secret), keyId));
        && (r.Success? <==>
              !f.get && was.Some? && was.value.status != Revoked && was.value.status != Failed && !f.write)
        && (r.Failure? ==> store.Held(secret) == keys)
        && (r.Success? ==> OnlyChanged(keys, store.Held(secret), keyId,
              was.value.(status := Active, rotatedAt := Some(now), validUntil := None)))
      ensures forall other :: other != secret ==> store.Held(other) == old(store.Held(other))
      ensures lifecycle.Filed(secret)
    {
      hide Put, OnlyChanged;
      ReactivateEffect(store.Held(secret), keyId, now, f);
      if f.get {
        return Failure(UNAVAILABLE);
      }
      var key := store.Get(secret, keyId);
      if key.None? {
        return Failure("Cannot reactivate: key not found");
      }
      if key.value.status == Revoked || key.value.status == Failed {
        return Failure("Cannot reactivate key");
      }
      if f.write {
        return Failure(UNAVAILABLE);
      }
      var active := key.value.(status := Active, rotatedAt := Some(now), validUntil := None);
      MembersAfterPut(store.Held(secret), active);
      var u := store.Update(active);
      return Success(());
    }
  }
}
