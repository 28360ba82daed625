/** The in-memory key store: a Map of secrets, each a Map of records.  Every operation runs under its secret's lock. */
module InMemoryKeyStores {
  import opened Wrappers
  import opened KeyModel

  class InMemoryKeyStore {
    var store: map<string, Keys>

    constructor ()
      ensures store == map[]
    {
      store := map[];
    }

    /** The records of a secret, in insertion order. */
    function Held(name: string): Keys
      reads this
    {
      if name in store then store[name] else []
    }

    method Save(key: SecretKey)
      modifies this
      ensures store == old(store)[key.secretName := Put(old(Held(key.secretName)), key)]
    {
      if key.secretName !in store {
        store := store[key.secretName := []];
      }
      store := store[key.secretName := Put(store[key.secretName], key)];
    }

    method Get(name: string, keyId: string) returns (key: Option<SecretKey>)
      ensures key == Find(Held(name), keyId)
    {
      key := if name in store then Find(store[name], keyId) else None;
    }

    method GetActive(name: string) returns (key: Option<SecretKey>)
      ensures key == KeyModel.GetActive(Held(name))
    {
      if name !in store {
        return None;
      }
      return KeyModel.GetActive(store[name]);
    }

    method GetValid(name: string, at: Time) returns (keys: Keys)
      ensures keys == KeyModel.GetValid(Held(name), at)
    {
      if name !in store {
        return [];
      }
      return KeyModel.GetValid(store[name], at);
    }

    /** Replaces an existing record; a missing one is an error and changes nothing. */
    method Update(key: SecretKey) returns (r: Result<(), string>)
      modifies this
      ensures r.Success? <==> Find(old(Held(key.secretName)), key.keyId).Some?
      ensures store ==
        if r.Success? then old(store)[key.secretName := Put(old(Held(key.secretName)), key)] else old(store)
    {
      if key.secretName !in store || Find(store[key.secretName], key.keyId).None? {
        return Failure("Key not found");
      }
      store := store[key.secretName := Put(store[key.secretName], key)];
      return Success(());
    }

    method Delete(name: string, keyId: string)
      modifies this
      ensures store == if name in old(store) then old(store)[name := Remove(old(Held(name)), keyId)] else old(store)
      ensures old(Distinct(Held(name))) ==>
        && Distinct(Held(name))
        && forall x :: Find(Held(name), x) == if x == keyId then None else old(Find(Held(name), x))
      ensures forall i ::
        old(Distinct(Held(name))) && 0 <= i < old(|Held(name)|) && old(Held(name))[i].keyId == keyId ==>
          Held(name) == old(Held(name))[..i] + old(Held(name))[i + 1..]
      ensures old(Distinct(Held(name))) && old(Find(Held(name), keyId)).None? ==> Held(name) == old(Held(name))
      ensures forall other :: other != name ==> Held(other) == old(Held(other))
    {
      if Distinct(Held(name)) {
        forall i | 0 <= i < |Held(name)| { RemoveAt(Held(name), i); }
        if Find(Held(name), keyId).None? { RemoveAbsent(Held(name), keyId); }
        forall x { FindRemove(Held(name), keyId, x); }
      }
      if name in store {
        store := store[name := Remove(store[name], keyId)];
      }
    }

    method List(name: string) returns (keys: Keys)
      ensures keys == Held(name)
    {
      keys := if name in store then store[name] else [];
    }

    method Clear()
      modifies this
      ensures store == map[]
    {
      store := map[];
    }
  }
}
