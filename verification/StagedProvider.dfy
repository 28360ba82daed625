/** The in-memory provider: versions of a secret, one of them current and at most one pending. */
module StagedProvider {
  import opened Wrappers

  /** A random version id; ids of distinct stores are distinct. */
  type VersionId = nat

  datatype Stage = Current | PendingStage | Previous

  datatype Version = Version(value: string, stage: Stage)

  datatype Secret = Secret(versions: map<VersionId, Version>, current: Option<VersionId>, pending: Option<VersionId>)

  const NO_SECRET: Secret := Secret(map[], None, None)

  /** `storeSecretValue` with the stage the rotation workflow asks for. */
  function StorePending(s: Secret, id: VersionId, value: string): Secret {
    s.(versions := s.versions[id := Version(value, PendingStage)], pending := Some(id))
  }

  /** `storeSecretValue` without a pending stage, and `createSecret`. */
  function StoreCurrent(s: Secret, id: VersionId, value: string): Secret {
    s.(versions := s.versions[id := Version(value, Current)], current := Some(id))
  }

  function Restage(versions: map<VersionId, Version>, id: Option<VersionId>, stage: Stage): map<VersionId, Version> {
    if id.Some? && id.value in versions then versions[id.value := versions[id.value].(stage := stage)] else versions
  }

  /** `completeRotation`: the pending version becomes current, whatever version the session names. */
  function Complete(s: Secret): Secret {
    if s.pending.None? then s
    else Secret(Restage(Restage(s.versions, s.pending, Current), s.current, Previous), s.pending, None)
  }

  /** `cancelRotation`: the pending version is deleted. */
  function Cancel(s: Secret): Secret {
    if s.pending.None? then s else s.(versions := s.versions - {s.pending.value}, pending := None)
  }

  /** What `getSecret` returns without a version, or None where it throws. */
  function CurrentValue(s: Secret): Option<string> {
    if s.current.Some? && s.current.value in s.versions then Some(s.versions[s.current.value].value) else None
  }

  function ValueOf(s: Secret, id: VersionId): Option<string> {
    if id in s.versions then Some(s.versions[id].value) else None
  }

  /** The current and the pending version are different ones. */
  ghost predicate StagesApart(s: Secret) {
    s.current.Some? && s.pending.Some? ==> s.current.value != s.pending.value
  }

  /** Every id the provider has handed out for the secret lies below `bound`. */
  ghost predicate Below(s: Secret, bound: nat) {
    && (forall id :: id in s.versions ==> id < bound)
    && (s.current.Some? ==> s.current.value < bound)
    && (s.pending.Some? ==> s.pending.value < bound)
  }

  // ---- What the calls change ------------------------------------------------------------------

  /** Staging a value under a new version adds that version and leaves what is served and every other version. */
  lemma StoringStages(s: Secret, id: VersionId, value: string, v: VersionId)
    requires id !in s.versions && s.current != Some(id)
    ensures var s' := StorePending(s, id, value);
      && ValueOf(s', v) == (if v == id then Some(value) else ValueOf(s, v))
      && s'.pending == Some(id) && CurrentValue(s') == CurrentValue(s) && s'.versions[id].stage == PendingStage
  {
  }

  /** A value stored at once is served at once, and what was pending still is. */
  lemma StoringCurrentServes(s: Secret, id: VersionId, value: string, v: VersionId)
    ensures var s' := StoreCurrent(s, id, value);
      && ValueOf(s', v) == (if v == id then Some(value) else ValueOf(s, v))
      && CurrentValue(s') == Some(value) && s'.pending == s.pending && s'.versions[id].stage == Current
  {
  }

  /**
   * Completing serves the value that was pending, if there was one, and remembers the one served before as the
   * previous version; no value is lost.
   */
  lemma CompletingPromotes(s: Secret, v: VersionId)
    requires StagesApart(s)
    ensures var s' := Complete(s);
      && s'.pending == None && ValueOf(s', v) == ValueOf(s, v)
      && CurrentValue(s') == (if s.pending == None then CurrentValue(s) else ValueOf(s, s.pending.value))
      && (v in s.versions ==>
            s'.versions[v].stage ==
              if s.pending == None then s.versions[v].stage
              else if s.pending == Some(v) then Current
              else if s.current == Some(v) then Previous
              else s.versions[v].stage)
  {
  }

  /** Cancelling deletes the pending version and nothing else. */
  lemma CancellingDrops(s: Secret, v: VersionId)
    requires StagesApart(s)
    ensures var s' := Cancel(s);
      && s'.pending == None && s'.current == s.current && CurrentValue(s') == CurrentValue(s)
      && ValueOf(s', v) == (if s.pending == Some(v) then None else ValueOf(s, v))
      && (v in s'.versions ==> s'.versions[v] == s.versions[v])
  {
  }

  class InMemoryProvider {
    var secrets: map<string, Secret>

    constructor ()
      ensures secrets == map[]
    {
      secrets := map[];
    }

    ghost function Held(name: string): Secret
      reads this
    {
      if name in secrets then secrets[name] else NO_SECRET
    }

    method Ensure(name: string) returns (secret: Secret)
      modifies this
      ensures secret == old(Held(name)) && secrets == old(secrets)[name := secret]
    {
      if name in secrets {
        secret := secrets[name];
      } else {
        secret := NO_SECRET;
        secrets := secrets[name := secret];
      }
      assert secrets == old(secrets)[name := secret];
    }

    method StoreSecretValue(name: string, id: VersionId, value: string, pending: bool)
      modifies this
      ensures secrets == old(secrets)[name :=
        if pending then StorePending(old(Held(name)), id, value) else StoreCurrent(old(Held(name)), id, value)]
    {
      var secret := Ensure(name);
      var stage := if pending then PendingStage else Current;
      secret := secret.(versions := secret.versions[id := Version(value, stage)]);
      if stage == PendingStage {
        secret := secret.(pending := Some(id));
      } else {
        secret := secret.(current := Some(id));
      }
      secrets := secrets[name := secret];
    }

    method CompleteRotation(name: string)
      modifies this
      ensures secrets == old(secrets)[name := Complete(old(Held(name)))]
    {
      var secret := Ensure(name);
      if secret.pending.Some? {
        var promoted := secret.pending.value;
        if promoted in secret.versions {
          var v := secret.versions[promoted];
          secret := secret.(versions := secret.versions[promoted := v.(stage := Current)]);
        }
        if secret.current.Some? {
          var former := secret.current.value;
          if former in secret.versions {
            var v := secret.versions[former];
            secret := secret.(versions := secret.versions[former := v.(stage := Previous)]);
          }
        }
        secret := secret.(current := Some(promoted), pending := None);
        secrets := secrets[name := secret];
      }
    }

    method CancelRotation(name: string)
      modifies this
      ensures secrets == old(secrets)[name := Cancel(old(Held(name)))]
    {
      var secret := Ensure(name);
      if secret.pending.Some? {
        secret := secret.(versions := secret.versions - {secret.pending.value}, pending := None);
        secrets := secrets[name := secret];
      }
    }
  }
}
