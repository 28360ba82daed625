/**
 * The machine's steps as the objects of the program show them: what each awaited call of the workflow
 * does to the stores, the provider, the rollback entries and the event log.
 */
module WorkflowSteps {
  import opened Wrappers
  import opened KeyModel
  import opened RotationMachine
  import opened RotationInvariant
  import opened RotationTheorems
  import Provider = StagedProvider

  /** The contents of the objects a rotation works on. */
  datatype View = View(
    keys: map<string, Keys>,
    secrets: map<string, Provider.Secret>,
    entries: seq<Entry>,
    rotating: set<string>,
    events: seq<(Rid, Event)>,
    now: Time,
    nextVersion: Provider.VersionId)

  function KeysIn(v: View, name: string): Keys {
    if name in v.keys then v.keys[name] else []
  }

  function SecretIn(v: View, name: string): Provider.Secret {
    if name in v.secrets then v.secrets[name] else Provider.NO_SECRET
  }

  function WithKeys(v: View, name: string, keys: Keys): View {
    v.(keys := v.keys[name := keys])
  }

  function WithSecret(v: View, name: string, secret: Provider.Secret): View {
    v.(secrets := v.secrets[name := secret])
  }

  function WithEvent(v: View, rid: Rid, e: Event): View {
    v.(events := v.events + [(rid, e)])
  }

  ghost predicate SameMaps(s: State, v: View) {
    forall name :: KeysOf(s, name) == KeysIn(v, name) && ProviderOf(s, name) == SecretIn(v, name)
  }

  ghost predicate Shows(s: State, v: View) {
    && SameMaps(s, v)
    && s.entries == v.entries && s.rotating == v.rotating && s.events == v.events
    && s.now == v.now && s.nextVersion == v.nextVersion
  }

  ghost predicate Ready(s: State, v: View, rid: Rid) {
    Shows(s, v) && InFlight(s, rid)
  }

  /** One awaited call: the rotation becomes `next` and the objects show `v`. */
  ghost predicate Moves(cfg: Config, s: State, rid: Rid, o: Outcome, next: Rotation, v: View) {
    && Enabled(s, Advance(rid, o))
    && var s' := Apply(cfg, s, Advance(rid, o));
      s'.rots == s.rots[rid := next] && s'.usedIds == UsedAfter(o, s.usedIds) && Shows(s', v)
  }

  lemma Moved(cfg: Config, s: State, v: View, rid: Rid, o: Outcome, l: Local, v': View)
    requires Shows(s, v) && Enabled(s, Advance(rid, o)) && l == LocalOf(cfg, s, rid, o)
    requires var r := s.rots[rid];
      && KeysIn(v', r.secret) == l.slice.keys && SecretIn(v', r.secret) == l.slice.prov
      && (forall name :: name != r.secret ==>
            KeysIn(v', name) == KeysIn(v, name) && SecretIn(v', name) == SecretIn(v, name))
      && v'.entries == EntriesAfter(cfg, v.entries, rid, r, o)
      && v'.rotating == (if r.pc.Unwind? then v.rotating - {r.secret} else v.rotating)
      && v'.events == (if l.emitted.Some? then v.events + [(rid, l.emitted.value)] else v.events)
      && v'.now == v.now && v'.nextVersion == VersionAfter(r, v.nextVersion)
    ensures Moves(cfg, s, rid, o, l.r, v')
  {
    hide StepLocal, EntriesAfter;
  }

  /** A call that returns is always a good step. */
  lemma ReturnIsGood(s: State, rid: Rid, o: Outcome, want: Claims)
    requires Enabled(s, Advance(rid, o)) && !o.Throw?
    ensures GoodStep(s, Advance(rid, o), want)
  {
    hide Possible, Kept;
  }

  /** So is one that throws, outside compensation and with the rollback entry still there. */
  lemma ThrowIsGood(s: State, rid: Rid, o: Outcome, want: Claims)
    requires Enabled(s, Advance(rid, o)) && !MarksFailed(s.rots[rid].pc) && !Reactivates(s.rots[rid].pc)
    requires CanFailWithEntry(s.rots[rid].pc) && s.rots[rid].hasEntry ==> Kept(s.entries, rid)
    ensures GoodStep(s, Advance(rid, o), want)
  {
    hide Possible, Kept, Find;
  }

  // ---- The try block --------------------------------------------------------------------------

  function IdOf(key: Option<SecretKey>): Option<string> {
    if key.Some? then Some(key.value.keyId) else None
  }

  lemma AtReadPrevious(cfg: Config, s: State, v: View, rid: Rid)
    requires Ready(s, v, rid) && s.rots[rid].pc == ReadPrevious
    ensures var r := s.rots[rid];
      Moves(cfg, s, rid, Ok, r.(prevId := IdOf(GetActive(KeysIn(v, r.secret))), pc := Generate), v)
  {
    hide Compensation, Find, Put, GetActive, Kept, Moves;
    Moved(cfg, s, v, rid, Ok, LocalOf(cfg, s, rid, Ok), v);
  }

  lemma AtGenerate(cfg: Config, s: State, v: View, rid: Rid, o: Outcome)
    requires Ready(s, v, rid) && s.rots[rid].pc == Generate && o.Made? && o.keyId != "" && o.keyId !in s.usedIds
    ensures var r := s.rots[rid];
      Moves(cfg, s, rid, o, r.(made := Some(NewKey(r.secret, o, v.now)), pc := SaveKey), v)
  {
    hide Compensation, Find, Put, GetActive, Kept, Moves;
    Moved(cfg, s, v, rid, o, LocalOf(cfg, s, rid, o), v);
  }

  /** The rotation on its way to compensation. */
  function Thrown(cfg: Config, kept: bool, r: Rotation, error: string): Rotation {
    r.(error := error, pc := FirstCompensation(cfg, kept, r))
  }

  lemma AtThrow(cfg: Config, s: State, v: View, rid: Rid, error: string)
    requires Ready(s, v, rid) && FailsOver(s.rots[rid].pc) && !s.rots[rid].pc.StorePending?
    ensures var r := s.rots[rid];
      Moves(cfg, s, rid, Throw(error), Thrown(cfg, Kept(s.entries, rid), r, error), v)
  {
    hide Compensation, Find, Put, GetActive, Kept, Moves, FirstCompensation;
    Moved(cfg, s, v, rid, Throw(error), LocalOf(cfg, s, rid, Throw(error)), v);
  }

  /** A provider that throws may still have used up a version id. */
  lemma AtStoreThrow(cfg: Config, s: State, v: View, rid: Rid, error: string)
    requires Ready(s, v, rid) && s.rots[rid].pc == StorePending
    ensures var r := s.rots[rid];
      Moves(cfg, s, rid, Throw(error), Thrown(cfg, Kept(s.entries, rid), r, error),
            v.(nextVersion := v.nextVersion + 1))
  {
    hide Compensation, Find, Put, GetActive, Kept, Moves, FirstCompensation;
    Moved(cfg, s, v, rid, Throw(error), LocalOf(cfg, s, rid, Throw(error)), v.(nextVersion := v.nextVersion + 1));
  }

  lemma AtSaveKey(cfg: Config, s: State, v: View, rid: Rid)
    requires Ready(s, v, rid) && s.rots[rid].pc == SaveKey && s.rots[rid].made.Some?
    ensures var r := s.rots[rid];
      Moves(cfg, s, rid, Ok, r.(pc := EmitGenerated, hist := r.hist.(newNow := r.made)),
            WithKeys(v, r.secret, Put(KeysIn(v, r.secret), r.made.value)))
  {
    hide Compensation, Find, Put, GetActive, Kept, Moves;
    var r := s.rots[rid];
    Moved(cfg, s, v, rid, Ok, LocalOf(cfg, s, rid, Ok), WithKeys(v, r.secret, Put(KeysIn(v, r.secret), r.made.value)));
  }

  lemma AtEmitGenerated(cfg: Config, s: State, v: View, rid: Rid, o: Outcome)
    requires Ready(s, v, rid) && s.rots[rid].pc == EmitGenerated && s.rots[rid].made.Some? && !o.Made?
    ensures var r := s.rots[rid];
      Moves(cfg, s, rid, o,
            r.(newKey := r.made, hasEntry := cfg.rollback.Some?, stage := Propagation, pc := BeginSession),
            WithEvent(v, rid, KeyGenerated).(entries := EntriesAfter(cfg, v.entries, rid, r, o)))
  {
    hide Compensation, Find, Put, GetActive, Kept, Moves, EntriesAfter;
    Moved(cfg, s, v, rid, o, LocalOf(cfg, s, rid, o),
          WithEvent(v, rid, KeyGenerated).(entries := EntriesAfter(cfg, v.entries, rid, s.rots[rid], o)));
  }

  lemma AtBeginSession(cfg: Config, s: State, v: View, rid: Rid)
    requires Ready(s, v, rid) && s.rots[rid].pc == BeginSession
    ensures Moves(cfg, s, rid, Ok, s.rots[rid].(session := Some(None), pc := StorePending), v)
  {
    hide Compensation, Find, Put, GetActive, Kept, Moves;
    Moved(cfg, s, v, rid, Ok, LocalOf(cfg, s, rid, Ok), v);
  }

  lemma AtStorePending(cfg: Config, s: State, v: View, rid: Rid)
    requires Ready(s, v, rid) && s.rots[rid].pc == StorePending && s.rots[rid].newKey.Some?
    ensures var r := s.rots[rid];
      Moves(cfg, s, rid, Ok, r.(session := Some(Some(v.nextVersion)), pc := EmitPropagated),
            WithSecret(v, r.secret,
                       Provider.StorePending(SecretIn(v, r.secret), v.nextVersion, r.newKey.value.material))
              .(nextVersion := v.nextVersion + 1))
  {
    hide Compensation, Find, Put, GetActive, Kept, Moves, Provider.StorePending;
    var r := s.rots[rid];
    Moved(cfg, s, v, rid, Ok, LocalOf(cfg, s, rid, Ok),
          WithSecret(v, r.secret, Provider.StorePending(SecretIn(v, r.secret), v.nextVersion, r.newKey.value.material))
            .(nextVersion := v.nextVersion + 1));
  }

  lemma AtEmitPropagated(cfg: Config, s: State, v: View, rid: Rid, o: Outcome)
    requires Ready(s, v, rid) && s.rots[rid].pc == EmitPropagated && !o.Made?
    ensures Moves(cfg, s, rid, o, s.rots[rid].(stage := Verification, pc := Verify), WithEvent(v, rid, KeyPropagated))
  {
    hide Compensation, Find, Put, GetActive, Kept, Moves;
    Moved(cfg, s, v, rid, o, LocalOf(cfg, s, rid, o), WithEvent(v, rid, KeyPropagated));
  }

  /** What the verified version of the secret holds. */
  function VerifiedIn(v: View, r: Rotation): Option<string> {
    if r.session.Some? && r.session.value.Some? then Provider.ValueOf(SecretIn(v, r.secret), r.session.value.value)
    else None
  }

  lemma AtVerify(cfg: Config, s: State, v: View, rid: Rid)
    requires Ready(s, v, rid) && s.rots[rid].pc == Verify
    ensures var r := s.rots[rid];
      Moves(cfg, s, rid, Ok, r.(pc := EmitVerified, verifiedValue := VerifiedIn(v, r)), v)
  {
    hide Compensation, Find, Put, GetActive, Kept, Moves;
    Moved(cfg, s, v, rid, Ok, LocalOf(cfg, s, rid, Ok), v);
  }

  lemma AtEmitVerified(cfg: Config, s: State, v: View, rid: Rid, o: Outcome)
    requires Ready(s, v, rid) && s.rots[rid].pc == EmitVerified && !o.Made?
    ensures Moves(cfg, s, rid, o, s.rots[rid].(stage := Activation, pc := ActivateGet), WithEvent(v, rid, KeyVerified))
  {
    hide Compensation, Find, Put, GetActive, Kept, Moves;
    Moved(cfg, s, v, rid, o, LocalOf(cfg, s, rid, o), WithEvent(v, rid, KeyVerified));
  }

  // ---- Activation -----------------------------------------------------------------------------

  lemma AtActivateGet(cfg: Config, s: State, v: View, rid: Rid)
    requires Ready(s, v, rid) && s.rots[rid].pc == ActivateGet && s.rots[rid].newKey.Some?
    ensures var r := s.rots[rid];
      var found := Find(KeysIn(v, r.secret), r.newKey.value.keyId);
      var kept := Kept(s.entries, rid);
      Moves(cfg, s, rid, Ok,
            if found.None? then Thrown(cfg, kept, r, "Key not found")
            else if found.value.status != Pending then Thrown(cfg, kept, r, "Cannot activate key")
            else r.(seen := found, pc := ActivateGetActive), v)
  {
    hide Compensation, Find, Put, GetActive, Kept, Moves, FirstCompensation;
    Moved(cfg, s, v, rid, Ok, LocalOf(cfg, s, rid, Ok), v);
  }

  lemma AtActivateGetActive(cfg: Config, s: State, v: View, rid: Rid)
    requires Ready(s, v, rid) && s.rots[rid].pc == ActivateGetActive
    ensures var r := s.rots[rid];
      var active := GetActive(KeysIn(v, r.secret));
      Moves(cfg, s, rid, Ok, r.(seenActive := active, pc := if active.Some? then ActivateExpire else ActivateUpdate), v)
  {
    hide Compensation, Find, Put, GetActive, Kept, Moves;
    Moved(cfg, s, v, rid, Ok, LocalOf(cfg, s, rid, Ok), v);
  }

  lemma AtActivateExpire(cfg: Config, s: State, v: View, rid: Rid)
    requires Ready(s, v, rid) && s.rots[rid].pc == ActivateExpire && s.rots[rid].seenActive.Some?
    requires Find(KeysIn(v, s.rots[rid].secret), s.rots[rid].seenActive.value.keyId).Some?
    ensures var r := s.rots[rid];
      var key := ExpiredBy(r.seenActive.value, v.now, r.overlapMs);
      Moves(cfg, s, rid, Ok, r.(pc := ActivateUpdate, hist := r.hist.(prevNow := Some(key), prevAt := v.now)),
            WithKeys(v, r.secret, Put(KeysIn(v, r.secret), key)))
  {
    hide Compensation, Find, Put, GetActive, Kept, Moves;
    var r := s.rots[rid];
    Moved(cfg, s, v, rid, Ok, LocalOf(cfg, s, rid, Ok),
          WithKeys(v, r.secret, Put(KeysIn(v, r.secret), ExpiredBy(r.seenActive.value, v.now, r.overlapMs))));
  }

  lemma AtActivateUpdate(cfg: Config, s: State, v: View, rid: Rid)
    requires Ready(s, v, rid) && s.rots[rid].pc == ActivateUpdate && s.rots[rid].seen.Some?
    requires Find(KeysIn(v, s.rots[rid].secret), s.rots[rid].seen.value.keyId).Some?
    ensures var r := s.rots[rid];
      var key := Activated(r.seen.value, v.now);
      Moves(cfg, s, rid, Ok, r.(pc := CompleteSession, hist := r.hist.(newNow := Some(key))),
            WithKeys(v, r.secret, Put(KeysIn(v, r.secret), key)))
  {
    hide Compensation, Find, Put, GetActive, Kept, Moves;
    var r := s.rots[rid];
    Moved(cfg, s, v, rid, Ok, LocalOf(cfg, s, rid, Ok),
          WithKeys(v, r.secret, Put(KeysIn(v, r.secret), Activated(r.seen.value, v.now))));
  }

  /** The pending version becomes current, and the rollback entry, if any, is flagged. */
  lemma AtComplete(cfg: Config, s: State, v: View, rid: Rid)
    requires Ready(s, v, rid) && s.rots[rid].pc == CompleteSession
    ensures var r := s.rots[rid];
      Moves(cfg, s, rid, Ok, r.(pc := EmitActivated),
            WithSecret(v, r.secret, Provider.Complete(SecretIn(v, r.secret)))
              .(entries := EntriesAfter(cfg, v.entries, rid, r, Ok)))
  {
    hide Compensation, Find, Put, GetActive, Kept, Moves, Provider.Complete, EntriesAfter;
    var r := s.rots[rid];
    Moved(cfg, s, v, rid, Ok, LocalOf(cfg, s, rid, Ok),
          WithSecret(v, r.secret, Provider.Complete(SecretIn(v, r.secret)))
            .(entries := EntriesAfter(cfg, v.entries, rid, r, Ok)));
  }

  lemma AtEmitActivated(cfg: Config, s: State, v: View, rid: Rid, o: Outcome)
    requires Ready(s, v, rid) && s.rots[rid].pc == EmitActivated && !o.Made?
    ensures Moves(cfg, s, rid, o, s.rots[rid].(pc := Unwind(true)), WithEvent(v, rid, KeyActivated))
  {
    hide Compensation, Find, Put, GetActive, Kept, Moves;
    Moved(cfg, s, v, rid, o, LocalOf(cfg, s, rid, o), WithEvent(v, rid, KeyActivated));
  }

  // ---- Compensation ---------------------------------------------------------------------------

  lemma AtCancel(cfg: Config, s: State, v: View, rid: Rid, o: Outcome)
    requires Ready(s, v, rid) && s.rots[rid].pc == CancelSession && !o.Made?
    ensures var r := s.rots[rid];
      Moves(cfg, s, rid, o, r.(pc := AfterCancel(r)),
            if o.Throw? then v else WithSecret(v, r.secret, Provider.Cancel(SecretIn(v, r.secret))))
  {
    hide Progress, Find, Put, GetActive, Kept, Moves, Provider.Cancel, AfterCancel;
    var r := s.rots[rid];
    Moved(cfg, s, v, rid, o, LocalOf(cfg, s, rid, o),
          if o.Throw? then v else WithSecret(v, r.secret, Provider.Cancel(SecretIn(v, r.secret))));
  }

  lemma AtMarkGet(cfg: Config, s: State, v: View, rid: Rid)
    requires Ready(s, v, rid) && s.rots[rid].pc == MarkGet && s.rots[rid].newKey.Some?
    ensures var r := s.rots[rid];
      var found := Find(KeysIn(v, r.secret), r.newKey.value.keyId);
      Moves(cfg, s, rid, Ok,
            if found.None? || Terminal(found.value.status) then r.(pc := AfterMark(r))
            else r.(seen := found, pc := MarkUpdate), v)
  {
    hide Progress, Find, Put, GetActive, Kept, Moves, AfterMark;
    Moved(cfg, s, v, rid, Ok, LocalOf(cfg, s, rid, Ok), v);
  }

  lemma AtMarkUpdate(cfg: Config, s: State, v: View, rid: Rid)
    requires Ready(s, v, rid) && s.rots[rid].pc == MarkUpdate && s.rots[rid].seen.Some?
    requires Find(KeysIn(v, s.rots[rid].secret), s.rots[rid].seen.value.keyId).Some?
    ensures var r := s.rots[rid];
      var key := MarkedFailed(r.seen.value, v.now, r.error);
      Moves(cfg, s, rid, Ok, r.(pc := AfterMark(r), hist := r.hist.(newNow := Some(key))),
            WithKeys(v, r.secret, Put(KeysIn(v, r.secret), key)))
  {
    hide Progress, Find, Put, GetActive, Kept, Moves, AfterMark, MarkedFailed;
    var r := s.rots[rid];
    assert MarkedFailed(r.seen.value, v.now, r.error).keyId == r.seen.value.keyId by {
      MarkKeepsId(r.seen.value, v.now, r.error);
    }
    Moved(cfg, s, v, rid, Ok, LocalOf(cfg, s, rid, Ok),
          WithKeys(v, r.secret, Put(KeysIn(v, r.secret), MarkedFailed(r.seen.value, v.now, r.error))));
  }

  /** A failing mark is skipped. */
  lemma AtMarkThrow(cfg: Config, s: State, v: View, rid: Rid, error: string)
    requires Ready(s, v, rid) && MarksFailed(s.rots[rid].pc)
    ensures Moves(cfg, s, rid, Throw(error), s.rots[rid].(pc := AfterMark(s.rots[rid])), v)
  {
    hide Progress, Find, Put, GetActive, Kept, Moves, AfterMark;
    Moved(cfg, s, v, rid, Throw(error), LocalOf(cfg, s, rid, Throw(error)), v);
  }

  lemma MarkKeepsId(key: SecretKey, now: Time, error: string)
    ensures MarkedFailed(key, now, error).keyId == key.keyId
  {
  }

  lemma AtReactivateGet(cfg: Config, s: State, v: View, rid: Rid)
    requires Ready(s, v, rid) && s.rots[rid].pc == ReactivateGet && s.rots[rid].prevId.Some?
    ensures var r := s.rots[rid];
      var found := Find(KeysIn(v, r.secret), r.prevId.value);
      Moves(cfg, s, rid, Ok,
            if found.None? || Terminal(found.value.status) then r.(pc := EmitFailed)
            else r.(seen := found, pc := ReactivateUpdate), v)
  {
    hide Progress, Find, Put, GetActive, Kept, Moves;
    Moved(cfg, s, v, rid, Ok, LocalOf(cfg, s, rid, Ok), v);
  }

  lemma AtReactivateUpdate(cfg: Config, s: State, v: View, rid: Rid)
    requires Ready(s, v, rid) && s.rots[rid].pc == ReactivateUpdate && s.rots[rid].seen.Some?
    requires Find(KeysIn(v, s.rots[rid].secret), s.rots[rid].seen.value.keyId).Some?
    ensures var r := s.rots[rid];
      var key := Reactivated(r.seen.value, v.now);
      Moves(cfg, s, rid, Ok, r.(pc := EmitFailed, hist := r.hist.(prevNow := Some(key), prevAt := v.now)),
            WithKeys(v, r.secret, Put(KeysIn(v, r.secret), key)))
  {
    hide Progress, Find, Put, GetActive, Kept, Moves;
    var r := s.rots[rid];
    Moved(cfg, s, v, rid, Ok, LocalOf(cfg, s, rid, Ok),
          WithKeys(v, r.secret, Put(KeysIn(v, r.secret), Reactivated(r.seen.value, v.now))));
  }

  /** So is a failing reactivation. */
  lemma AtReactivateThrow(cfg: Config, s: State, v: View, rid: Rid, error: string)
    requires Ready(s, v, rid) && Reactivates(s.rots[rid].pc)
    ensures Moves(cfg, s, rid, Throw(error), s.rots[rid].(pc := EmitFailed), v)
  {
    hide Progress, Find, Put, GetActive, Kept, Moves;
    Moved(cfg, s, v, rid, Throw(error), LocalOf(cfg, s, rid, Throw(error)), v);
  }

  lemma AtEmitFailed(cfg: Config, s: State, v: View, rid: Rid, o: Outcome)
    requires Ready(s, v, rid) && s.rots[rid].pc == EmitFailed && !o.Made?
    ensures var r := s.rots[rid];
      Moves(cfg, s, rid, o, r.(pc := Unwind(false)), WithEvent(v, rid, RotationFailed(r.stage)))
  {
    hide Progress, Find, Put, GetActive, Kept, Moves;
    Moved(cfg, s, v, rid, o, LocalOf(cfg, s, rid, o), WithEvent(v, rid, RotationFailed(s.rots[rid].stage)));
  }

  lemma AtUnwind(cfg: Config, s: State, v: View, rid: Rid)
    requires Ready(s, v, rid) && s.rots[rid].pc.Unwind?
    ensures var r := s.rots[rid];
      Moves(cfg, s, rid, Ok, r.(pc := Done(r.pc.success)), v.(rotating := v.rotating - {r.secret}))
  {
    hide Progress, Find, Put, GetActive, Kept, Moves;
    var r := s.rots[rid];
    Moved(cfg, s, v, rid, Ok, LocalOf(cfg, s, rid, Ok), v.(rotating := v.rotating - {r.secret}));
  }
}
