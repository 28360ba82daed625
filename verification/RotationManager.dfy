/** The manager: it admits one rotation of a secret at a time and hands it to the workflow. */
module RotationManagers {
  import opened Wrappers
  import opened KeyModel
  import opened RotationMachine
  import opened RotationInvariant
  import opened RotationTheorems
  import opened WorkflowSteps
  import opened RotationWorkflows
  import Provider = StagedProvider
  import Results = RotationResults

  /** A successful rotation ends with its key active and, if agreement is claimed, served by the provider. */
  lemma SuccessServesNewKey(cfg: Config, sl: Slice, r: Rotation, used: set<string>, now: Time,
                            next: Provider.VersionId, want: Claims)
    requires RotationOk(cfg, sl, r, used, now, next, want) && r.pc == Unwind(true)
    ensures r.newKey.Some? && GetActive(sl.keys).Some?
    ensures GetActive(sl.keys).value.keyId == r.newKey.value.keyId
    ensures GetActive(sl.keys).value.material == r.newKey.value.material
    ensures want.agreement ==> Provider.CurrentValue(sl.prov) == Some(GetActive(sl.keys).value.material)
  {
    hide Find, Put, GetActive, KeysOk, AtMostOneActive, Overlay, ProviderOk;
    OverlayMembers(r.hist, r.made, used, now);
    OverlayHasOneActive(r.hist, r.made, used, now);
    GetActiveIsTheOne(sl.keys, r.hist.newNow.value);
  }

  /** The first failing call, spelled out. */
  lemma FirstFailureIs(draw: Outcome, replies: Replies, f: StoreFaults, hasActive: bool)
    requires !draw.Ok?
    ensures var failing, a := FirstFailure(draw, replies, f, hasActive), f.activate;
      && (failing == None <==>
            && !f.read && draw.Made? && !f.save
            && replies.begin == None && replies.store == None && replies.verify == None
            && !a.get && !a.active && (hasActive ==> !a.expire) && !a.write && replies.complete == None)
      && Announced(if failing.Some? then failing.value.stage else Activation) + [Closing(failing)] ==
           if failing == None then [KeyGenerated, KeyPropagated, KeyVerified, KeyActivated]
           else if f.read || draw.Throw? || f.save then [RotationFailed(Generation)]
           else if replies.begin.Some? || replies.store.Some? then [KeyGenerated, RotationFailed(Propagation)]
           else if replies.verify.Some? then [KeyGenerated, KeyPropagated, RotationFailed(Verification)]
           else [KeyGenerated, KeyPropagated, KeyVerified, RotationFailed(Activation)]
  {
  }

  class RotationManager {
    const workflow: RotationWorkflow
    var rotatingSecrets: set<string>

    constructor (workflow: RotationWorkflow)
      requires workflow.Valid() && workflow.model.rotating == {}
      ensures Valid() && this.workflow == workflow
    {
      this.workflow, rotatingSecrets := workflow, {};
    }

    ghost predicate Valid()
      reads this, workflow, workflow.store, workflow.provider, workflow.rollback
    {
      workflow.Valid() && workflow.model.rotating == rotatingSecrets
    }

    /** What the machine's invariant says of the objects when a rotation is about to leave a good run. */
    lemma Ended(rid: Rid)
      requires workflow.Running(rid) && workflow.model.rots[rid].pc.Unwind? && workflow.good
      ensures var r, want := workflow.model.rots[rid], workflow.want;
        var keys, prov := workflow.store.Held(r.secret), workflow.provider.Held(r.secret);
        && (r.pc.success ==>
              && r.newKey.Some? && GetActive(keys).Some?
              && GetActive(keys).value.keyId == r.newKey.value.keyId
              && GetActive(keys).value.material == r.newKey.value.material)
        && (!r.pc.success && want.restoration ==> Results.RestoredButForOneFailed(r.hist.begin, keys))
        && (want.agreement ==> Agrees(Slice(keys, prov)))
    {
      hide RotationOk, QuietOk, GoodRun, Run, After, Results.RestoredButForOneFailed;
      var s, r, want := workflow.model, workflow.model.rots[rid], workflow.want;
      workflow.LookupsAreHeld();
      Results.InFlightOk(workflow.Cfg(), s, rid, want);
      var sl := SliceOf(s, r.secret);
      assert sl == Slice(workflow.store.Held(r.secret), workflow.provider.Held(r.secret));
      if r.pc.success {
        SuccessServesNewKey(workflow.Cfg(), sl, r, s.usedIds, s.now, s.nextVersion, want);
      } else if want.restoration {
        Results.CompensationIsExact(workflow.Cfg(), sl, r, s.usedIds, s.now, s.nextVersion, want);
      }
      if want.agreement && GetActive(sl.keys).Some? {
        UnwindAgrees(workflow.Cfg(), sl, r, s.usedIds, s.now, s.nextVersion, want);
      }
    }

    /** In a good run every stored id has been handed out, so a fresh one is not among them. */
    lemma FreshIsNotStored(name: string, draw: Outcome)
      requires Valid() && workflow.good && name !in rotatingSecrets && FreshMade(draw, workflow.model.usedIds)
      ensures draw.Made? ==> draw.keyId !in Ids(workflow.store.Held(name))
    {
      hide GoodRun, Run, After, RotationOk;
      workflow.LookupsAreHeld();
      var s := workflow.model;
      assert Quiet(s, name);
      assert QuietOk(SliceOf(s, name), s.usedIds, s.now, s.nextVersion, workflow.want);
    }

    lemma OneActiveEach(name: string)
      requires Valid() && workflow.good
      ensures AtMostOneActive(workflow.store.Held(name))
    {
      hide Inv, GoodRun, Run, After, AtMostOneActive;
      workflow.LookupsAreHeld();
      Results.InvMeansOneActive(workflow.Cfg(), workflow.model, name, workflow.want);
    }

    /** The `finally` block. */
    method Leave(rid: Rid, secret: string)
      requires workflow.Running(rid) && workflow.model.rots[rid].pc.Unwind? && workflow.model.rots[rid].secret == secret
      requires workflow.model.rotating == rotatingSecrets
      modifies this, workflow`trace, workflow`model, workflow`good
      ensures Valid() && rotatingSecrets == old(rotatingSecrets) - {secret} && workflow.good == old(workflow.good)
    {
      ghost var r := workflow.model.rots[rid];
      workflow.ReadyNow(rid, workflow.Shown());
      AtUnwind(workflow.Cfg(), workflow.model, workflow.Shown(), rid);
      rotatingSecrets := rotatingSecrets - {secret};
      workflow.Take(rid, Ok, r.(pc := Done(r.pc.success)), workflow.Shown().(rotating := rotatingSecrets));
    }

    /** The `try` and `finally` of an admitted request, whose secret is marked. */
    method Carry(rid: Rid, secret: string, overlapMs: int, draw: Outcome, replies: Replies, f: StoreFaults)
      returns (result: Result<string, string>)
      requires workflow.Valid() && workflow.lifecycle.Filed(secret)
      requires secret !in workflow.model.rotating && rotatingSecrets == workflow.model.rotating + {secret}
      requires rid !in workflow.model.rots && !Kept(workflow.model.entries, rid)
      requires !draw.Ok? && FreshMade(draw, workflow.model.usedIds)
      modifies this, workflow, workflow.store, workflow.provider, workflow.rollback
      ensures Valid() && workflow.lifecycle.Filed(secret) && rotatingSecrets == old(workflow.model.rotating)
      ensures (workflow.good ==> old(workflow.good))
        && (workflow.HasRoom() && f.undo == NO_UNDO_FAULTS ==> workflow.good == old(workflow.good))
      ensures result.Success? ==>
        draw.Made? && Provider.CurrentValue(workflow.provider.Held(secret)) == Some(draw.material)
      ensures result.Success? && draw.keyId !in Ids(old(workflow.store.Held(secret))) ==>
        Replaces(old(workflow.store.Held(secret)), workflow.store.Held(secret), secret, draw, overlapMs,
                 old(workflow.now), workflow.now)
      ensures (draw.Made? ==> draw.keyId !in Ids(old(workflow.store.Held(secret)))) ==>
        var failing := FirstFailure(draw, replies, f, HasActive(old(workflow.store.Held(secret))));
        && result == (if failing.Some? then Failure(failing.value.error) else Success(draw.keyId))
        && workflow.events == old(workflow.events) + Tagged(rid,
             Announced(if failing.Some? then failing.value.stage else Activation) + [Closing(failing)])
      ensures workflow.good ==>
        var keys, prov := workflow.store.Held(secret), workflow.provider.Held(secret);
        && (result.Success? ==>
              && GetActive(keys).Some? && GetActive(keys).value.keyId == result.value
              && draw.Made? && GetActive(keys).value.material == draw.material)
        && (result.Failure? && workflow.want.restoration ==>
              Results.RestoredButForOneFailed(old(workflow.store.Held(secret)), keys))
        && (workflow.want.agreement ==> Agrees(Slice(keys, prov)))
    {
      hide Agrees, Results.RestoredButForOneFailed, GetActive, Kept, Shows, FirstFailure, Announced, Tagged,
        HasActive, Ids,
        Closing, Replaces, RotationWorkflow.Tracked,
        RotationWorkflow.Wired, RotationWorkflow.Cfg;
      workflow.TakeStart(rid, secret, overlapMs);
      result := workflow.Execute(rid, secret, overlapMs, draw, replies, f);
      if workflow.good {
        Ended(rid);
      }
      Leave(rid, secret);
    }

    lemma OneActiveNow()
      requires Valid()
      ensures workflow.good ==> forall name :: AtMostOneActive(workflow.store.Held(name))
    {
      hide AtMostOneActive;
      forall name | workflow.good ensures AtMostOneActive(workflow.store.Held(name)) {
        OneActiveEach(name);
      }
    }

    /**
     * An unforced request; `admitted` is the rate limiter's answer, `draw` the generator's, `replies` the provider's
     * and the verifier's and `f` the store's.  A request for a secret already rotating, or beyond the rate, changes
     * nothing.  Any other one, in a good run, succeeds exactly if none of its calls before compensation fails; and it
     * announces all four stages or, after those it passed, exactly one failure at the stage of the first failing call.
     * The run stays good unless a store call of compensation throws or the entry list has no room, and as long as it
     * is good: no secret has two active keys; a success leaves the new key active; a failure leaves the records as
     * they were but for the active key's `rotatedAt` and `validUntil` and one failed key; and store and provider agree
     * on the rotated secret.  The last two are claims the run may or may not make.
     */
    method Rotate(rid: Rid, secret: string, overlapMs: int, admitted: bool, draw: Outcome, replies: Replies,
                  f: StoreFaults)
      returns (result: Result<string, string>)
      requires Valid() && workflow.lifecycle.Filed(secret)
      requires rid !in workflow.model.rots && !Kept(workflow.model.entries, rid)
      requires !draw.Ok? && FreshMade(draw, workflow.model.usedIds)
      modifies this, workflow, workflow.store, workflow.provider, workflow.rollback
      ensures Valid() && workflow.lifecycle.Filed(secret) && rotatingSecrets == old(rotatingSecrets)
      ensures secret in old(rotatingSecrets) || !admitted ==>
        && result.Failure? && workflow.store.store == old(workflow.store.store)
        && workflow.provider.secrets == old(workflow.provider.secrets) && workflow.events == old(workflow.events)
      ensures (workflow.good ==> old(workflow.good))
        && (workflow.HasRoom() && f.undo == NO_UNDO_FAULTS ==> workflow.good == old(workflow.good))
      ensures secret !in old(rotatingSecrets) && admitted && old(workflow.good) ==>
        && (result.Success? <==>
              && !f.read && draw.Made? && !f.save
              && replies.begin == None && replies.store == None && replies.verify == None
              && !f.activate.get && !f.activate.active
              && (HasActive(old(workflow.store.Held(secret))) ==> !f.activate.expire)
              && !f.activate.write && replies.complete == None)
        && (result.Success? ==>
              && result.value == draw.keyId
              && Provider.CurrentValue(workflow.provider.Held(secret)) == Some(draw.material)
              && Replaces(old(workflow.store.Held(secret)), workflow.store.Held(secret), secret, draw, overlapMs,
                          old(workflow.now), workflow.now))
        && workflow.events == old(workflow.events) + Tagged(rid,
             if result.Success? then [KeyGenerated, KeyPropagated, KeyVerified, KeyActivated]
             else if f.read || draw.Throw? || f.save then [RotationFailed(Generation)]
             else if replies.begin.Some? || replies.store.Some? then [KeyGenerated, RotationFailed(Propagation)]
             else if replies.verify.Some? then [KeyGenerated, KeyPropagated, RotationFailed(Verification)]
             else [KeyGenerated, KeyPropagated, KeyVerified, RotationFailed(Activation)])
      ensures workflow.good ==> forall name :: AtMostOneActive(workflow.store.Held(name))
      ensures secret !in old(rotatingSecrets) && admitted && workflow.good ==>
        var keys, prov := workflow.store.Held(secret), workflow.provider.Held(secret);
        && (result.Success? ==>
              && GetActive(keys).Some? && GetActive(keys).value.keyId == result.value
              && draw.Made? && GetActive(keys).value.material == draw.material)
        && (result.Failure? && workflow.want.restoration ==>
              Results.RestoredButForOneFailed(old(workflow.store.Held(secret)), keys))
        && (workflow.want.agreement ==> Agrees(Slice(keys, prov)))
    {
      hide Agrees, Results.RestoredButForOneFailed, AtMostOneActive, GetActive, Kept, FirstFailure, Announced, Tagged,
        HasActive, Ids, Closing, FreshMade, Replaces;
      if secret in rotatingSecrets || !admitted {
        OneActiveNow();
        return Failure(if secret in rotatingSecrets then "Rotation already in progress" else "Rate limited");
      }
      if workflow.good {
        FreshIsNotStored(secret, draw);
      }
      FirstFailureIs(draw, replies, f, HasActive(workflow.store.Held(secret)));
      rotatingSecrets := rotatingSecrets + {secret};
      result := Carry(rid, secret, overlapMs, draw, replies, f);
      OneActiveNow();
    }
  }
}
