# Secret rotation: a verified model

This project models the core of a secret rotation library and proves properties of the model. The library keeps,
per secret, a set of key records (pending, active, expired, revoked, failed), a key store that holds them, and a
provider that serves one current version of the secret. A rotation draws a new key, saves it as pending, stages it
with the provider, has the propagation verified, activates it in place of the old key, which stays valid for an
overlap, and completes the provider's session. Any of these calls can fail, and then the rotation compensates: it
marks the new key failed and reactivates the previous one, inline or through a rollback manager.

## How the model is built

* `RotationMachine` is a transition system: per-secret records and versions, any number of rotations in flight, each
  with a program counter, the rollback entries, the event log and a clock. One step is what runs from one awaited call
  to the next: the call's effect, or its failure without effect, and the synchronous code after it. Records are
  written as computed at the time of the write. `RotationInvariant` and `RotationTheorems` prove what each step keeps,
  `RotationResults` and `RotationEvents` state the results over runs, `RotationEntries` says how long a rollback entry
  can be found, and `RotationLimits` and `RotationOverlaps` prove the conditions of the results exact: a step meets
  them if and only if no continuation of steps that meet them breaks the result.
* `LifecycleMachine` adds callers of the lifecycle operations and of the rollback manager's reactivation. Each
  operation is split into its store calls, so a write based on an earlier read can be overtaken by other callers and by
  rotations. `LifecycleRuns` states exactly when terminal states are final, `LifecycleHistory` what `rotationCount`
  counts, `LifecycleActive` that one key is active, and `LifecycleLimits` gives the runs that break these when
  operations overlap, and proves the conditions of the single active key exact.
* `RotationManager`, `RotationWorkflow`, `KeyLifecycleManager`, `RollbackManager`, `InMemoryKeyStore` and the
  provider are classes that work in place, and any of their store and provider calls may throw. The workflow carries
  the machine along in ghost fields and takes its step at each call, so every execution of the program is a run of the
  machine and the invariant proved of runs gives the contract of `Rotate`. A method of these classes is one execution
  that nobody interrupts; interleaving is in the machines, of whose runs such executions are some.
* `PerKeyLock` and `FileSystemKeyStore` are transition systems over the lock's queues and the file system, in which
  reads, temporary writes and renames of different clients interleave, beside classes for the methods themselves;
  `FileSystemRuns` says what such runs mean to a caller.
* `RateLimiter`, `CircuitBreaker`, `KeyWindowManager`, `EventStore`, `Metrics` and `RetryHandler` are classes or
  methods proved equal to functions of their state, and the results are about every history of calls. `Scheduler` is a
  transition system for `start`, `stop` and the timer loop.

Time is in integer milliseconds, the rate limiter, the metrics and the backoff use real numbers. A secret's records
are a sequence in insertion order, as in a JavaScript `Map`.

## Where the conditions come from

* A step of a rotation is good if it has none of the failures in `RotationInvariant.StepOk`. One is always excluded:
  marking an already active new key failed throws while there is a previous key. Three claims exclude more, and a run
  makes those claims it is good for. Agreement with the provider: marking an active new key failed throws, or
  completing the session throws when the rollback entry has been evicted. Service, an active key at rest for whoever
  had one: reactivating a previous key that is out throws, or activation throws in between with the entry evicted.
  Restoration of the records: marking throws, reactivating a key that is out throws, or a rotation throws with its
  entry evicted. `RotationLimits` proves of each excluded failure that good steps alone can follow it to a state that
  breaks the result, from every reachable state, and of every other call that they cannot.
* An evicted entry can be ruled out beforehand: `RotationEntries` shows that an entry is found as long as fewer than
  `maxEntries` have been recorded after it.
* Initially each secret has at most one active key and, for agreement, the provider serves its material. New key ids
  are nonempty and not used before, as random ids are.
* The lifecycle operations re-read nothing before they write. Terminal states are final exactly in the runs in which no
  write is overtaken; it is enough that operations and rotations of the same secret take turns.
* Where the code and its documentation differ, the model follows the code. The rollback manager's documentation says a
  rollback cancels the provider session; the workflow always records a null session, so it never does
  (packages/core/src/rotation-workflow.ts:111-116). The architecture document has completion revoke the old
  key after a grace period (ARCHITECTURE.md:141); a rotation only expires it. A reactivated key loses its
  `validUntil`. A request is admitted while a bucket holds at least 1e-9 tokens, not a whole one. `slice(-0)` keeps a
  whole list, so a maximum of zero entries or events trims nothing. Starting a schedule again right after stopping it
  can leave two loops running, and an interval above 2147483647 ms makes Node's timers fire after one millisecond.

## Model

| member | source | states |
|---|---|---|
| `RotationResults.SingleActiveKey` | packages/core/src/rotation-workflow.ts:91-175 | In every interleaving of any number of rotations of any secrets, whatever generator, provider, verifier, emitter and store do, no secret ever has two active keys, unless a secret already rotating gets a forced request, or marking an active new key failed throws while there is a previous key to come back |
| `RotationOverlaps.SingleActiveIsExact` | packages/core/src/rotation-manager.ts:152-187 | That condition is exact: from every reachable state a step of any kind, a forced request included, meets it if and only if no continuation of steps that meet it leads to two active keys of its secret |
| `RotationLimits.FailedMarkLeavesTwoActive` | packages/core/src/rotation-workflow.ts:347-370 | From every reachable state, each failing mark it excludes, whether its read or its write throws, can be followed by good steps only, to two active keys |
| `RotationOverlaps.ForcedOverlapBreaks` | packages/core/src/rotation-manager.ts:157-186 | From every state in which a secret rotates, at whatever call, a forced request for it can be followed by good steps only, further unforced requests among them, to two active keys |
| `RotationOverlaps.RunKeepsMarks` | packages/core/src/rotation-manager.ts:179-186 | In every run from a state with nothing marked, a marked secret is rotating |
| `RotationResults.NoUsabilityGap` | packages/core/src/key-window-manager.ts:110-121 | Once a secret has an active key at rest, then unless a failure leaves the previous key expired and the new one not active: at rest exactly one key is active, and in flight some key is active or has just been expired by the rotation; so as long as active keys have not reached their own end of validity and the overlap, counted from the old key's expiry, has not run out, `selectKey` returns an active or an expired but valid key. It does so if and only if an active key's validity has not ended, or that overlap lasts, or an older expired key is still valid |
| `RotationResults.FailureIsCompensated` | packages/core/src/rotation-workflow.ts:310-405 | A rotation failing at any stage, whatever other rotations do meanwhile, leaves its secret's records as they were when it started, in place, but for the active key's `rotatedAt` and its dropped `validUntil`, plus at most one failed key under a fresh id, unless its compensation is cut short |
| `RotationResults.StoreAndProviderAgree` | packages/core/src/rotation-workflow.ts:224-241 | Whenever no rotation of a secret is in flight and it has an active key, a staged provider's current value is that key's material, through any sequence of successful and failed rotations, but for two failures: completing the session throws when the rollback entry is evicted, or marking an active new key failed throws |
| `RotationLimits.AgreementIsExact` | packages/core/src/rotation-workflow.ts:310-386 | The two excluded failures are exact: from every reachable state in which the provider does not already serve the new key's material, a call is allowed if and only if no good continuation ends at rest with store and provider in disagreement; and allowed calls never lead to that. Before an excluded one the provider serves the previous key's material, if there was one |
| `RotationLimits.ServiceIsExact` | packages/core/src/rotation-workflow.ts:310-405 | The same of service: from every reachable state, a call of a rotation of a secret in service is allowed if and only if no good continuation ends at rest with other than exactly one active key |
| `RotationLimits.RestorationIsExact` | packages/core/src/rotation-workflow.ts:310-405 | The same of restoration: a call is allowed if and only if no good continuation has the rotation fail and leave other records |
| `RotationEntries.EntryIsKeptExactly` | packages/core/src/rollback-manager.ts:70-83 | A rollback entry is found exactly as long as fewer than `maxEntries` have been recorded after it |
| `RotationEntries.RoomKeepsRunsGood` | packages/core/src/rollback-manager.ts:70-74 | So the conditions about evicted entries hold of every run when `maxEntries` is zero, when there is no rollback manager, or when it is at least the number of entries the run records besides those already relied on |
| `RotationEntries.RoomFromTheStart` | packages/core/src/rollback-manager.ts:70-74 | From the start it is enough to keep as many entries as the run records |
| `RotationResults.ActivationNeedsVerification` | packages/core/src/rotation-workflow.ts:255-298 | A key turns from pending to active only in its own rotation's activating write, and only after verification succeeded for a version holding that key's material |
| `RotationEvents.EventGrammar` | packages/core/src/rotation-workflow.ts:101-175 | Per rotation the events are generated, propagated, verified, activated, or the first zero to three of the first three and then one failure whose stage tells how many |
| `RotationInvariant.StepKeepsRotation` | packages/core/src/rotation-workflow.ts:101-405 | Every awaited call of a rotation, whatever its outcome, keeps the secret's records equal to those at the start overlaid with the rewritten previous and new key, and the provider's stages in their order |
| `RotationTheorems.StepKeeps` | packages/core/src/rotation-manager.ts:152-187 | Every step of the system keeps the invariant of all rotations in flight and of all secrets at rest; the `rotatingSecrets` guard gives one rotation per secret |
| `RotationResults.RunKeeps` | packages/core/src/rotation-manager.ts:152-187 | So does every run |
| `RotationResults.ServingOverRuns` | packages/core/src/rotation-manager.ts:152-187 | Over every run without the failures excluded for service, a secret that had an active key has one at rest, and had one when the rotation in flight began |
| `RotationResults.CompensationIsExact` | packages/core/src/rotation-workflow.ts:310-405 | In the state in which the failure is reported, the records are the starting ones up to the active key's `rotatedAt` and dropped `validUntil` and one failed key |
| `RotationResults.WindowUsable` | packages/core/src/key-lifecycle-manager.ts:87-110 | While a rotation is in flight an expired key is valid if and only if the previous one's overlap lasts or an older expired key is valid |
| `RotationTheorems.AdvanceFrame` | packages/core/src/rotation-workflow.ts:91-175 | One awaited call changes its own secret's records and versions; of the rest it hands out an id, logs its event, and pushes or flags a rollback entry, a push possibly evicting others' |
| `RotationTheorems.StepStores` | packages/core/src/rotation-workflow.ts:91-405 | One awaited call stores at most one record |
| `RotationManagers.RotationManager.Rotate` | packages/core/src/rotation-manager.ts:152-187 | A request for a secret already rotating or beyond the rate changes nothing. Any other one, in a good run, succeeds if and only if no read, generator, save, provider, verifier or activating call fails, and it announces generated, propagated, verified, activated, or those it passed and exactly one failure at the stage of the first failing call. After a success the new record is active, the old one expired and valid for the overlap from that moment, every other id as before, and the provider serves the new material. Unless a store call of compensation throws or the entry list has no room the run stays good, and then no secret has two active keys, a success leaves the new key active with its material, a failure restores the records up to `rotatedAt`, a dropped `validUntil` and one failed key, and store and provider agree |
| `RotationManagers.FirstFailureIs` | packages/core/src/rotation-workflow.ts:101-175 | The first failing call of a rotation spelled out: there is none exactly if every call before compensation succeeds, and its stage decides the events |
| `RotationManagers.RotationManager.FreshIsNotStored` | packages/core/src/rotation-workflow.ts:179-199 | In a good run every stored id has been handed out, so a fresh one is not among them |
| `RotationManagers.RotationManager.Carry` | packages/core/src/rotation-manager.ts:165-186 | The same of the `try` and `finally` of an admitted request |
| `RotationManagers.RotationManager.Leave` | packages/core/src/rotation-manager.ts:184-186 | The `finally` block unmarks the secret, whatever the outcome |
| `RotationManagers.RotationManager.constructor` | packages/core/src/rotation-manager.ts:108-143 | The manager starts with no secret marked and in step with the workflow |
| `RotationManagers.RotationManager.Ended` | packages/core/src/rotation-manager.ts:175-186 | What holds of the objects when a rotation leaves, by the invariant of the machine run they are in step with |
| `RotationManagers.SuccessServesNewKey` | packages/core/src/rotation-workflow.ts:127-136 | After a success the active key is the new one, with its material, and, if agreement is claimed, the provider serves it |
| `RotationWorkflows.RotationWorkflow.constructor` | packages/core/src/rotation-workflow.ts:79-89 | From objects with at most one active key per secret, which the provider serves if that is claimed, the workflow starts in step with the machine |
| `RotationWorkflows.RotationWorkflow.Take` | packages/core/src/rotation-workflow.ts:91-175 | One call of the program is one step of the machine, which extends its run; the run stays good unless the step is one that the claims exclude |
| `RotationWorkflows.RotationWorkflow.Execute` | packages/core/src/rotation-workflow.ts:91-175 | An execution succeeds exactly if none of its calls before compensation fails, returning the new id, having replaced the active key and being served by the provider; else it returns the error of the first failing call. It has announced all four stages, or those before that call and then its failure. Whatever throws, it is a run of the machine ending where `rotate` unwinds |
| `RotationWorkflows.RotationWorkflow.Finish` | packages/core/src/rotation-workflow.ts:120-175 | The same of the rest of a rotation whose key is recorded |
| `RotationWorkflows.ActivationReplaces` | packages/core/src/rotation-workflow.ts:127-132 | Saving a new key and activating it makes it the active one, expires the old one with the overlap, and changes no other id |
| `RotationWorkflows.CompletingServes` | packages/core/src/rotation-workflow.ts:300-306 | Completing the session makes the provider serve what was pending |
| `RotationWorkflows.SavedKeyActivates` | packages/core/src/key-lifecycle-manager.ts:77-113 | Activating a key just saved under a new id fails only if one of its store calls throws |
| `RotationWorkflows.RotationWorkflow.ReadPrevious` | packages/core/src/rotation-workflow.ts:105-106 | The id of the active key, if any, becomes the previous id; the rotation fails exactly if the read throws |
| `RotationWorkflows.RotationWorkflow.GenerateKey` | packages/core/src/rotation-workflow.ts:179-199 | A generated key is saved, and nothing else is, exactly if neither the generator nor the save throws; else the rotation fails with the error of the first that does |
| `RotationWorkflows.RotationWorkflow.RecordEntry` | packages/core/src/rotation-workflow.ts:110-118 | With a rollback manager the rotation is recorded with a null session, and a rollback will find the entry |
| `RotationWorkflows.RotationWorkflow.BeginProviderRotation` | packages/core/src/rotation-workflow.ts:201-222 | A session opens exactly if the provider allows it, or the rotation fails over with its error |
| `RotationWorkflows.RotationWorkflow.StoreSecretValue` | packages/core/src/rotation-workflow.ts:224-241 | The new material is stored as the pending version, or the versions stay as they are and the error is passed on |
| `RotationWorkflows.RotationWorkflow.PropagateToProvider` | packages/core/src/rotation-workflow.ts:224-253 | If the provider stores it the pending version holds the new material, the session names it, and that is announced; else the rotation fails over with its error |
| `RotationWorkflows.RotationWorkflow.VerifyPropagation` | packages/core/src/rotation-workflow.ts:255-288 | A positive verdict is announced and moves on to activation; a negative one fails over with its error |
| `RotationWorkflows.RotationWorkflow.ActivateNewKey` | packages/core/src/rotation-workflow.ts:290-298 | `KeyLifecycleManager.activate` performs the machine's three or four calls, or fails over with its error, whichever of them throws |
| `RotationWorkflows.RotationWorkflow.CompleteProviderRotation` | packages/core/src/rotation-workflow.ts:300-306 | The pending version becomes current and the rollback entry is flagged exactly if the provider completes the session; else the rotation fails over with its error |
| `RotationWorkflows.RotationWorkflow.ReportSuccess` | packages/core/src/rotation-workflow.ts:134-145 | The rollback entry is completed and activation announced |
| `RotationWorkflows.RotationWorkflow.HandleFailure` | packages/core/src/rotation-workflow.ts:310-386 | Whether compensation is inline or through the rollback manager, and whichever of its calls throw, the records end up the same: new key marked failed, previous key reactivated, as far as the calls succeed, or as they were if the entry is evicted; then one failure event with the stage. The pending version is cancelled only inline, in an open session |
| `RotationWorkflows.RotationWorkflow.UndoInline` | packages/core/src/rotation-workflow.ts:335-370 | Inline compensation, after cancelling the session if there is one |
| `RotationWorkflows.RotationWorkflow.UndoByEntry` | packages/core/src/rotation-workflow.ts:322-333 | Compensation by the rollback manager from the recorded entry, or none if the entry is evicted |
| `RotationWorkflows.RotationWorkflow.CancelSession` | packages/core/src/rotation-workflow.ts:335-345 | The pending version is dropped; a failing cancellation is ignored and leaves the versions as they are |
| `RotationWorkflows.RotationWorkflow.ReactivatePreviousKey` | packages/core/src/rotation-workflow.ts:388-405 | The record becomes active without expiry, or stays as it is if it is gone, terminal or a call throws |
| `RotationWorkflows.RotationWorkflow.Emit` | packages/core/src/rotation-workflow.ts:413-423 | The event is logged; the machine has yet to see it |
| `RotationWorkflows.RotationWorkflow.TakeActivate` | packages/core/src/key-lifecycle-manager.ts:77-113 | The calls of `activate` are the machine's steps, on success, on both errors and when one throws |
| `RotationWorkflows.RotationWorkflow.TakeUndo` | packages/core/src/rollback-manager.ts:114-134 | Marking and reactivating are the machine's steps and give the rolled-back records, whichever of them throw |
| `RotationWorkflows.EntryPushed` | packages/core/src/rollback-manager.ts:70-74 | With room for at least one entry, an entry just pushed is found |
| `RotationWorkflows.EntryCompleted` | packages/core/src/rollback-manager.ts:80-83 | Completing an entry keeps it findable and changes only its flag |
| `KeyLifecycles.KeyLifecycleManager.Create` | packages/core/src/key-lifecycle-manager.ts:53-70 | A pending record of the given key is saved and no other id changes, exactly if the save does not throw |
| `KeyLifecycles.KeyLifecycleManager.Activate` | packages/core/src/key-lifecycle-manager.ts:77-113 | It succeeds exactly for a stored pending key when no call throws; then that key is active and dated, the formerly active one is expired and valid for the overlap from now, and every other id keeps its record; other secrets are untouched; a call that throws stops it there |
| `KeyLifecycles.KeyLifecycleManager.Expire` | packages/core/src/key-lifecycle-manager.ts:118-137 | It succeeds exactly for a stored active or pending key when no call throws; then the record has status expired and ends now, is not valid at any later time, keeps all other fields, and every other id keeps its record; a failure changes nothing |
| `KeyLifecycles.KeyLifecycleManager.Revoke` | packages/core/src/key-lifecycle-manager.ts:142-171 | Any stored key but a revoked one gets status revoked, the moment of revocation, its end and its reason, all other fields and all other ids being kept; a revoked one stays as it is; a failure changes nothing |
| `KeyLifecycles.KeyLifecycleManager.MarkFailed` | packages/core/src/key-lifecycle-manager.ts:178-207 | A stored key that is not terminal gets status failed and three metadata entries: the error, the moment and its former status, all other fields and all other ids being kept; a terminal one stays as it is; a failure changes nothing |
| `KeyLifecycles.KeyLifecycleManager.GetState` | packages/core/src/key-lifecycle-manager.ts:212-228 | The state is computed from the listed records |
| `KeyLifecycles.StateListsByStatus` | packages/core/src/key-lifecycle-manager.ts:212-228 | Each list of `getState` holds the records of its own status, as often as they are stored; the active key is the first active record, missing exactly if there is none |
| `KeyLifecycles.CreateEffect` | packages/core/src/key-lifecycle-manager.ts:42-70 | What creating changes: one id, if the save does not throw |
| `KeyLifecycles.ActivateEffect` | packages/core/src/key-lifecycle-manager.ts:77-113 | Id by id what activating changes, also when a call throws: only a throw of the last write leaves the active key expired and the pending one as it was |
| `KeyLifecycles.ActivateFails` | packages/core/src/key-lifecycle-manager.ts:77-113 | Exactly when activating fails, and with which error |
| `KeyLifecycles.ExpireEffect` | packages/core/src/key-lifecycle-manager.ts:118-137 | Exactly when expiring fails, and what it changes: status and end, so that the key is never valid later |
| `KeyLifecycles.RevokeEffect` | packages/core/src/key-lifecycle-manager.ts:142-171 | Exactly when revoking fails, and what it changes |
| `KeyLifecycles.MarkFailedEffect` | packages/core/src/key-lifecycle-manager.ts:178-207 | Exactly when marking failed fails, and what it changes |
| `KeyLifecycles.ReactivateEffect` | packages/core/src/rollback-manager.ts:203-229 | Exactly when reactivating fails, and what it changes: an active key without an end, dated now |
| `KeyLifecycles.StatePartitionsKeys` | packages/core/src/key-lifecycle-manager.ts:212-228 | With at most one active key the lists of `getState` contain every record exactly once |
| `LifecycleHistory.RotationCountIsHistory` | packages/core/src/key-lifecycle-manager.ts:222 | Over every run of operations and rotations that take turns on a secret, `rotationCount` is the number of its keys that have ever been active, so it never decreases; and if callers reactivate only former active keys it grows by one with each activation, no key being activated twice |
| `LifecycleHistory.CountFromNothing` | packages/core/src/key-lifecycle-manager.ts:222 | From a secret without records the count is of all its keys that have ever been active, and the number of activations if callers reactivate only former active keys |
| `LifecycleRuns.TerminalStatesAreFinal` | packages/core/src/key-lifecycle-manager.ts:77-207 | In every run of operations and rotations, however their reads and writes interleave and whichever throw: a revoked record never changes again, a failed one can only become revoked and none returns to pending, if and only if no write is overtaken, that is, none rewrites a key that another write has ended since it was read, other than by repeating that write or revoking a failed key |
| `LifecycleRuns.OrderlyRunsAreFinal` | packages/core/src/key-lifecycle-manager.ts:77-207 | That is so when an operation or rotation of a secret begins only while none of that secret is in progress |
| `LifecycleRuns.RevokedStays` | packages/core/src/key-lifecycle-manager.ts:152-168 | In such runs a revoked record is the same at the end |
| `LifecycleLimits.RevokeInBetweenBreaks` | packages/core/src/rollback-manager.ts:204-227 | In every reachable state in which a call of an operation or a rotation is about to store a record made from an earlier read of a key not revoked: after the three steps of a caller's revoke and a millisecond the key is revoked, that call still goes through, is overtaken, and stores another record over the revoked one |
| `LifecycleLimits.OverlappingActivatesLeaveTwo` | packages/core/src/key-lifecycle-manager.ts:77-112 | Two callers that activate different pending keys of a secret in step, each making its call before either makes its next, both succeed and leave two active keys, whether or not there is an active key to replace |
| `LifecycleActive.SingleActiveKeyAmongOperations` | packages/core/src/key-lifecycle-manager.ts:77-113 | No secret ever has two active keys in any run of operations and rotations that take turns on it, unless one of the rotation failures above occurs or a caller reactivates a live key beside another active one |
| `LifecycleActive.OneActiveFromRest` | packages/core/src/key-lifecycle-manager.ts:77-113 | So from any records with at most one active key each, before any operation or rotation |
| `LifecycleLimits.ReactivateBesideLeavesTwo` | packages/core/src/rollback-manager.ts:204-227 | A caller's reactivation of a live key while another one is active leaves both active after its two calls |
| `LifecycleLimits.CarefulIsExact` | packages/core/src/key-lifecycle-manager.ts:77-207 | Those conditions are exact: from every reachable state a move that waits its turn meets them if and only if no continuation that takes turns and meets them leads to two active keys |
| `LifecycleMachine.UninterruptedIsAttempt` | packages/core/src/key-lifecycle-manager.ts:77-207 | The calls of an operation that nobody interrupts do what the manager's method does |
| `LifecycleMachine.ExpireByCalls` | packages/core/src/key-lifecycle-manager.ts:118-137 | After the calls of `expire`, if they return, the key has ended now, all its other fields and all other ids are as before, and `selectKey` does not return it at any later time |
| `LifecycleMachine.UpdateStores` | packages/core/src/key-lifecycle-manager.ts:77-207 | Whatever came in between, the last write of an operation stores the record it read with only the fields of the operation changed, and no other id |
| `LifecycleInvariant.FinalUnlessOvertaken` | packages/core/src/key-lifecycle-manager.ts:77-207 | One step of an operation or a rotation keeps terminal states if and only if its write is not overtaken |
| `RollbackManagers.RollbackManager.StartRotation` | packages/core/src/rollback-manager.ts:55-75 | The entry is appended and the list trimmed to its newest entries; a maximum of zero trims nothing |
| `RollbackManagers.RollbackManager.MarkComplete` | packages/core/src/rollback-manager.ts:80-83 | The first entry with the id is flagged |
| `RollbackManagers.RollbackManager.GetEntry` | packages/core/src/rollback-manager.ts:199-201 | The first entry with the id, if any |
| `RollbackManagers.RollbackManager.Rollback` | packages/core/src/rollback-manager.ts:92-173 | Cancels a recorded session, marks the new key and reactivates the previous one, skipping what throws; reports success exactly if there is no previous key or it is stored, not ended, not the key just marked, and no call of its reactivation throws |
| `RollbackManagers.RollbackManager.ReactivateKey` | packages/core/src/rollback-manager.ts:203-229 | Succeeds exactly for a stored record that is not terminal when no call throws; then it is active, dated and open-ended, and every other id keeps its record; a failure changes nothing |
| `RollbackManagers.EntryOf` | packages/core/src/rollback-manager.ts:199-201 | An entry is found exactly if one with the id is kept |
| `RollbackManagers.RolledBackEffect` | packages/core/src/rollback-manager.ts:92-173 | Id by id what a rollback changes: the new key is marked failed and the previous one reactivated, each unless the store throws or the key has ended, and no other id changes |
| `InMemoryKeyStores.InMemoryKeyStore.Save` | packages/core/src/in-memory-key-store.ts:14-21 | Inserts the record, or replaces the one with its id in place |
| `InMemoryKeyStores.InMemoryKeyStore.Get` | packages/core/src/in-memory-key-store.ts:23-27 | The record with the id |
| `InMemoryKeyStores.InMemoryKeyStore.GetActive` | packages/core/src/in-memory-key-store.ts:29-40 | A newest active record |
| `InMemoryKeyStores.InMemoryKeyStore.GetValid` | packages/core/src/in-memory-key-store.ts:42-55 | The records usable at a time, newest first |
| `InMemoryKeyStores.InMemoryKeyStore.Update` | packages/core/src/in-memory-key-store.ts:57-65 | Replaces an existing record; a missing one is an error and changes nothing |
| `InMemoryKeyStores.InMemoryKeyStore.Delete` | packages/core/src/in-memory-key-store.ts:67-71 | The record with the id is taken out of its place and no longer found; every other id keeps its record, the order and the other secrets stay, and nothing changes if there is none |
| `InMemoryKeyStores.InMemoryKeyStore.List` | packages/core/src/in-memory-key-store.ts:73-79 | All records of a secret in insertion order |
| `InMemoryKeyStores.InMemoryKeyStore.Clear` | packages/core/src/in-memory-key-store.ts:105-112 | Empties the store |
| `KeyModel.FindPut` | packages/core/src/in-memory-key-store.ts:18 | A write is read back, and disturbs no other id |
| `KeyModel.PutAt` | packages/core/src/in-memory-key-store.ts:63 | Position by position a write changes only the record with its id, and keeps ids distinct |
| `KeyModel.PutNew` | packages/core/src/in-memory-key-store.ts:18 | A new id is appended |
| `KeyModel.RemoveAt` | packages/core/src/in-memory-key-store.ts:67-71 | Deleting a record takes out its position alone and keeps the others in order |
| `KeyModel.RemoveAbsent` | packages/core/src/in-memory-key-store.ts:67-71 | Deleting an id that is not stored changes nothing |
| `KeyModel.FindRemove` | packages/core/src/in-memory-key-store.ts:67-71 | A deleted id is not found, every other one is found as before, and ids stay distinct |
| `KeyModel.FindIsUnique` | packages/core/src/in-memory-key-store.ts:23-27 | With distinct ids a record is what its id finds |
| `KeyModel.GetActiveIsNewest` | packages/core/src/in-memory-key-store.ts:29-40 | `getActive` returns a newest active record, and nothing exactly if there is none |
| `KeyModel.GetActiveIsTheOne` | packages/core/src/in-memory-key-store.ts:29-40 | With at most one active key `getActive` is that key |
| `KeyModel.GetValidIsWhatIsUsable` | packages/core/src/in-memory-key-store.ts:42-55 | `getValid` returns exactly the records, as often as stored, that are neither revoked nor failed, have begun and have not ended, newest first |
| `KeyModel.SelectKeyPrefers` | packages/core/src/key-window-manager.ts:110-121 | `selectKey` finds a key exactly if one is valid, prefers active to expired to pending, and returns a newest of the chosen status |
| `Sorting.SortByIsSortedPermutation` | packages/core/src/in-memory-key-store.ts:36 | Sorting gives an ordered permutation |
| `Sorting.SortByIsStable` | packages/core/src/in-memory-key-store.ts:36 | and keeps the order of ties |
| `StagedProvider.InMemoryProvider.StoreSecretValue` | examples/in-memory-provider.mjs:40-48 | Adds a version and makes it the pending or the current one, as asked |
| `StagedProvider.StoringStages` | examples/in-memory-provider.mjs:40-48 | Staging a value adds one version and leaves what is served and every other version |
| `StagedProvider.StoringCurrentServes` | examples/in-memory-provider.mjs:40-48 | A value stored as current is served at once, and what is pending stays pending |
| `StagedProvider.InMemoryProvider.CompleteRotation` | examples/in-memory-provider.mjs:85-97 | The pending version becomes current and the current one previous |
| `StagedProvider.CompletingPromotes` | examples/in-memory-provider.mjs:85-97 | Completing serves the pending value, marks the one served before as previous, and loses no value |
| `StagedProvider.InMemoryProvider.CancelRotation` | examples/in-memory-provider.mjs:99-105 | The pending version is deleted |
| `StagedProvider.CancellingDrops` | examples/in-memory-provider.mjs:99-105 | Cancelling deletes the pending version and nothing else |
| `FileSystemKeyStores.StoreIsLinearizable` | packages/core/src/filesystem-key-store.ts:51-103 | Every concurrent run of saves, updates and deletes is linearizable in lock-grant order: each outcome is the in-memory store's at that point or an I/O failure without effect, each file holds the fold of the decided operations, no update is lost, and a query without the lock sees exactly the decided ones |
| `FileSystemRuns.ReadersFindTheLastWrite` | packages/core/src/filesystem-key-store.ts:51-103 | In every concurrent run a file holds under an id what the last operation reported done on it wrote there, or nothing after a delete, and what it held at first if there was none |
| `FileSystemRuns.FailuresAreReal` | packages/core/src/filesystem-key-store.ts:51-184 | In every run an operation ends in an I/O error if and only if one of its own file system calls failed |
| `FileSystemKeyStores.PerformEffect` | packages/core/src/filesystem-key-store.ts:51-103 | Id by id what one operation does to the parsed content, and when it reports a missing key |
| `FileSystemKeyStores.StepKeeps` | packages/core/src/filesystem-key-store.ts:51-184 | Every step of a run, failing I/O included, keeps the invariant behind it |
| `FileSystemKeyStores.SerializationRoundTrip` | packages/core/src/filesystem-key-store.ts:197-230 | A key read back is the key written |
| `FileSystemKeyStores.AssignIsPut` | packages/core/src/filesystem-key-store.ts:54 | Assigning a serialized record is the in-memory store's write |
| `FileSystemKeyStores.UnsetIsRemove` | packages/core/src/filesystem-key-store.ts:100 | Deleting a property is the in-memory store's delete, whose meaning `KeyModel.RemoveAt` and `KeyModel.FindRemove` state |
| `FileSystemKeyStores.UnsetAt` | packages/core/src/filesystem-key-store.ts:100 | Deleting a property takes out its position alone and keeps the others in order |
| `FileSystemKeyStores.HasKeyIsFind` | packages/core/src/filesystem-key-store.ts:89 | `update` finds a record exactly if the in-memory store would |
| `FileSystemKeyStores.ReadIsPerform` | packages/core/src/filesystem-key-store.ts:52-102 | What a client makes of the file it read is what its operation makes of the content |
| `FileSystemKeyStores.RenameReplaces` | packages/core/src/filesystem-key-store.ts:169-183 | A rename replaces one secret's content, in one step, by what was written for it |
| `FileSystemKeyStores.FileSystemKeyStore.ReadSecretFile` | packages/core/src/filesystem-key-store.ts:143-156 | The parsed record, empty if there is no file, or the error |
| `FileSystemKeyStores.FileSystemKeyStore.WriteSecretFile` | packages/core/src/filesystem-key-store.ts:158-184 | The whole content or, if writing or renaming fails, nothing changes; other secrets never |
| `FileSystemKeyStores.FileSystemKeyStore.Save` | packages/core/src/filesystem-key-store.ts:51-57 | It fails on the first call that fails and on a file that does not parse, without effect, and else stores the key under its id and changes no other |
| `FileSystemKeyStores.FileSystemKeyStore.Update` | packages/core/src/filesystem-key-store.ts:86-95 | The same for `update`, which also fails, without effect, if the id is not stored |
| `FileSystemKeyStores.FileSystemKeyStore.Delete` | packages/core/src/filesystem-key-store.ts:97-103 | The same for `delete`: done, the id is not found and every other one is found as before |
| `FileSystemKeyStores.FileSystemKeyStore.List` | packages/core/src/filesystem-key-store.ts:105-109 | The records of a secret, or the error |
| `PerKeyLocks.PerKeyLock.Acquire` | packages/core/src/per-key-lock.ts:13-22 | The request joins the queue and is woken if alone |
| `PerKeyLocks.PerKeyLock.Release` | packages/core/src/per-key-lock.ts:24-31 | The head leaves and the next one is woken |
| `PerKeyLocks.EveryRunKeepsInv` | packages/core/src/per-key-lock.ts:4-31 | In every run requests split, in order, into those served and those queued, and exactly the head of a queue has been woken |
| `PerKeyLocks.MutualExclusion` | packages/core/src/per-key-lock.ts:4-11 | At most one holder per name, and grants in request order |
| `PerKeyLocks.NoLostWakeup` | packages/core/src/per-key-lock.ts:24-31 | A non-empty queue can always move |
| `PerKeyLocks.NamesAreIndependent` | packages/core/src/per-key-lock.ts:13-31 | A step for one name leaves the others alone |
| `PerKeyLocks.AllWaitersAreServed` | packages/core/src/per-key-lock.ts:4-31 | If no more requests come and sections end, every run has exactly as many moves as work was left, never gets stuck before, and ends with everybody served |
| `RateLimiting.RateLimiter.constructor` | packages/core/src/rate-limiter.ts:17-22 | No bucket, and the refill rate is the maximum per window, infinite for a window of zero |
| `RateLimiting.RateLimiter.Refilled` | packages/core/src/rate-limiter.ts:71-77 | A bucket gains the rate times the elapsed time, up to the maximum, and nothing if the clock has not advanced; at an infinite rate it is full at once |
| `RateLimiting.RateLimiter.Consume` | packages/core/src/rate-limiter.ts:27-44 | The named bucket is refilled and charged, or the request refused |
| `RateLimiting.RateLimiter.CanConsume` | packages/core/src/rate-limiter.ts:49-55 | The named bucket is refilled and judged as `consume` would |
| `RateLimiting.RateLimiter.Reset` | packages/core/src/rate-limiter.ts:60-62 | All buckets are dropped |
| `RateLimiting.RateLimiter.Cleanup` | packages/core/src/rate-limiter.ts:79-87 | Exactly the stale buckets are dropped |
| `RateLimiting.BucketInvariant` | packages/core/src/rate-limiter.ts:71-77 | Tokens stay above -1 and at most the maximum, over every history |
| `RateLimiting.AdmissionBound` | packages/core/src/rate-limiter.ts:27-77 | At a finite rate, over any history with a monotone clock the requests admitted in any closed interval number strictly fewer than maximum + 1 + rate * length |
| `RateLimiting.RefusalIsNeeded` | packages/core/src/rate-limiter.ts:27-77 | Conversely a call is refused only if some closed interval ending with it has admitted more than maximum - epsilon + rate * length requests, so the limiter refuses nothing that the limit allows |
| `RateLimiting.LookForetells` | packages/core/src/rate-limiter.ts:49-55 | At any moment of any history `canConsume` answers what `consume` would |
| `RateLimiting.BoundNeedsPositiveBurst` | packages/core/src/rate-limiter.ts:17-22 | For a positive window that bound holds of every history if and only if the maximum is positive |
| `RateLimiting.RefillTwice` | packages/core/src/rate-limiter.ts:71-77 | Refilling in two steps equals refilling once |
| `RateLimiting.LooksAreInvisible` | packages/core/src/rate-limiter.ts:49-55 | Inserting a `canConsume` anywhere changes no later outcome |
| `RateLimiting.StaleMeansFullExactly` | packages/core/src/rate-limiter.ts:79-87 | Every stale bucket has refilled if and only if the rate is infinite or rate * 600000 reaches maximum + 1 - epsilon |
| `RateLimiting.CleanupIsInvisible` | packages/core/src/rate-limiter.ts:79-87 | Then cleanup passes change no outcome of any history |
| `RateLimiting.CleanupIsInvisibleExactly` | packages/core/src/rate-limiter.ts:79-87 | Cleanup passes change no outcome of any history if and only if the rate is infinite or rate * 600000 reaches maximum + 1 - epsilon |
| `CircuitBreaking.CircuitBreaker.constructor` | packages/core/src/circuit-breaker.ts:35-40 | Closed, with nothing counted |
| `CircuitBreaking.CircuitBreaker.Begin` | packages/core/src/circuit-breaker.ts:49-58 | It refuses exactly while the breaker is open and the timeout since the last failure is not over; an open breaker that lets a call through is half-open |
| `CircuitBreaking.CircuitBreaker.OnSuccess` | packages/core/src/circuit-breaker.ts:83-92 | A trial success counts towards closing and closes at the threshold; a success while closed clears the failures |
| `CircuitBreaking.CircuitBreaker.OnFailure` | packages/core/src/circuit-breaker.ts:94-104 | A failed trial reopens; a failure while closed counts and opens at the threshold; the moment is kept |
| `CircuitBreaking.CircuitBreaker.Transition` | packages/core/src/circuit-breaker.ts:106-122 | Counts are cleared on entering a state, and nothing changes within one |
| `CircuitBreaking.CircuitBreaker.Reset` | packages/core/src/circuit-breaker.ts:79-81 | Closes; while closed it changes nothing |
| `CircuitBreaking.CountsStayBelow` | packages/core/src/circuit-breaker.ts:83-123 | With overlapping calls included: closed if and only if failures are below their threshold, and trial successes below theirs |
| `CircuitBreaking.ClosedCountsTheRun` | packages/core/src/circuit-breaker.ts:89-103 | While closed the failure count is the run of failed completions since the last success or close |
| `CircuitBreaking.HalfOpenCountsSuccesses` | packages/core/src/circuit-breaker.ts:83-88 | While half-open the success count is the number of successes since the trial began |
| `CircuitBreaking.StateIsHistory` | packages/core/src/circuit-breaker.ts:49-123 | For any thresholds, the state after every history and one more event, by what has happened since the present state began: closed opens exactly at the failure that completes the threshold, half-open opens at any failure and closes exactly at the success that completes the threshold, open half-opens exactly at a call after the timeout, and a reset closes |
| `CircuitBreaking.SinceWhen` | packages/core/src/circuit-breaker.ts:106-123 | Every history has a moment since which it has been in its last state |
| `CircuitBreaking.AdmitsUnlessOpen` | packages/core/src/circuit-breaker.ts:49-58 | After every history a call is let through if and only if the breaker is not open or the timeout since the last failure is over |
| `CircuitBreaking.FailedTrialReopens` | packages/core/src/circuit-breaker.ts:94-99 | After every history that leaves it half-open, a failure opens the breaker, and without a reset it stays open and starts no call until the timeout since that failure is over |
| `CircuitBreaking.OpenRejectsUntilTimeout` | packages/core/src/circuit-breaker.ts:49-58 | Without a reset, no protected call starts within the timeout of the failure that opened the breaker, whatever calls already running do |
| `CircuitBreaking.TimeoutAllowsTrial` | packages/core/src/circuit-breaker.ts:50-53 | An open breaker lets a call through exactly if the timeout since the last failure has passed, and then half-opens |
| `KeyWindows.KeyWindowManager.Activate` | packages/core/src/key-window-manager.ts:41-76 | Any existing key becomes active, the previous active one expires with the overlap, and the cap is enforced |
| `KeyWindows.SwitchedEffect` | packages/core/src/key-window-manager.ts:41-69 | Id by id: the new key is active and dated, the previous active one expired and valid for the overlap, no other id changes |
| `KeyWindows.KeyWindowManager.EnforceMaxValidKeys` | packages/core/src/key-window-manager.ts:130-150 | Exactly the excess of the oldest expired keys is revoked |
| `KeyWindows.KeyWindowManager.CleanupExpired` | packages/core/src/key-window-manager.ts:81-103 | Position by position: an expired record without an end, or whose end plus grace is before now, gets status revoked and the moment of revocation, and its id is reported, in insertion order; every other record stays as it is and is not reported |
| `KeyWindows.ReportedAreCleaned` | packages/core/src/key-window-manager.ts:81-103 | A key is reported exactly if it is expired past its grace period |
| `KeyWindows.ReportedInOrder` | packages/core/src/key-window-manager.ts:81-103 | The report is in insertion order |
| `KeyWindows.KeyWindowManager.Select` | packages/core/src/key-window-manager.ts:110-121 | The selection of `selectKey` |
| `KeyWindows.CapIsEnforced` | packages/core/src/key-window-manager.ts:130-150 | Afterwards at most the cap is live, or the active and pending keys if those exceed it; only expired keys are revoked, no more than needed and the oldest, each changing only its status and moment of revocation; a cap of zero enforces nothing |
| `KeyWindows.WithdrawAllSpec` | packages/core/src/key-window-manager.ts:142-149 | Revoking distinct expired keys lowers the number of live ones by theirs and rewrites nothing else |
| `KeyWindows.JustExpiredKeySurvives` | packages/core/src/key-window-manager.ts:47-103 | The key just expired survives the cap if it is strictly newest among the expired and the cap is not filled, and cleanup revokes it only after overlap and grace |
| `EventStores.EventStore.Emit` | packages/core/src/event-store.ts:56-68 | The event is remembered and queued or buffered, with a timer armed |
| `EventStores.EventStore.ScheduleFlush` | packages/core/src/event-store.ts:155-156 | A timer is armed if the buffer is not empty |
| `EventStores.EventStore.OnTimer` | packages/core/src/event-store.ts:157-161 | The buffer is queued for writing |
| `EventStores.EventStore.Flush` | packages/core/src/event-store.ts:101-110 | The timer is stopped and a non-empty buffer queued |
| `EventStores.EventStore.Clear` | packages/core/src/event-store.ts:138-142 | Memory and buffer are emptied, the timer is left |
| `EventStores.EventStore.Destroy` | packages/core/src/event-store.ts:145-153 | Memory, buffer and timer are dropped |
| `EventStores.LoadWrittenBatch` | packages/core/src/event-store.ts:188-205 | What a batch writes loads as the batch |
| `EventStores.LoadConcat` | packages/core/src/event-store.ts:113-130 | Appending complete lines appends to what loads |
| `EventStores.EventsAreConserved` | packages/core/src/event-store.ts:56-205 | With successful writes and no `clear` or `destroy`, what the files load, then the queued batches, then the buffer, is what they held plus the emitted sequence, in order |
| `EventStores.EveryEventIsAccountedFor` | packages/core/src/event-store.ts:56-205 | In every run at all, each event emitted is on disk, queued or buffered just once, or it was lost to a failing write of its own batch or to a `clear` or `destroy` that found it buffered |
| `EventStores.FailedWriteLosesItsBatch` | packages/core/src/event-store.ts:188-205 | A failing write takes its own batch out of the sequence and leaves all other events in order |
| `EventStores.BufferHasTimer` | packages/core/src/event-store.ts:155-167 | In every run a non-empty buffer has an armed timer |
| `EventStores.MemoryIsASuffix` | packages/core/src/event-store.ts:57-60 | Memory holds the last events up to the limit; a limit of zero trims nothing |
| `Metrics.Histogram.constructor` | packages/observability/src/metrics.ts:167-180 | Bounds are sorted and all counts zero |
| `Metrics.Histogram.Observe` | packages/observability/src/metrics.ts:194-207 | Bucket i counts exactly the observations at most its bound |
| `Metrics.Histogram.BucketsAreCumulative` | packages/observability/src/metrics.ts:197-205 | Bucket counts are nondecreasing and at most the total |
| `Metrics.Summary.constructor` | packages/observability/src/metrics.ts:239-249 | Starts with no observations and with samples of zero |
| `Metrics.Summary.Observe` | packages/observability/src/metrics.ts:251-259 | Retained values are the latest observations: all of them up to 10000, and the last 1000 when one more comes |
| `Metrics.Summary.Flush` | packages/observability/src/metrics.ts:261-275 | The samples are the quantiles of the retained values |
| `Metrics.QuantileIsNearestRank` | packages/observability/src/metrics.ts:264-269 | A reported quantile q is a retained value with at least the fraction q of the values at most it and less than that fraction below it |
| `Metrics.NothingObserved` | packages/observability/src/metrics.ts:264-274 | Of no observations every quantile is zero |
| `Metrics.QuantilesAreMonotone` | packages/observability/src/metrics.ts:264-274 | Larger quantiles report larger or equal values |
| `Retrying.Execute` | packages/core/src/retry-handler.ts:40-65 | For any policy at most maxRetries + 1 calls; a retry follows only a retryable failure; `attempts` is the number of failed calls; between two calls it waits for exactly the jittered delay of that retry, and all waits together are within the backoff budget, hence at most maxRetries * maxDelay |
| `Retrying.BudgetIsCapped` | packages/core/src/retry-handler.ts:68-73 | n capped delays take at most n times the cap |
| `Retrying.JitterIsWithin` | packages/core/src/retry-handler.ts:68-73 | A wait is exactly the random share of the capped delay, never more than it, and none at all if that is not positive |
| `Retrying.DelaysMultiply` | packages/core/src/retry-handler.ts:68-73 | The first delay is the initial one and each next one is the last one times the multiplier, all capped, for a multiplier of at least one |
| `Schedules.PaceNeedsTimerRange` | packages/core/src/rotation-manager.ts:268-310 | Every rotation of pass n begins no earlier than n intervals after the start, for any durations and failures, if and only if the interval is one a timer can wait for (2147483647 ms) |
| `Schedules.StoppedStaysQuiet` | packages/core/src/rotation-manager.ts:228-235 | After `stop` no scheduled rotation begins until another `start`, even if a pass in flight still sets a timer |
| `Schedules.PassesVisitInTurn` | packages/core/src/rotation-manager.ts:266-298 | In every run the rotations begun after one `start` are those of the secrets in their order, one whole pass after the other: rotation k is that of secret k mod n in pass k div n |
| `Schedules.ActivePassGoesOn` | packages/core/src/rotation-manager.ts:266-309 | While the schedule is active a settled rotation is followed by that of the next secret, and the last one by a timer due one interval after the pass began, or in a millisecond if that is over or out of range; a firing timer begins its pass |
| `Schedules.OneLoopExactly` | packages/core/src/rotation-manager.ts:199-223 | In every run there is never more than one loop if and only if every `start` comes when nothing of an earlier schedule is left |
| `Schedules.StopBetweenPassesRests` | packages/core/src/rotation-manager.ts:228-235 | Where every `start` has come at rest, a `stop` between two passes clears the timer and leaves nothing behind, so the next `start` comes at rest too |
| `Schedules.EarlyRestartDoubles` | packages/core/src/rotation-manager.ts:206-222 | A `start` right after a `stop`, while a pass awaits a rotation, leaves two loops running |

## Left out

- RotationResults.SingleActiveKey: leaves out forced requests for a secret already rotating and the failing of a mark of an active key with a previous one, which `RotationOverlaps.SingleActiveIsExact` shows to be exactly the steps that can lead to two active keys.
- RotationResults.NoUsabilityGap: leaves out the failures that leave the previous key expired and the new one not active, each of which leads to no active key.
- RotationResults.FailureIsCompensated: leaves out the failures that cut compensation short, each of which leaves other records.
- RotationResults.StoreAndProviderAgree: leaves out two failures, each of which can lead to disagreement, and is for a provider with a pending stage; one whose writes are current at once serves the new material before activation.
- RotationWorkflows.RotationWorkflow.Execute: is one execution that no other rotation interrupts, for a key id that is not stored already; the clock moves between its calls, but not within `activate` or compensation; interleaving is in the machine.
- RotationManagers.RotationManager.Rotate: takes the answers of the rate limiter, the generator, the provider, the verifier and the store as parameters, is about unforced requests, and nothing interleaves during the call; forced and interleaved ones are runs of the machine.
- RotationWorkflows.RotationWorkflow.StoreSecretValue: lets a failing provider call use up a version id, which no other value depends on.
- KeyLifecycles.KeyLifecycleManager.Activate: is one execution that nobody interrupts, and takes an omitted overlap as zero, which the code treats alike; its calls interleave in the lifecycle machine.
- KeyLifecycles.KeyLifecycleManager.Expire: is one execution that nobody interrupts; its calls interleave in the lifecycle machine.
- KeyLifecycles.KeyLifecycleManager.Revoke: is one execution that nobody interrupts; its calls interleave in the lifecycle machine.
- KeyLifecycles.KeyLifecycleManager.MarkFailed: is one execution that nobody interrupts; its calls interleave in the lifecycle machine.
- RollbackManagers.RollbackManager.Rollback: is one execution that nobody interrupts; its calls interleave in the rotation and lifecycle machines.
- RollbackManagers.RollbackManager.ReactivateKey: is one execution that nobody interrupts; its calls interleave in the lifecycle machine.
- RotationWorkflows.RotationWorkflow.ReactivatePreviousKey: is one execution that nobody interrupts; its calls interleave in the machine.
- LifecycleRuns.TerminalStatesAreFinal: is about the lifecycle manager, the rollback manager and rotations; `KeyWindowManager.activate` checks no status and makes even a revoked key active, as its contract here says.
- KeyWindows.KeyWindowManager.Activate: is one execution that nobody interrupts; the window manager's calls are not in the machines.
- KeyWindows.KeyWindowManager.EnforceMaxValidKeys: is one execution that nobody interrupts.
- KeyWindows.KeyWindowManager.CleanupExpired: is one execution that nobody interrupts.
- RateLimiting.RateLimiter.constructor: leaves out a window of zero with a maximum that is not positive, whose refill rate is not a number or minus infinity.
- RateLimiting.AdmissionBound: is for finite rates; an infinite one admits any number.
- RotationLimits.AgreementIsExact: states the equivalence for a new key whose material the provider does not already serve; if the two materials are equal by chance an excluded failure may do no harm.
- FileSystemKeyStores.StoreIsLinearizable: takes path injectivity, fresh temporary paths, and the round trips of ISO dates, JSON and the cipher as assumptions on a codec; JSON's reordering of integer-like property names is not modelled.
- FileSystemKeyStores.SerializationRoundTrip: is for records whose metadata JSON can represent.
- Retrying.Execute: returns the waits as computed; timers may take longer.
- EventStores.EventsAreConserved: excludes failed writes, `clear` and `destroy`, each of which really loses events; `EventStores.EveryEventIsAccountedFor` says which.
- KeyWindows.JustExpiredKeySurvives: is for activating a pending key; the code would also activate any other.
- Metrics.QuantileIsNearestRank: is over real numbers and leaves out `NaN`, which a sort would not order.
- Listing the keys of all secrets, `snapshot`, and queries of the file store other than `list`: selections from the same records.
- The verifiers' internals: verification is a verdict or an error.
- The consumer registry, configuration merging, input validation, the provider registry and the in-memory emitter: small members.
- Event handlers and replay: callbacks over the list that is modelled.
- The cloud adapters, the sidecar server, the command line, logging and the Prometheus text format: foreign interfaces and formatting.
- Rounding of floating point numbers.
