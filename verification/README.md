# AstralPlane durable-state protocols in Dafny

AstralPlane keeps durable state right while many workers race, processes die
part-way and clocks disagree. Only version fences, locks and atomic renames stand
between these and a wrong state. This project models the library's protocols and
proves what they keep over every run.

`dafny verify dfyconfig.toml` checks the whole project (Dafny 4.11).

## How the protocols are modelled

- **Bundle store** (`BundleModel`, `BundleMoves`, `BundleStore`, `BundleTheorems`).
  A class over a file system of staging, revision and quarantine paths. A run may
  stop at any checkpoint: a fence or revocation check, a fault boundary, a torn file
  write or a failed flush. A fence check, a revocation check and a fault hook that
  stand at the same place are one checkpoint. A native move is atomic and never replaces, but reports any
  error code whether or not it happened. The store lock makes calls follow one
  another, so no other process changes a path in the middle of a call.
- **Outbox and audit delivery** (`Outbox`, `AuditDelivery`, `Fences`). Each SQL
  statement is one atomic guarded update. Which rows `SKIP LOCKED` leaves over is a
  free choice, and so is every clock a caller supplies.
- **Authority** (`AuthorityBindings`, `AuthorityEffects`, `ReceiptClaims`,
  `AuthorityRuns`, `AuthorityWitness`). Bindings, effects, claims, watermarks and the outbox as tables;
  an exception restores the state at the savepoint or at the start of the
  transaction. The unique keys and checks are those of the table definitions in
  `src/astralplane/database/migrations.py`. `AuthorityRuns.DriveAll` executes any calls
  through the repository.
- **Owner locks and store close** (`OwnerLocks`), **purging** (`Purge`) and **boot**
  (`Bootstrap`) are transition systems over threads: every guarded section, lock
  operation and transaction is one step, and threads interleave freely. The classes
  beside them hold the guarded sections themselves, and `DriveAll` executes any
  interleaving through them.
- **Reconciliation** (`Reconciliation`). One run is a method whose surroundings
  decide how every commit and hook ends, the death of the process included.
- **Audit retention** (`AuditRetention`). Appends and prunes of one chain, and the
  verifier of what is retained.
- **Joint restore** (`JointRestore`). The recursive walk over restored trees, compared
  with a definition by paths.

Hashes, MACs, canonical encodings, case folding and the text rules for storage keys
are parameters: nothing is assumed of them except where a member says so (`Lawful`:
what is signed verifies; `PrefixFree`: a cut-off manifest does not parse).

## Where the code and its promise differ

- **Boot.** A failing `initialize` publishes its failure and only afterwards takes the
  condition again for its clean-up section (`src/astralplane/database/bootstrap.py:208-221`).
  If `reset_failed` runs in between and another thread starts an attempt, the late
  clean-up marks that attempt failed while it is still running, and a second reset
  admits a second attempt at the same time. Three promises break: at most one attempt is
  in progress, READY is final, and every successful return is the same report.
  `DisciplinedBoot`, `ReadyIsFinal` and `SameReportForAll` prove them for every run whose
  effective resets find nobody unwinding. Every effective reset outside this condition can
  be continued to break each of them, by its caller and the unwinding thread alone:
  `UnsettledResetBreaksSingleFlight`, `UnsettledResetRevokesReady`,
  `UnsettledResetSplitsReports`. `UnsettledMomentExists` reaches such a reset with two
  threads. That RUNNING is left again needs no condition on resets (`RunningIsLeft`); an
  interrupt outside the `try` block is not modelled.
- **Repeating an accepted claim.** With the binding and the receipt evidence unchanged
  the repeat still raises once the effect has been denied or failed closed.
  `RepeatAnswers` and `UnchangedRepeatReturnsClaim` state exactly when it returns the
  stored claim; `RepeatCanBeRefused` is a run in which it does not.
- **One claim per lease sequence** holds per warden, lease and audience. Two audiences
  of the same binding are fenced apart, and both may claim the same sequence
  (`AudiencesAreFencedApart`; `TwoAudiencesShareASequence` is such a run).
- **Enqueue replay** compares the schedule too, which retry and reclaim rewrite.
  `ReplayDependsOnSchedule` states when a replay succeeds, `ReplayCanBeRefused` when it
  does not.
- **Staged bundles.** The staging path does not contain the scope and revision, so a
  publication under another revision with the same staging path discards a bundle that
  was valid for the first. `StagedBundleIsNeverLost` holds when keys that share a
  staging path share the revision path; `SharedStagingPathDiscards` shows that it fails
  for every pair of keys that do not.

## Model

| member | source | states |
|---|---|---|
| BundleModel.CompleteLoads | src/astralplane/immutable_bundle_store.py:3024-3167 | a directory with the finalized files and manifest loads under exactly the finalized digests, metadata and bytes |
| BundleModel.LoadsExactly | src/astralplane/immutable_bundle_store.py:3024-3167 | a directory loads exactly when it holds the contract files and the manifest and nothing else, each within its limit, with the wanted digests of the bytes read and a manifest for this revision |
| BundleModel.UnfinishedNeverLoads | src/astralplane/immutable_bundle_store.py:2001-2041 | of all contents a writer can leave behind, a file or the manifest cut off included, only the complete one validates |
| BundleStore.ImmutableBundleStore.LoadPath | src/astralplane/immutable_bundle_store.py:3024-3167 | the file-by-file reader accepts exactly the directories that hold the contract's files with the wanted digests and identity |
| BundleMoves.CommittedExactlyWhenCarriedOut | src/astralplane/immutable_bundle_store.py:1189-1247 | the move loop answers "committed" if and only if some reached attempt was really carried out, whatever codes were reported |
| BundleMoves.RaisedNamesItsAttempt | src/astralplane/immutable_bundle_store.py:1189-1257 | a move onto a free path that raises names the attempt that decided it: not let through, reported done without moving, or failed for good |
| BundleMoves.OccupiedSettlesAtOnce | src/astralplane/immutable_bundle_store.py:1352-1368 | onto an occupied path the first attempt decides; "idempotent" needs a collision code and an equivalent destination |
| BundleMoves.WindowsNeedsSevenAttempts | src/astralplane/immutable_bundle_store.py:1281-1317 | on Windows seven attempts settle every move and later ones would not matter |
| BundleStore.ImmutableBundleStore.DurableReplace | src/astralplane/immutable_bundle_store.py:1166-1257 | by looking only at the two paths, the rename concludes what really happened; the directory moves at most once, and on every other exit the source stays |
| BundleStore.ImmutableBundleStore.DurableReplaceWindows | src/astralplane/immutable_bundle_store.py:1260-1317 | the same in at most seven attempts, always with an answer |
| BundleStore.ImmutableBundleStore.RelocateExact | src/astralplane/immutable_bundle_store.py:1514-1763 | an entry moves to a free quarantine path exactly when the native move happens; a failed flush raises with the entry already moved; an occupied path is a collision |
| BundleStore.RelocationAnswers | src/astralplane/immutable_bundle_store.py:1514-1763 | it collides exactly with an occupied path, and the entry arrives exactly when some attempt is carried out, flushed or not |
| BundleStore.ReasonsAreReal | src/astralplane/immutable_bundle_store.py:1166-1257 | an error names a checkpoint that does stop or an attempt that did fail |
| BundleStore.ImmutableBundleStore.WriteStaging | src/astralplane/immutable_bundle_store.py:1999-2041 | the writer leaves exactly some stage of its progress, and all of the bundle when nothing stops it |
| BundleStore.ImmutableBundleStore.StageLocked | src/astralplane/immutable_bundle_store.py:1912-2058 | staging refuses exactly foreign entries and other valid bundles, keeps a matching directory, and deletes or replaces only what does not validate; a stop leaves exactly the contents of its checkpoint, or nothing between the deletion and the new directory |
| BundleStore.StageRefusals | src/astralplane/immutable_bundle_store.py:1936-1999 | staging is refused exactly for a foreign entry or another valid bundle, and for an invalid directory that must not be replaced |
| BundleStore.ImmutableBundleStore.PromoteValidated | src/astralplane/immutable_bundle_store.py:2060-2251 | promotion moves the staged directory to a free revision path, drops it only for an equal published bundle, and after a failed flush leaves it in quarantine or at the revision path |
| BundleStore.FailureTellsWhere | src/astralplane/immutable_bundle_store.py:2060-2251 | when promotion raises, the error tells where the staged bundle is: still staged, dropped for an equal one, published, or withdrawn to quarantine |
| BundleStore.ImmutableBundleStore.Publish | src/astralplane/immutable_bundle_store.py:2905-2987 | every state a publication can end in, a deleted invalid staging directory with nothing in its place included; every error has its reason; success exactly when the paths allow it; a complete earlier staging of the same bundle is reused; success only after every fence and flush passed |
| BundleStore.ImmutableBundleStore.Stage | src/astralplane/immutable_bundle_store.py:2271-2313 | staging succeeds exactly on a free revision path with a free or matching staging path, which it reuses, and never replaces what is staged; each error with its reason |
| BundleStore.ImmutableBundleStore.PromoteStaged | src/astralplane/immutable_bundle_store.py:2315-2413 | a receipt is promoted exactly when its entry is still the one staged, or the same bundle is already published |
| BundleStore.PromotionRefusals | src/astralplane/immutable_bundle_store.py:2315-2413 | promotion is allowed exactly when what stands at the two paths is the receipt's own staged bundle and the wanted published one, and which refusal is a collision |
| BundleStore.ImmutableBundleStore.Recover | src/astralplane/immutable_bundle_store.py:2567-2837 | each disposition is answered exactly for the entries that call for it: absent only for three free paths, foreign, collision, partial, final or promoted by the deciding entry, whose identity is observed; where that entry ends, and quarantined exactly when quarantine alone ends occupied; an error leaves one of three states |
| BundleStore.RecoveryIsDiagnosed | src/astralplane/immutable_bundle_store.py:2597-2837 | the same of the table that recovery follows, from every combination of entries |
| BundleStore.ImmutableBundleStore.InspectQuarantine | src/astralplane/immutable_bundle_store.py:2642-2707 | the same when only the quarantine path may be occupied |
| BundleStore.ImmutableBundleStore.QuarantineStaged | src/astralplane/immutable_bundle_store.py:2437-2532 | only the receipt's own valid entry is withdrawn, exactly when the native move happens; a failed flush raises with the entry moved, and a repeat then finds the work done and changes nothing |
| BundleStore.ImmutableBundleStore.QuarantineReceipt | src/astralplane/immutable_bundle_store.py:2839-2903 | the same for a published bundle |
| BundleTheorems.LeftoverLoadsWhenComplete | src/astralplane/immutable_bundle_store.py:1912-2110 | what a stopped writer leaves behind validates, and matches the expected bundle, exactly when it is complete |
| BundleTheorems.CrashThenRecover | src/astralplane/immutable_bundle_store.py:1912-2251 | a publication into empty paths that stops anywhere, then recovery: the revision path is absent or holds exactly the bundle, and success is answered exactly when the complete bundle stood at staging or revision |
| BundleTheorems.PublishThenRecover | src/astralplane/immutable_bundle_store.py:2905-2987 | the same on the store itself: after both calls the revision path is occupied, and success is answered, exactly when the complete bundle stood at staging or revision after the crash, whatever the native moves of the cleanup answered |
| BundleTheorems.RecoveryConverges | src/astralplane/immutable_bundle_store.py:2567-2837 | from every combination of entries a second recovery changes nothing and repeats the answer, promoted becoming final |
| BundleTheorems.RecoverTwice | src/astralplane/immutable_bundle_store.py:2534-2565 | the same on the store itself, whatever the native moves of either cleanup answered |
| BundleTheorems.RecoverySucceedsExactlyOnMatch | src/astralplane/immutable_bundle_store.py:2597-2837 | recovery reports a bundle exactly when the wanted one ends at the revision path |
| BundleTheorems.OccupiedStays | src/astralplane/immutable_bundle_store.py:2091-2110 | no run of stage, publish, promote and recover changes an occupied revision or quarantine path |
| BundleTheorems.OnlyValidBundlesArePublished | src/astralplane/immutable_bundle_store.py:2225-2251 | whatever enters a revision path during a run is valid for it |
| BundleTheorems.StagedBundleIsNeverLost | src/astralplane/immutable_bundle_store.py:1936-2000 | over whole runs a valid staged bundle is held by one of its key's paths, or an equal bundle is published |
| BundleTheorems.PerformAll | src/astralplane/immutable_bundle_store.py:2253-2837 | any sequence of stage, publish, promote and recover calls on the store, each stopped anywhere or not, keeps these three promises between any two moments |
| BundleTheorems.SharedStagingPathDiscards | src/astralplane/immutable_bundle_store.py:690-709 | keys that share a staging path but not a revision path do lose the first bundle |
| Fences.LeftOnce | src/astralplane/outbox.py:95-108 | in a table whose rows keep still or raise their version, each version of a row is left at most once |
| Fences.VersionCountsChanges | src/astralplane/authority/repository.py:161-172 | a version that rises by one per change is the first version plus the number of changes |
| Outbox.PostgresOutboxStore.Enqueue | src/astralplane/outbox.py:315-346 | inserts new work, replays equal work, refuses different work under the same key |
| Outbox.PostgresOutboxStore.Claim | src/astralplane/outbox.py:348-399 | leases exactly the picked rows, one attempt and one version up, or nothing at all |
| Outbox.PostgresOutboxStore.Lease | src/astralplane/outbox.py:61-93 | the row-by-row lease equals the one statement, and is rolled back when a row does not decode |
| Outbox.PostgresOutboxStore.Ack | src/astralplane/outbox.py:401-418 | settles only the live claim of this worker and version, as succeeded |
| Outbox.PostgresOutboxStore.RetryAt | src/astralplane/outbox.py:420-448 | the same, with a new schedule and error code |
| Outbox.PostgresOutboxStore.Bury | src/astralplane/outbox.py:450-476 | the same, for dead-lettering |
| Outbox.PostgresOutboxStore.ReclaimExpired | src/astralplane/outbox.py:478-520 | takes back exactly the picked expired leases |
| Outbox.PostgresOutboxStore.TakeBack | src/astralplane/outbox.py:151-176 | the row-by-row list equals the one statement, and is rolled back when a record is unreadable |
| Outbox.EnqueueAnswers | src/astralplane/outbox.py:315-346 | work is inserted, never tried, exactly when valid with identifier and key unknown; replayed exactly when stored as it is; each refusal with its cause |
| Outbox.ClaimAnswers | src/astralplane/outbox.py:61-93 | a well-formed claim leases every picked row and no other to its worker for one lease, and hands each out |
| Outbox.DueRowIsClaimed | src/astralplane/outbox.py:61-93 | any waiting row of a requested topic can be claimed as soon as it is due |
| Outbox.GrantsStayWithinLimit | src/astralplane/outbox.py:348-399 | a claim hands out no more entries than its limit |
| Outbox.SettlementAnswers | src/astralplane/outbox.py:95-139 | a settlement goes through exactly for the holder within its lease and changes that row alone: acknowledged rows succeed, buried ones are dead-lettered with the error, retried ones wait at the given time with the error |
| Outbox.ReclaimAnswers | src/astralplane/outbox.py:151-176 | every picked expired lease, and no other row, waits for retry at now with lease_expired, and is reported |
| Outbox.RowHasCause | src/astralplane/outbox.py:61-176 | in any run a row that changed was brought to its present state by one event: succeeded by an acknowledgement, dead-lettered by a burial with its error, waiting by a retry to its time or a reclaim, claimed by the claim that leased it |
| Outbox.StoredWorkIsIntact | src/astralplane/outbox.py:258-285 | in every reachable table a payload has its stored digest and a legal size |
| Outbox.ReachableInv | src/astralplane/outbox.py:61-176 | in every reachable table version = 2 * attempts, less one while claimed; lease and error columns fit the status; keys are unique |
| Outbox.IssuedOnce | src/astralplane/outbox.py:61-93 | a claim's (entry, version) is handed out once in a run |
| Outbox.ClosedOnce | src/astralplane/outbox.py:95-176 | a claim ends once: no second settlement, and none after a reclaim |
| Outbox.ClaimedWasIssued | src/astralplane/outbox.py:61-93 | whatever is claimed, and so can be settled, was handed out earlier with this version |
| Outbox.RowsKeep | src/astralplane/outbox.py:95-139 | a row never disappears, its work never changes, succeeded and dead-lettered rows never change at all |
| Outbox.FinishedOnce | src/astralplane/outbox.py:95-139 | at most one acknowledgement or burial of an entry succeeds in a run |
| Outbox.GrantsAreDue | src/astralplane/outbox.py:61-93 | every claim handed out is for waiting, due work of a requested topic, as its next attempt, with one lease from now |
| Outbox.LeaseDecides | src/astralplane/outbox.py:95-176 | at one reading of the clock a live claim can be settled or be reclaimed, exactly one of the two |
| Outbox.ReplayDependsOnSchedule | src/astralplane/outbox.py:339-346 | enqueueing accepted work again replays if and only if the row still has its original schedule |
| Outbox.ReplayCanBeRefused | src/astralplane/outbox.py:110-124 | a retry that changes the schedule makes the same enqueue conflict |
| Outbox.NeverDamaged | src/astralplane/outbox.py:486-511 | the malformed-lease and invalid-record errors cannot arise in a reachable table |
| AuditDelivery.DelayIsCappedBackoff | src/astralplane/audit_delivery.py:366-372 | the delay is exactly min(max, base * 2^min(attempt-1, 30)), and a product above the maximum is never formed |
| AuditDelivery.DelayNeverShrinks | src/astralplane/audit_delivery.py:366-372 | the delay is nondecreasing in the attempt |
| AuditDelivery.RetryTimeIsBounded | src/astralplane/audit_delivery.py:373-379 | a scheduled retry is the capped backoff after now and never past the last datetime |
| AuditDelivery.DeliveredAtMostOnce | src/astralplane/audit_delivery.py:283-314 | over any run at most one delivery of an entry is told delivered or dead-lettered |
| AuditDelivery.ClaimIsSpentOnce | src/astralplane/audit_delivery.py:301-314 | a delivery that is told of success is the only event that ended its claim |
| AuditDelivery.AuditOutboxDelivery.Claim | src/astralplane/audit_delivery.py:260-281 | leases a batch of valid audit claims, or none |
| AuditDelivery.AuditOutboxDelivery.Deliver | src/astralplane/audit_delivery.py:283-314 | makes exactly the settlement the sink's outcome calls for, and reports only an applied one: a published live claim is acknowledged and told delivered |
| AuditDelivery.AuditOutboxDelivery.SettleFailure | src/astralplane/audit_delivery.py:337-397 | dead-letters at the attempt limit and otherwise schedules the backoff |
| AuditDelivery.DeliveryConcludes | src/astralplane/audit_delivery.py:283-397 | a live claim that the sink took ends succeeded and is told delivered; one it did not take is dead-lettered at the limit and otherwise put off by the backoff; anything else is an error that changes nothing |
| AuditDelivery.ClaimErrors | src/astralplane/audit_delivery.py:400-424 | a claim is turned away exactly for a wrong topic, bad lease metadata, or a payload that is not canonical or not of its digest |
| AuthorityBindings.StepIsLifecycleMove | src/astralplane/authority/models.py:198-238 | validation and fences together allow only legal lifecycle moves |
| AuthorityBindings.OnlyActivationActivates | src/astralplane/authority/repository.py:874-927 | provisioning becomes active only by activation, which replaces all four pending identities |
| AuthorityBindings.LifecycleOverRun | src/astralplane/authority/repository.py:827-966 | over a run provisioning is never entered again, terminal states are final, issued identities never change |
| AuthorityBindings.RemoteChangesOnce | src/astralplane/authority/repository.py:174-188 | the remote identities change at most once, at activation, from the pending values |
| AuthorityBindings.VersionCountsTransitions | src/astralplane/authority/repository.py:161-188 | the version is the first version plus the number of transitions |
| AuthorityBindings.OneLiveBindingPerAgent | src/astralplane/database/migrations.py:398-403 | every reachable table has at most one live binding per owner, agent and population |
| AuthorityBindings.CreateReplays | src/astralplane/authority/repository.py:723-750 | creating a stored live binding again returns it, whichever row the conflict query reads |
| AuthorityBindings.CreateAnswers | src/astralplane/authority/repository.py:723-750 | a binding is inserted exactly when its identity, runtime generation and live slot are free; otherwise only the very same row is returned |
| AuthorityBindings.TransitionAnswers | src/astralplane/authority/repository.py:827-872 | a transition goes through exactly on a live row in the expected state and version that agrees in every other column, and each error has its cause |
| AuthorityBindings.ActivationAnswers | src/astralplane/authority/repository.py:874-927 | an activation goes through exactly on a provisioning row of the expected version; the placeholder checks never decide |
| AuthorityBindings.AbandonmentAnswers | src/astralplane/authority/repository.py:929-966 | a provisioning row is abandoned only by closing it with its placeholders |
| AuthorityBindings.PlaceholdersAllOrNone | src/astralplane/authority/models.py:198-238 | placeholder identities come all together and without a lease, or not at all |
| AuthorityBindings.OneReplacementPerVersion | src/astralplane/authority/repository.py:161-188 | of the calls that replace one version at most one goes through |
| AuthorityEffects.ReachableInv | src/astralplane/authority/effects.py:150-183 | receipt, error and result evidence fit the status in every reachable table, no receipt stands on two effects, and no nonce is used twice for one owner, binding and audience |
| AuthorityEffects.EvidenceByStatus | src/astralplane/authority/effects.py:150-183 | in every run the receipt, result and error an effect shows are those its status calls for |
| AuthorityEffects.TransitionAnswers | src/astralplane/authority/repository.py:1205-1251 | a transition goes through exactly along an edge from the expected status and version with the same intent and an unshared receipt; each error has its cause |
| AuthorityEffects.CreateAnswers | src/astralplane/authority/repository.py:1077-1103 | an effect is inserted exactly when operation, nonce and receipt are new; otherwise only one of the same intent is returned |
| AuthorityEffects.EffectHistory | src/astralplane/authority/repository.py:62-111 | an effect's history is a path of the transition table with rising rank: at most seven transitions, intent and creation time fixed, version counting them |
| AuthorityEffects.OneWinnerPerVersion | src/astralplane/authority/repository.py:313-323 | of the writers expecting one version at most one wins |
| AuthorityEffects.TableByRank | src/astralplane/authority/repository.py:62-111 | the transition table by rank: one step on or a refusal up to the claim, only an end or uncertainty after it |
| AuthorityEffects.ExecutionIsPastRefusal | src/astralplane/authority/repository.py:62-111 | once executing, an effect is never denied or failed closed in the rest of the run |
| AuthorityEffects.SevenTransitionsExist | src/astralplane/authority/repository.py:62-111 | the bound of seven is attained |
| ReceiptClaims.AuthorityRepository.ClaimReceipt | src/astralplane/authority/repository.py:1253-1327 | all-or-nothing over four tables: accepted exactly when every relation, key and fence holds, existing exactly for the matching repeat, and otherwise raised with the first reason |
| ReceiptClaims.AuthorityRepository.InsertClaim | src/astralplane/authority/repository.py:1274-1327 | the step-by-step savepoint equals one atomic change or none |
| ReceiptClaims.AuthorityRepository.AnswerRepeat | src/astralplane/authority/repository.py:1290-1312 | whichever clashing row is read back, only the equal claim with matching effect evidence is returned |
| ReceiptClaims.AuthorityRepository.AdvanceWatermark | src/astralplane/authority/repository.py:1433-1459 | the watermark moves exactly when it represents the claim and strictly advances |
| ReceiptClaims.AuthorityRepository.TransitionEffect | src/astralplane/authority/repository.py:1205-1251 | a fenced transition sets only status, evidence, time and version |
| ReceiptClaims.AuthorityRepository.CreateProtectedEffect | src/astralplane/authority/repository.py:1077-1103 | creates an effect, or returns the stored one with the same intent |
| ReceiptClaims.AuthorityRepository.CreateBinding | src/astralplane/authority/repository.py:723-750 | creates a binding, or returns the equal stored one |
| ReceiptClaims.AuthorityRepository.TransitionBinding | src/astralplane/authority/repository.py:827-872 | a fenced update of the lifecycle columns, rolled back when the stored row differs |
| ReceiptClaims.AuthorityRepository.ActivateBinding | src/astralplane/authority/repository.py:874-927 | a fenced update that also issues the remote identities |
| ReceiptClaims.AuthorityRepository.AbandonProvisioningBinding | src/astralplane/authority/repository.py:929-966 | closes a pending binding and nothing else |
| AuthorityRuns.AcceptedExactly | src/astralplane/authority/repository.py:1253-1411 | a claim is accepted exactly when its binding is active and grants it, its effect is the one concerned, nothing stored stands in its way, and effect, watermark and outbox continue |
| AuthorityRuns.AcceptedClaimIsAuthorized | src/astralplane/authority/repository.py:1330-1392 | at every accepted claim of a run the stored binding is active with the claim's identities, digests and epoch, grants the effect's agent and capability and outlasts the claim, and the effect's digest is its evidence |
| AuthorityRuns.AcceptedClaimChanges | src/astralplane/authority/repository.py:1274-1327 | it stores the claim, claims the effect, advances the watermark and queues the entry, one row each, and changes nothing else |
| AuthorityRuns.AcceptedClaimIsAnchored | src/astralplane/authority/claims.py:205-232 | its anchor is about the same audience, tenant, envelope and epoch and confirmed no earlier |
| AuthorityRuns.TerminalBindingClaimsNothing | src/astralplane/authority/repository.py:1363-1364 | once a binding is closed, revoked or expired, no later claim for it is accepted |
| AuthorityRuns.EffectsRefer | src/astralplane/database/migrations.py:533-534 | in every run each effect refers to a stored binding of its owner |
| AuthorityRuns.DriveAll | src/astralplane/authority/repository.py:723-1327 | any calls on the repository and its outbox are a run, so these results hold of them |
| AuthorityRuns.WatermarkIsLargestClaim | src/astralplane/authority/repository.py:354-367 | in every reachable state a key has a watermark exactly when it has claims, and it is the largest of their sequences |
| AuthorityRuns.WatermarkRises | src/astralplane/authority/repository.py:354-367 | a watermark never falls |
| AuthorityRuns.MarkVersionCountsAdvances | src/astralplane/authority/repository.py:354-367 | its version rises by exactly one per advance |
| AuthorityRuns.SequencesRise | src/astralplane/authority/repository.py:1369-1372 | later claims of one warden, lease and audience carry strictly larger sequences |
| AuthorityRuns.OneClaimPerLeaseSequence | src/astralplane/authority/repository.py:1369-1372 | per warden, lease and audience at most one claim is accepted for one value of the lease sequence |
| AuthorityRuns.OneClaimPerBindingSequence | src/astralplane/authority/repository.py:1369-1372 | per binding and audience at most one claim is accepted for one value of the lease sequence, even if that is set back |
| AuthorityRuns.BindingKept | src/astralplane/authority/repository.py:827-966 | through any run of the whole repository a binding keeps what its life cycle keeps |
| AuthorityRuns.AudiencesAreFencedApart | src/astralplane/authority/claims.py:244-246 | a claim for another audience is not held back |
| AuthorityWitness.TwoAudiencesShareASequence | src/astralplane/authority/claims.py:244-246 | for any hash functions that give the payload a well-formed digest, a run from the empty database that accepts two claims of one binding, lease sequence and resulting sequence, for two audiences |
| AuthorityRuns.ClaimStays | src/astralplane/authority/repository.py:1253-1327 | a stored claim stays, and its effect keeps its intent and never falls behind the claim |
| AuthorityRuns.ClaimsStayBacked | src/astralplane/authority/repository.py:1330-1411 | in every run each stored claim is backed by an effect of the same intent, at or past the claim, with the next sequence |
| AuthorityRuns.RepeatAnswers | src/astralplane/authority/repository.py:1414-1430 | a repeated accepted call never accepts again, changes nothing, and returns the claim exactly under the stated condition |
| AuthorityRuns.UnchangedRepeatReturnsClaim | src/astralplane/authority/repository.py:1414-1430 | with binding and evidence unchanged the repeat returns the claim unless the effect was denied or failed closed |
| AuthorityWitness.RepeatCanBeRefused | src/astralplane/authority/repository.py:1414-1430 | for any such hash functions, a run from the empty database after which the repeat of an accepted claim raises, binding and evidence unchanged |
| OwnerLocks.OwnerLockTable.Reference | src/astralplane/blob_store.py:260-266 | the owner's one lock with one more reference |
| OwnerLocks.OwnerLockTable.Drop | src/astralplane/blob_store.py:289-296 | one reference fewer, the entry removed with the last; anything else is the corruption error |
| OwnerLocks.StoreLifecycle.Close | src/astralplane/blob_store.py:1821-1832 | closes exactly when nothing is pending and no entry exists |
| OwnerLocks.TableIsSound | src/astralplane/blob_store.py:253-300 | for every interleaving: exact counts, one shared lock per owner, at most one holder, no corruption error |
| OwnerLocks.NoLockIsLeftBehind | src/astralplane/blob_store.py:268-296 | for every interleaving each held lock is possessed by some thread |
| OwnerLocks.RefusedOnlyWhilePossessed | src/astralplane/blob_store.py:253-287 | a try is turned away, and a blocking acquisition waits, exactly while another thread possesses the owner's lock |
| OwnerLocks.EveryoneIsRegistered | src/astralplane/blob_store.py:260-296 | for every interleaving a thread that uses an owner has its entry and lock, and a lock it possesses is held |
| OwnerLocks.PositionHasCause | src/astralplane/blob_store.py:253-300 | a thread comes to wait, hold, bind, return a token, release or back out only by the step that leads there |
| OwnerLocks.OnlyAwaitedActionsMove | src/astralplane/blob_store.py:253-300 | and always when that step is possible |
| OwnerLocks.CloseBeginsWhenQuiet | src/astralplane/blob_store.py:1821-1832 | close gets past its first read exactly when the store is open and nothing is pending |
| OwnerLocks.OwnerIsFolded | src/astralplane/blob_store.py:260-270 | a thread uses the table under the case-folded owner it asked for, so owners that fold alike exclude each other |
| OwnerLocks.ClosedIsFinal | src/astralplane/blob_store.py:1821-1832 | after a successful close no token exists and none is ever issued |
| OwnerLocks.CloseRefusesWhileInUse | src/astralplane/blob_store.py:1880-1945 | the two separate reads of close succeed together exactly when every acquisition and token is gone |
| OwnerLocks.DriveAll | src/astralplane/blob_store.py:253-300 | any interleaving executed through the lock table and the life cycle reaches exactly the states these results are about |
| Purge.PurgeStore.MarkPurged | src/astralplane/purge.py:1080-1102 | settles an open tombstone of this version and locator as purged |
| Purge.PurgeStore.MarkFailed | src/astralplane/purge.py:1104-1123 | settles an open tombstone of this version as failed |
| Purge.RowsKeep | src/astralplane/purge.py:290-319 | version equals attempts throughout, PURGED is final, no late failure reopens it |
| Purge.PurgedOnce | src/astralplane/purge.py:1472-1497 | at most one executor ever returns PURGED |
| Purge.PurgedOnlyAfterVerification | src/astralplane/purge.py:1627-1651 | and only by a call whose own deletion was reported done, which then itself found the bytes absent, without ending in between, and which settles the version it had loaded |
| Purge.AlreadyPurgedMeansAbsent | src/astralplane/purge.py:1394-1412 | ALREADY PURGED is returned only by a call whose own check finds the bytes absent at that moment, with the stored row purged |
| Purge.PurgedRowIsChecked | src/astralplane/purge.py:1394-1412 | bytes found back behind a purged row are an integrity failure, or a conflict after a lost fence |
| Purge.PositionHasCause | src/astralplane/purge.py:1370-1497 | every position and every result of a call has the cause it names, with the settled row in full |
| Purge.OnlyAwaitedActionsMove | src/astralplane/purge.py:1370-1497 | a call moves exactly when what it waits for happens; the row changes only by a settlement, the bytes only by a deletion or a writer |
| Purge.OnlyDueTombstonesAreDeleted | src/astralplane/purge.py:1370-1419 | every call at work loaded an open tombstone that was due by its own clock |
| Purge.SettlementReportsItsAttempt | src/astralplane/purge.py:1445-1497 | a settlement that goes through is reported with the attempt the row then shows |
| Purge.LoserLearnsTheRow | src/astralplane/purge.py:1668-1714 | a fenced-off executor reports what the row became, never that it purged |
| Purge.DriveAll | src/astralplane/purge.py:1370-1497 | any interleaving of executors that settles through the store is such a run, so all results about runs hold of it |
| Reconciliation.ReconciliationRunner.MarkStarted | src/astralplane/reconciliation_store.py:48-81 | starts the next attempt unless the hook is complete |
| Reconciliation.ReconciliationRunner.MarkCompleted | src/astralplane/reconciliation_store.py:82-96 | completes only a started marker |
| Reconciliation.ReconciliationRunner.MarkFailed | src/astralplane/reconciliation_store.py:97-111 | fails only a started marker |
| Reconciliation.ReconciliationRunner.RunHook | src/astralplane/reconciliation.py:231-306 | however a hook ends, earlier hooks are untouched, its attempt counts committed starts, and its answer and marker are those its start and body call for |
| Reconciliation.ReconciliationRunner.NextHook | src/astralplane/reconciliation.py:218-306 | one hook passes exactly when it can be read and is complete or completes |
| Reconciliation.ReconciliationRunner.RunBody | src/astralplane/reconciliation.py:243-296 | succeeds exactly with a durable completion; otherwise the failed marker, at the attempt just started and with the body's error, is durable before the hook is reported failed, and failure not persisted is answered exactly when it is not |
| Reconciliation.ReconciliationRunner.RunHooks | src/astralplane/reconciliation.py:218-306 | each incomplete hook gets one more start and one more body, complete ones nothing; stops exactly at the first hook that does not pass, with that hook's answer and marker, and touches none after it |
| Reconciliation.ReconciliationRunner.VerifyHooks | src/astralplane/reconciliation.py:308-337 | reads every marker back: succeeds exactly when every read does, so the error for a completion that is not durable cannot arise |
| Reconciliation.ReconciliationRunner.Run | src/astralplane/reconciliation.py:203-345 | a report is returned exactly when every hook passes, every marker is read back and the lock is released, and says what the markers say; otherwise the answer is that of the hook it stopped at; a complete plan runs no body again |
| Reconciliation.RunsPreserve | src/astralplane/reconciliation.py:203-345 | across any sequence of runs, cut off anywhere, attempts count committed starts and completed hooks never change or run again |
| Reconciliation.RunMany | src/astralplane/reconciliation.py:203-345 | any number of runs on the runner keep this, and a report comes only from a run after which every hook is complete |
| Reconciliation.PrefixSplits | src/astralplane/reconciliation.py:217-230 | completed hooks form a prefix, only the next may be started or failed, nothing after it has a marker |
| Bootstrap.SharedBootState.Enter | src/astralplane/database/bootstrap.py:141-168 | the entry section waits, returns, raises or starts by status and plan |
| Bootstrap.SharedBootState.Finally | src/astralplane/database/bootstrap.py:211-221 | the clean-up section turns any running status into a failure |
| Bootstrap.SharedBootState.ResetFailed | src/astralplane/database/bootstrap.py:223-234 | resets a failed state only |
| Bootstrap.DisciplinedBoot | src/astralplane/database/bootstrap.py:135-234 | with settled resets: at most one attempt, announced as running, and every return is the shared report for the caller's plan |
| Bootstrap.ReadyIsFinal | src/astralplane/database/bootstrap.py:201-207 | with settled resets READY and its report are final |
| Bootstrap.SameReportForAll | src/astralplane/database/bootstrap.py:152-161 | with settled resets all successful returns are the same report |
| Bootstrap.RunningIsLeft | src/astralplane/database/bootstrap.py:170-221 | in every run, with any resets, RUNNING has a thread behind it, and every way its attempt can end leaves RUNNING |
| Bootstrap.WaiterSharesTheOutcome | src/astralplane/database/bootstrap.py:141-163 | a waiter gets the report of the attempt it waited for, or an error when it failed; another plan errs |
| Bootstrap.StateHasCause | src/astralplane/database/bootstrap.py:165-234 | in every run, with any resets, the shared state was made by one event: READY by the attempt whose report it shows, FAILED by the failure it names or an interrupted attempt's clean-up, RUNNING by the entry of its plan |
| Bootstrap.EndsAreAnnounced | src/astralplane/database/bootstrap.py:201-234 | the end of an attempt always reaches the shared state, and an effective reset clears it |
| Bootstrap.PositionHasCause | src/astralplane/database/bootstrap.py:135-221 | a call attempts only from NEW, returns only its own report or the shared one for its plan, and raises only for a failure, another plan or its own |
| Bootstrap.OnlyAwaitedActionsMove | src/astralplane/database/bootstrap.py:135-221 | a call moves exactly when what it waits for happens |
| Bootstrap.UnsettledResetBreaksSingleFlight | src/astralplane/database/bootstrap.py:208-234 | every effective reset while a failed attempt unwinds can lead to two attempts at once, of its caller and the unwinding thread |
| Bootstrap.UnsettledResetRevokesReady | src/astralplane/database/bootstrap.py:208-234 | and can lead to READY being taken back by a later failure |
| Bootstrap.UnsettledResetSplitsReports | src/astralplane/database/bootstrap.py:208-234 | and can lead to two callers returning different reports |
| Bootstrap.UnsettledMomentExists | src/astralplane/database/bootstrap.py:208-210 | such a reset is reachable with two threads |
| Bootstrap.DriveAll | src/astralplane/database/bootstrap.py:135-234 | any interleaving of callers executed through the shared state reaches exactly the states these results are about |
| AuditRetention.AuditRetentionRepository.AppendRecord | src/astralplane/repositories/audit.py:130-232 | appends the linked, authenticated next record, or returns the equal stored one |
| AuditRetention.AuditRetentionRepository.PrunePrefix | src/astralplane/audit_retention.py:101-225 | stores an anchor and drops the prefix, answers a repeat, or changes nothing |
| AuditRetention.AuditRetentionRepository.VerifyRecords | src/astralplane/repositories/audit.py:430-473 | valid exactly when no record is at fault; otherwise the first fault with the head before it, or the exception when that record's key cannot be used |
| AuditRetention.AuditRetentionRepository.VerifyRetainedChain | src/astralplane/audit_retention.py:227-267 | in every reachable state the verdict is valid with the true head, so no anchor is missing, invalid or mismatched; in any state valid exactly when the chain verifies, and otherwise the fault named is the first there is |
| AuditRetention.AuditRetentionRepository.CheckRoot | src/astralplane/audit_retention.py:240-262 | names a missing, an invalid or a mismatched anchor of the first record exactly when it is that |
| AuditRetention.AppendAnswers | src/astralplane/repositories/audit.py:130-232 | a new event becomes the next record, linked to the last; a stored event is answered with its record; another event of its identifier is refused |
| AuditRetention.FirstAppendAnswers | src/astralplane/repositories/audit.py:130-232 | the first event becomes record 1 behind the genesis digest |
| AuditRetention.CutAnswers | src/astralplane/audit_retention.py:101-225 | a chain is cut exactly at a boundary inside it whose anchor can be named, signed and stored; the anchor attests the boundary, exactly the records below it go, and their number is reported |
| AuditRetention.NoCutAnswers | src/astralplane/audit_retention.py:101-160 | any other boundary changes nothing; the chain's own first record answers with its anchor exactly for the same policy |
| AuditRetention.PruneRepeats | src/astralplane/audit_retention.py:120-160 | repeating a prune returns the same anchor with nothing left to delete |
| AuditRetention.FaultNames | src/astralplane/repositories/audit.py:430-473 | a record is without fault exactly when placed, linked and authenticated, and the fault named is the first that fails |
| AuditRetention.VerifiedIsSound | src/astralplane/audit_retention.py:227-267 | what verifies is the whole retained chain, without a gap, authenticated and linked, behind genesis or a verifying anchor |
| AuditRetention.PruneKeeps | src/astralplane/audit_retention.py:120-225 | a prune leaves a contiguous chain rooted at its anchor; neither the anchor conflict nor a broken boundary can arise |
| AuditRetention.ReachableInv | src/astralplane/audit_retention.py:101-225 | in every run of appends and prunes the retained records are contiguous, linked, rooted at genesis or an anchor, and no anchor lies beyond the first record |
| AuditRetention.AlwaysSpans | src/astralplane/audit_retention.py:101-225 | from the first append on the chain is never empty: at every later moment it runs from a rooted first record to a last one |
| JointRestore.WalkAcceptsClean | src/astralplane/joint_restore.py:299-349 | the walk goes through exactly when every node at every path is acceptable |
| JointRestore.WalkReportsFiles | src/astralplane/joint_restore.py:317-343 | everything reported is a file of the tree outside the control directory |
| JointRestore.FilesAreReported | src/astralplane/joint_restore.py:317-343 | every such file is reported |
| JointRestore.KeysAreUnique | src/astralplane/joint_restore.py:324-325 | a storage key determines its path, so indexing by key loses nothing |
| JointRestore.ControlHoldsLocks | src/astralplane/joint_restore.py:244-262 | the control directory is accepted exactly when it is a directory of files with lock names |
| JointRestore.WalkRoot | src/astralplane/joint_restore.py:299-349 | the appending walk equals the recursive definition |
| JointRestore.ScanRoot | src/astralplane/joint_restore.py:352-389 | a root is accepted exactly when its files are the expected entries, with their own count and total |
| JointRestore.BlobEvidence | src/astralplane/joint_restore.py:392-416 | all roots match and are distinct, and the totals are the inventory's |
| JointRestore.TotalsAreTheInventorys | src/astralplane/joint_restore.py:404-412 | added up root by root, every declared entry counts exactly once |
| JointRestore.NormalizedEntries | src/astralplane/joint_restore.py:164-188 | accepts exactly the inventories with known roots and no key repeated after case folding, and sorts them |
| JointRestore.OrderDoesNotMatter | src/astralplane/joint_restore.py:188-209 | acceptance, the normalized inventory and so its digest do not depend on the order of declaration |
| JointRestore.QualifyInventory | src/astralplane/joint_restore.py:509-516 | for every declaration and all roots: accepted exactly when each root is a clean tree holding exactly its declared files, with the declaration's own count and bytes |
| JointRestore.QualifyOwnFiles | src/astralplane/joint_restore.py:392-416 | clean roots always qualify against the inventory of their own files, in any order |

## Left out

- Real file-system, descriptor, Win32 and fsync calls, and hostile changes of paths between two checks: the mismatch handlers for these are not modelled.
- The deletion of a staging directory is one step; a crash in the middle of it is not modelled, and neither are short writes that are continued.
- PostgreSQL, pools, SQL text and 64-bit column overflow; a transaction with an unknown commit outcome is modelled for reconciliation only.
- The order in which a claim or reclaim returns its rows: the replies are sets.
- BundleStore.ImmutableBundleStore.RelocateExact: the relocation loop for foreign entries is modelled by the same loop as the durable rename, whose decisions it repeats.
- JointRestore.WalkRoot: which of several refusals is reported first is not modelled, only that there is one.
- The text rules for storage keys, stage markers and lock names, and reading of the endpoint fence, in the joint restore.
- OwnerLocks.TableIsSound: a thread killed while waiting for a lock, and two concurrent releases of one token, are not modelled.
- Bootstrap.RunningIsLeft: an interrupt that arrives after RUNNING is set and before the `try` block is entered (`src/astralplane/database/bootstrap.py:165-171`), or inside the clean-up section, is not modelled; the first leaves RUNNING for good.
- Purge: legacy exact-key tombstones, their manual review and operator resolution, scheduling, and materialization leases.
- Authority lifecycle operations and recovery listings: fenced rows like effects, they would only add easy members.
- The sanitizing of audit payloads and the JSON encodings; the reading side of the blob store.
- `api.py`, `async_runtime.py`, `compatibility.py`, `endpoint_readiness.py`, `recovery.py`, migrations and the product repositories: composition, inspection or schema text.
