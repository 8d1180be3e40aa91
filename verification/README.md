# Workspace control, modelled and proved in Dafny

A model of the control plane's stateful core, and proofs about it: the offline
storage-shrink protocol, staged workspace deletion, and the exact algorithms and
small concurrent protocols around them.

**Storage shrink.** The saved operation, the workspace row and the cluster (claims,
volumes with contents, Pods, a StatefulSet, the Longhorn backend) form one state.
Every database transaction and every Kubernetes API call is one atomic action
(`ShrinkProtocol`), so a crash between two of them is a run that stops there.
`ShrinkInvariant` to `ShrinkRuns` prove an inductive invariant over every
interleaving of handler steps, Kubernetes progress, user writes, other requests and
crashes, and what it means for whole runs. `ShrinkWorld` to `ShrinkHandler` are the
handler and its coordinator as imperative code: each call is an action of the
protocol, anybody else may act any number of times between two calls, any call may
fail, a save may fail after it was committed, and the trace of every method is a run
of the protocol. So the theorems about runs are theorems about the code.
`ShrinkExample` is one whole run, written out: a bound, written volume is measured,
copied, verified, switched and its source reclaimed.

**Elsewhere.** `WorkspaceDeletion` (staged deletion in a shared cluster), `Quantity`
(exact Kubernetes quantities), `Egress` (which addresses the policy admits),
`Cascade`, `Selection` and `Materialization` (injections from three scopes to
Secrets and ConfigMaps), `Checkpoint` (readiness deadlines), `PolicyPatch`
(optimistic concurrency), `WorkerSlots` (wake-ups and admission), `EventStream`
(delivery) and `Metrics` (guard-counted counters).

What is taken for granted of the surroundings: the workspace lease lets one handler
run at a time; only the workspace's own Pods write user data; the requests that could
change the row are refused while an operation is active; nobody else creates or
deletes the claims of a migration; UIDs, volume names and handles are never reused,
and no two volumes share a handle; a copy helper writes only its destination, and a
verification helper succeeds only on equal contents; the event log only grows, in the
order of its ids. Collecting a claim that its StatefulSet still owns, outside a
migration, ends that claim's data as its owner asked.

A call of the shrink handler is *undisturbed* (`World.quiet`) when nobody else acts
during it and every request it makes is answered; the objects that are not modelled
are then in order, and a workspace that is reconciled is found ready. Safety is proved
for all calls. Of undisturbed ones it is also proved that they park the job or fail only
for a reason to be seen in the state they leave (`ShrinkReasons`), so that a handler that
merely waits does not meet its contract.

Where code and documentation differ, the code is followed. `docs/storage-shrink.md`
line 135 says that a failed reclamation returns to `completed`. That is so, except
when the sources are already gone and only the last save is lost: the record in memory
then says `reclaimed`, and the error arm saves `rolling_back`. `HandleStorageShrink`
proves that this is the only way, `LostReclaimSave` that it can happen from every such
state, `LostSaveStrandsTheOperation` that such a state is reached, and
`StuckRollbackNeverEnds` that while a StatefulSet exists a rollback with a source missing
never ends. Nor does consent to reclaim always lead to reclamation: when the save of
`reclaiming` is lost, the error arm saves `completed` and the sources wait for a
confirmation (`LostRecoverySave`, `ConsentMayBePutOff`). `RecoveryIsReal` proves that
an error is then on record, and that without consent the operation never goes to
`reclaiming` by itself. A checkpoint deadline is exact only when it is a representable
time (`DeadlineIsExactIff`, with `SaturatedDeadline` as the input where it is not).

## Model

| member | source | states |
|---|---|---|
| `ShrinkRuns.RunsKeepInv` | src/jobs/storage_shrink.rs:14-438 | the invariant tying record, row, cluster and user data holds in every state of every run, so wherever a crash stops it |
| `ShrinkRuns.UserDataIsNeverLost` | src/jobs/storage_shrink.rs:158-329 | in every state of every run a bound claim exists, cannot be deleted or collected, and holds everything the workspace wrote; so does every source from stopping until the switch |
| `ShrinkRuns.SwitchMovesToEqualVolumes` | src/jobs/storage_shrink.rs:299-329 | the binding moves only offline, with no helper left and every targeted volume verified equal to the source in use |
| `ShrinkRuns.EvidenceIsRecorded` | src/jobs/storage_shrink.rs:181-297 | from Copying on usage is below target * 2^30 without overflow and a destination is recorded; from Switching on copy and verify both reported that usage |
| `ShrinkRuns.SwitchIsNeverUndone` | src/jobs/storage_shrink.rs:372-408 | after a committed switch the bindings never move until the next operation |
| `ShrinkRuns.RollbackMeansNoSwitch` | src/jobs/storage_shrink.rs:397-406 | the Rollback update is saved only if no switch was ever committed, and changes no claim in use |
| `ShrinkRuns.RollingBackOnlyFails` | src/jobs/storage_shrink.rs:372-408 | an operation rolling back stays so until it has failed |
| `ShrinkRuns.SourcesAreReclaimedSafely` | src/kubernetes/client_storage_shrink.rs:179-252 | a source is marked or deleted only in Reclaiming, bound to a different verified replacement holding the user's data, with every recorded identity matching |
| `ShrinkRuns.ReclaimedMeansGone` | src/jobs/storage_shrink.rs:410-438 | Reclaimed is saved only once claim, volume and backend of every targeted source are gone |
| `ShrinkRuns.StuckRollbackNeverEnds` | src/jobs/storage_shrink.rs:372-408 | with a source missing beside a StatefulSet, an operation rolling back is still rolling back in every later state of every run |
| `ShrinkConsent.Origin` | src/storage/workspace_storage_shrink.rs:24-60 | every operation of every run goes back to the last request before it, which made something smaller of a workspace at rest; targets, consent and whether to start again are the request's for good |
| `ShrinkConsent.SourcesGoOnlyWithConsent` | src/jobs/storage_shrink.rs:354-358 | a source is marked or deleted only if the request that started the operation consented or it was confirmed since, only for a role the request named, and only with a workspace that ran ready again |
| `ShrinkConsent.RecoveryIsReal` | src/jobs/storage_shrink.rs:331-370 | Resuming leads to Reclaiming only if the request consented; despite consent to Completed only with an error on record; either only once a workspace that ran is ready |
| `ShrinkConsent.RecordsAreTrue` | src/jobs/storage_shrink.rs:56-91 | in every state of every run what rolls back or failed has an error, and what is completed or reclaiming can be confirmed |
| `ShrinkConsent.RowSizesFollowVolumes` | src/storage/workspace_storage_shrink.rs:592-642 | after a switch or a rollback the row gives the sizes of the volumes it is bound to; after a switch the requested ones, below the original ones |
| `ShrinkRuns.NewWorkspaceIsInit` | src/storage/workspace_storage_shrink.rs:441-494 | a workspace that was never started is an initial state, so the theorems about runs cover it |
| `ShrinkExample.StartIsInit` | src/storage/workspace_storage_shrink.rs:441-494 | so is a stopped workspace with a bound home volume that holds what was written to it |
| `ShrinkExample.AShrinkRunsToItsEnd` | src/jobs/storage_shrink.rs:118-438 | from there a run leads through every phase to Reclaiming with the source gone and the replacement bound, holding the same data |
| `ShrinkExample.LostSaveStrandsTheOperation` | src/jobs/storage_shrink.rs:56-91 | the input on which a failed reclamation does not return to Completed: a reached state from which every run stays rolling back |
| `ShrinkExample.ConsentMayBePutOff` | src/jobs/storage_shrink.rs:331-370 | the input on which consent does not lead to Reclaiming: a reached state that is Completed and waits for a confirmation |
| `ShrinkSaves.SaveKeepsInv` | src/storage/workspace_storage_shrink.rs:496-645 | every save the handler may make, with its workspace update, keeps the invariant |
| `ShrinkSaves.EnqueueKeeps` | src/storage/workspace_storage_shrink.rs:441-494 | a new operation starts from the invariant |
| `ShrinkSaves.ConfirmKeeps` | src/storage/workspace_storage_shrink.rs:236-294 | confirming a completed operation keeps the invariant |
| `ShrinkSaves.RetryKeeps` | src/storage/workspace_storage_shrink.rs:296-371 | a retry is accepted only for a committed switch, and keeps the invariant |
| `ShrinkSafety.EnvKeeps` | src/kubernetes/client_storage_shrink.rs:842-957 | nothing others do falsifies the invariant or a record the handler has in memory |
| `ShrinkSafety.HandlerKeeps` | src/kubernetes/client_storage_shrink.rs:756-1263 | nor does any cluster change the handler makes |
| `ShrinkRely.EnvRely` | src/kubernetes/client_storage_shrink.rs:842-957 | what stays true between two calls of the handler, however many steps others take |
| `ShrinkReclaim.Decide` | src/kubernetes/client_storage_shrink.rs:179-323 | one reclamation call is done iff nothing is left; every change is to the recorded objects, and the claim goes only after policy Delete was seen |
| `ShrinkReclaim.CallProgresses` | src/kubernetes/client_storage_shrink.rs:179-323 | a call on the recorded objects never refuses, and either changes something for good or Kubernetes has something to finish |
| `ShrinkReclaim.ReclaimConverges` | src/kubernetes/client_storage_shrink.rs:179-323 | for a source nothing mounts: repeated calls, with Kubernetes finishing deletions in any order, end in done |
| `ShrinkReclaim.ReclaimUntilDone` | src/kubernetes/client_storage_shrink.rs:179-323 | likewise as a loop: it ends, with nothing left, in no more calls than there was work |
| `ShrinkWorld.World.Commit` | src/storage/workspace_storage_shrink.rs:496-537 | a save commits record and row together or not at all, and evidence gathered for it survives what others do meanwhile; undisturbed it commits exactly that |
| `ShrinkWorld.EvidenceStable` | src/jobs/storage_shrink.rs:118-438 | evidence for the next phase cannot be lost while others act |
| `ShrinkCoordinator.ReadClaim` | src/kubernetes/client_storage_shrink.rs:608-659 | success means the recorded claim is there with its UID, owner and sizes |
| `ShrinkCoordinator.RetainSources` | src/kubernetes/client_storage_shrink.rs:756-840 | true means neither deletion nor garbage collection can reach a source; false only while Retain was just asked for or is unobserved; undisturbed it fails only over a source that is wrong |
| `ShrinkCoordinator.StopWorkload` | src/kubernetes/client_storage_shrink.rs:842-901 | true means no workspace Pod runs or can start, no foreign Pod mounts a migration claim, and beside a StatefulSet every source is still there; false only for a reason it names; undisturbed it fails only if what it finds cannot be stopped |
| `ShrinkCoordinator.ClaimsDetached` | src/kubernetes/client_storage_shrink.rs:903-957 | true means no workspace Pod exists and only this migration's helpers mount its claims |
| `ShrinkHelpers.VolumeIdentity` | src/kubernetes/client_storage_shrink.rs:124-177 | the identity is that of the volume behind the recorded claim |
| `ShrinkHelpers.CreateShrinkDestination` | src/kubernetes/client_storage_shrink.rs:959-1017 | the replacement recorded is held for this operation alone, at the target size; undisturbed it fails only if the source is unidentified or the name is taken by something else |
| `ShrinkHelpers.RemoveHelpers` | src/kubernetes/client_storage_shrink.rs:1187-1263 | true means no helper Pod is left; undisturbed, false means helpers are leaving and an error that a recorded one was replaced |
| `ShrinkStages.BindingFromClaim` | src/kubernetes/client_storage_shrink.rs:1333-1361 | a binding is made iff the capacity is an exact positive number of GiB in range, and it is that number |
| `ShrinkStages.DiscoverSources` | src/kubernetes/client_storage_shrink.rs:661-754 | success means every targeted role has an identified source larger than its target; failure too leaves a true record, and undisturbed has a source that cannot be used |
| `ShrinkStages.ShrinkPod` | src/kubernetes/client_storage_shrink.rs:1019-1106 | a reported usage equal to the measured one means the copy is over, or that both volumes hold the same data; undisturbed, no result means the helper is at work |
| `ShrinkStages.HelperResult` | src/kubernetes/client_storage_shrink.rs:1108-1154 | a result is taken only from the recorded, unchanged Pod |
| `ShrinkReclaimer.DeleteShrinkClaim` | src/kubernetes/client_storage_shrink.rs:179-252 | at most one change a call, under version preconditions; true means claim, volume and backend are gone, false that there is less left than before or Kubernetes has something to finish; undisturbed, exactly the change and the answer decided on what was there |
| `ShrinkReclaimer.ReclaimSources` | src/kubernetes/client_storage_shrink.rs:351-396 | true means nothing is left of any targeted source; undisturbed, false means a source got on and an error that one cannot be reclaimed |
| `ShrinkReclaimLoop.CallIsCalled` | src/kubernetes/client_storage_shrink.rs:179-252 | an undisturbed call on the recorded, unmounted objects does what the model of one call says |
| `ShrinkReclaimLoop.ReclaimUntilGone` | src/kubernetes/client_storage_shrink.rs:179-323 | calling again, with Kubernetes going on in between, ends within as many calls as there was to do, and undisturbed with the source gone |
| `ShrinkMoves.RecoverSave` | src/jobs/storage_shrink.rs:56-91 | whatever became of a save reported as failed, the error arm's own save is allowed |
| `ShrinkMoves.MoveToVerifying` | src/jobs/storage_shrink.rs:283-296 | finished copies are evidence enough for Verifying |
| `ShrinkMoves.RoleVerified` | src/jobs/storage_shrink.rs:269-282 | a verified role keeps the record true |
| `ShrinkMoves.MoveToResuming` | src/jobs/storage_shrink.rs:321-328 | offline and without helpers, the switch may be saved |
| `ShrinkHandler.RunShrinkPod` | src/jobs/storage_shrink.rs:465-486 | saving helper UIDs takes nothing from what a helper has shown |
| `ShrinkHandler.AdvanceQueued` | src/jobs/storage_shrink.rs:118-156 | leads to Queued or Stopping, recoverable on failure; undisturbed it parks only while the preflight helper works or the StatefulSet is unobserved, and fails only over a source or that helper |
| `ShrinkHandler.AdvanceStopping` | src/jobs/storage_shrink.rs:158-179 | leads to Stopping or Measuring, and parks in Stopping only while something keeps the workload from being offline; undisturbed it fails only if that cannot be stopped |
| `ShrinkHandler.AdvanceMeasuring` | src/jobs/storage_shrink.rs:181-242 | leads to Measuring or Copying; undisturbed it parks only while a measurement runs, and fails only if one went wrong, the target is too small or no replacement can be made |
| `ShrinkHandler.AdvanceCopying` | src/jobs/storage_shrink.rs:244-297 | leads to Copying or Verifying; undisturbed it parks only while a copy runs, and fails only if one went wrong or the usage has changed |
| `ShrinkHandler.AdvanceVerifying` | src/jobs/storage_shrink.rs:244-297 | leads to Verifying or Switching; undisturbed it parks only while a verification runs, and fails only if one went wrong, the usage has changed or the replacement is unidentified |
| `ShrinkHandler.AdvanceSwitching` | src/jobs/storage_shrink.rs:299-329 | leads to Switching or Resuming; undisturbed it parks only while helpers leave or the workload stops |
| `ShrinkHandler.AdvanceResuming` | src/jobs/storage_shrink.rs:331-370 | leads to Resuming, and to Reclaiming if the request consented and Completed otherwise; undisturbed it stays only having told the workspace to start or seen it come back, and never fails |
| `ShrinkHandler.AdvanceRollingBack` | src/jobs/storage_shrink.rs:372-408 | leads to RollingBack or Failed, and saves nothing while a StatefulSet remains and a source is missing; undisturbed it parks only while helpers leave or the workload stops |
| `ShrinkHandler.AdvanceReclaiming` | src/jobs/storage_shrink.rs:410-438 | a failure leaves Reclaiming in memory, or Reclaimed with every source gone; undisturbed it parks only if a source got on, and fails only if one cannot be reclaimed or the workspace is not ready |
| `ShrinkHandler.FinishPreflightFailure` | src/jobs/storage_shrink.rs:440-463 | leads to Queued or Failed, never touching the workspace row |
| `ShrinkHandler.HandleStorageShrink` | src/jobs/storage_shrink.rs:14-92 | the phases one call can leave saved, whatever fails; when a failed reclamation may end rolling back; undisturbed, the step fails after a day and otherwise only for a reason, parks only for a reason, and the error arm's record is saved |
| `ShrinkHandler.LostReclaimSave` | src/jobs/storage_shrink.rs:56-91 | losing the one save of Reclaimed does lead to RollingBack with a source missing |
| `ShrinkHandler.LostRecoverySave` | src/jobs/storage_shrink.rs:56-91 | losing the save of Reclaiming lets every recovered operation with consent end Completed, with an error and open to confirmation |
| `ShrinkHandler.TerminalFailure` | src/jobs/storage_shrink.rs:488-549 | exhausted retries: reclamation ends Completed, preflight stays Queued, everything else rolls back; undisturbed the error is on record |
| `WorkspaceDeletion.Cluster.DeleteObject` | src/kubernetes/client_delete.rs:359-386 | every deletion ever asked for was of an owned object with a UID, at its turn; an error takes a failed request, a fault in what is looked for, or an object gone meanwhile |
| `WorkspaceDeletion.Cluster.DeleteIfPresent` | src/kubernetes/client_delete.rs:327-341 | false iff the object is absent; true means it is going or there is less to do |
| `WorkspaceDeletion.Cluster.DeleteAll` | src/kubernetes/client_delete.rs:343-357 | likewise for what the mapping labels select |
| `WorkspaceDeletion.Cluster.DeleteFilters` | src/kubernetes/client_delete.rs:161-207 | likewise for the gateway's filters |
| `WorkspaceDeletion.Cluster.PodsPresent` | src/kubernetes/client_delete.rs:209-241 | false means no Pod of the workspace, and none mounting its default claims |
| `WorkspaceDeletion.Cluster.DeleteRemaining` | src/kubernetes/client_delete.rs:243-310 | claims only after everything else; Gone means nothing looked for is left |
| `WorkspaceDeletion.Cluster.DeleteResources` | src/kubernetes/client_delete.rs:84-159 | each stage starts only when the earlier ones are empty |
| `WorkspaceDeletion.Cluster.DeleteOrConfirm` | src/kubernetes/client_delete.rs:24-58 | Gone only when nothing looked for remains, and always then; any other answer means progress, pending deletions or blocking Pods; an error takes a failed request, a foreign or unidentified object, a foreign namespace, or an object gone meanwhile |
| `WorkspaceDeletion.DeletionConverges` | src/kubernetes/client_delete.rs:24-58 | calls that do not answer Gone cannot outnumber the work there was to begin with |
| `WorkspaceDeletion.Cluster.CallAndSettle` | src/kubernetes/client_delete.rs:24-58 | a call and one step of Kubernetes after it is such a round |
| `WorkspaceDeletion.Cluster.DeleteUntilGone` | src/kubernetes/client_delete.rs:24-58 | calling again until Gone ends, with nothing looked for left; with no failed request and no fault to begin with it always ends in Gone |
| `Quantity.QuantityRatio` | src/kubernetes/client_home_volume.rs:73-123 | computes the checked 128-bit ratio of the text's parts |
| `Quantity.TextSplits` | src/kubernetes/client_home_volume.rs:73-88 | a quantity is written from its parts in one way only |
| `Quantity.RatioAccepts` | src/kubernetes/client_home_volume.rs:73-123 | a ratio is returned iff the text is a quantity that fits the arithmetic |
| `Quantity.RatioIsExact` | src/kubernetes/client_home_volume.rs:73-123 | the ratio is exactly the number the text denotes |
| `Quantity.CapacityIsExact` | src/kubernetes/client_home_volume.rs:64-71 | bytes are returned iff the quantity denotes that whole number, within i64 |
| `Quantity.SufficientIsTrue` | src/kubernetes/client_home_volume.rs:58-62 | the capacity check is the true inequality; overflow never changes the answer |
| `Quantity.BinarySuffixesScale` | src/kubernetes/client_home_volume.rs:91-102 | on every number each of none, Ki, Mi, Gi, Ti, Pi, Ei denotes 1024 times the one before it |
| `Quantity.DecimalSuffixesScale` | src/kubernetes/client_home_volume.rs:103-112 | on every number each of n, u, m, none, k, M, G, T, P, E denotes 1000 times the one before it |
| `Quantity.ExponentsShift` | src/kubernetes/client_home_volume.rs:113-121 | an exponent, plain or signed, shifts every number by that many decimal places |
| `Quantity.SuffixesAccepted` | src/kubernetes/client_home_volume.rs:90-115 | no other suffix is accepted |
| `Quantity.OrdinaryQuantitiesFit` | src/kubernetes/client_home_volume.rs:73-123 | up to twenty digits with a named suffix never overflow |
| `Quantity.RequestedSizeRoundTrips` | src/kubernetes/client_storage_shrink.rs:983 | a size printed as a request is read back as that size, for every size in range and no other |
| `Egress.NestedOrDisjoint` | src/kubernetes/network_policy.rs:133-168 | two blocks that share an address are nested |
| `Egress.PublicEgressRule` | src/kubernetes/network_policy.rs:133-168 | admits exactly the block's addresses that are neither reserved nor blocked; exceptions strictly inside; no rule iff a blocked block covers it |
| `Egress.InternetEgressRules` | src/kubernetes/network_policy.rs:95-108 | for every blocked list, admits exactly the public, unreserved, unblocked addresses |
| `Egress.ReachableIs` | src/kubernetes/network_policy.rs:16-37 | what is admitted, as ranges of numbers: IPv4 outside the special ranges, IPv6 of 2000::/3 outside those in it, and not blocked |
| `Egress.InternalIsNeverReachable` | src/kubernetes/network_policy.rs:16-37 | private, loopback, link-local, shared and multicast IPv4 and every IPv6 address outside 2000::/3 are never admitted |
| `Egress.EgressConfig.RememberBlockedAddresses` | src/kubernetes/internet_egress.rs:41-55 | remembers exactly the new addresses, forgets none, counts the blocks added |
| `Egress.EgressConfig.BlockedCidrs` | src/kubernetes/internet_egress.rs:57-65 | blocks an address iff the operator's list or a remembered block does |
| `Egress.EgressConfig.BuildPolicy` | src/kubernetes/network_policy.rs:95-108 | a policy built now admits exactly the public, unreserved addresses not blocked by now, and none ever remembered |
| `Egress.RunCalls` | src/kubernetes/internet_egress.rs:41-65 | in any run of remembering and building, a remembered address is denied by every later policy |
| `Cascade.ApplyScope` | src/injections/cascade.rs:25-77 | succeeds iff the scope is in order and overrides no lock; lays it over the table; a fault names what is wrong |
| `Cascade.Resolve` | src/injections/cascade.rs:11-23 | succeeds iff the three lists are coherent; then every destination once, in order, from the most specific scope |
| `Cascade.ResolutionUnique` | src/injections/cascade.rs:11-23 | there is only one such result |
| `Cascade.OrderDoesNotMatter` | src/injections/cascade.rs:11-77 | neither success nor result depends on the order within a scope |
| `Selection.CoherenceIsDownwardClosed` | src/injections/cascade.rs:25-77 | leaving items out never makes a resolution fail |
| `Selection.SelectionNeverBreaksResolution` | src/injections/selection.rs:18-56 | if everything resolves, so does whatever is selected and referenced |
| `Selection.ResolveSelected` | src/jobs/kubernetes.rs:330-342 | the pipeline lists exactly the items in force: matching, referenced or locked in the organization, and targeted by no narrower scope's; it succeeds whenever everything resolves together |
| `Selection.LabelsConfine` | src/injections/selection.rs:45-69 | an item with a label or a template selector reaches only workspaces that have that very value, and one with an unknown label none |
| `Selection.OnlyLabelsConfine` | src/injections/selection.rs:45-69 | and every workspace that has them |
| `Selection.LockedItemsAlwaysApply` | src/jobs/kubernetes.rs:330-342 | no choice of references drops or replaces a matching locked organization item |
| `Materialization.KeysDiffer` | src/kubernetes/materialization.rs:117-151 | data keys never collide, for any number of items |
| `Materialization.MaterializedData.Insert` | src/kubernetes/materialization.rs:84-100 | the next item is stored and listed, or its first fault returned |
| `Materialization.Build` | src/kubernetes/materialization.rs:178-245 | succeeds iff nothing is wrong, otherwise fails with the first fault; every table holds exactly its items |
| `Materialization.ResolvedNeverDuplicates` | src/kubernetes/materialization.rs:84-92 | what the cascade resolves, with validated targets, never fails as a duplicate |
| `Materialization.EveryItemIsFound` | src/kubernetes/materialization.rs:102-179 | each item has exactly one manifest entry with its own target, source, mode, owner and group, and it leads to exactly the bytes of its value, through the Secret iff it is sensitive or a secret file |
| `Materialization.SecretsStaySecret` | src/kubernetes/materialization.rs:117-161 | a secret item's data key is in the Secret and nowhere else |
| `Materialization.RustupHomeIsLeftOut` | src/kubernetes/materialization.rs:116-118 | no manifest or table sets RUSTUP_HOME |
| `Materialization.PathsAreConfined` | src/kubernetes/materialization.rs:273-278 | a path is accepted iff it is absolute and none of its components is the parent |
| `Materialization.NamesAreIdentifiers` | src/kubernetes/materialization.rs:256-271 | a name is accepted iff it is letters, digits and underscores with no digit first |
| `Checkpoint.DeadlineFollowsLastApply` | src/jobs.rs:181-200 | from any payload, over any number of waiting runs and changes of the workspace, the park deadline is last apply + 60 s |
| `Checkpoint.WaitingRunsApplyAtTheDeadline` | src/jobs/kubernetes.rs:460-497 | after any number of runs, the next one of that generation, while the workspace settles and the deadline is representable, applies iff it starts at the deadline or later |
| `Checkpoint.DeadlineIsExact` | src/jobs/kubernetes.rs:460-477 | that deadline is the first instant at which a run applies again |
| `Checkpoint.DeadlineIsExactIff` | src/jobs/kubernetes.rs:460-477 | so for every instant iff the deadline is a representable time |
| `Checkpoint.SaturatedDeadline` | src/jobs/kubernetes.rs:471-476 | an input where it is not |
| `Checkpoint.FreshIff` | src/jobs/kubernetes.rs:460-477 | fresh iff the workspace settles, at the checkpoint's generation, from its time on for 60 s |
| `Checkpoint.OtherRunsApply` | src/jobs/kubernetes.rs:460-477 | after any runs, one that finds another generation, a workspace that is not settling, or a checkpoint from the future applies |
| `Checkpoint.FirstRunApplies` | src/jobs/kubernetes.rs:460-477 | so does one without a checkpoint |
| `Checkpoint.PayloadSurvives` | src/jobs/kubernetes.rs:479-497 | all other payload fields survive any number of parks |
| `PolicyPatch.PatchNetworkPolicy` | src/kubernetes/network_refresh.rs:129-193 | at most three attempts, at most one write, and only over a policy that at that moment is owned, not terminating and for this mapping; true means written; false not written, as the policy was missing, terminating or as wanted when last read; an error takes a failed request, a foreign policy or a third conflict |
| `WorkerSlots.RunsKeepInv` | src/jobs.rs:314-350 | what every interleaving keeps of every slot |
| `WorkerSlots.NoWakeupIsLost` | src/jobs.rs:314-350 | while an admitted slot sleeps, no job that was announced is still claimable |
| `WorkerSlots.SignalledSlotsNeverSleep` | src/jobs.rs:314-350 | a slot signalled since it registered does not sleep, while admitted, until it has gone round |
| `WorkerSlots.WaitingSlotsSleep` | src/jobs.rs:314-350 | no slot spins: woken by a change of the setting, it sleeps when it waits again, unless a change or a signal came since |
| `WorkerSlots.ClaimsAreAdmitted` | src/jobs.rs:325-334 | every claim is by a slot below the setting it read last, whatever the setting is by then |
| `WorkerSlots.InFlightIsBounded` | src/jobs.rs:314-350 | jobs admitted under the present setting never exceed it |
| `EventStream.AfterResumes` | src/storage/event_store.rs:125-141 | listing on from a delivered event gives exactly what follows it |
| `EventStream.Stream.Turn` | src/api/events.rs:80-132 | delivered events are always a prefix of those after the starting cursor; an error is emitted iff the notifier or a query failed, and delivers nothing; pending bytes are those of the queue |
| `EventStream.Stream.Deliver` | src/api/events.rs:80-132 | over any turns only the events after the cursor, in order and once each; two successful turns for each event there was deliver them all |
| `EventStream.Stream.Fetch` | src/api/events.rs:115-121 | a query brings the next events iff there are any |
| `Metrics.Record` | src/observability.rs:183-196 | one more request keeps status counts summing to the count and buckets monotone and bounded by it |
| `Metrics.Observability.BeginHttp` | src/observability.rs:82-102 | active and buffered counters equal the live guards' count and bytes, modulo 2^64 |
| `Metrics.Observability.FinishHttp` | src/observability.rs:170-197 | likewise after a finish or a drop, with the request recorded in its series only |
| `Metrics.HttpRequestGuard.Finish` | src/observability.rs:206-215 | a finished request leaves the live ones and is recorded once |
| `Metrics.HttpRequestGuard.Drop` | src/observability.rs:218-230 | dropping a finished guard counts nothing; dropping an unfinished one records it as aborted |
| `Metrics.Observability.SetBufferBytes` | src/observability.rs:238-251 | the stream counter equals the live streams' bytes |
| `Metrics.Observability.DropSse` | src/observability.rs:255-267 | likewise when a stream ends |
| `Metrics.Observability.FinishUpstream` | src/observability.rs:307-316 | active + success + error equals the calls begun |
| `Metrics.UpstreamGuard.Drop` | src/observability.rs:300-316 | a call is one success if it was marked so, and one error otherwise |

## Left out

- The helper NetworkPolicy and the Pod specifications of a shrink beyond which claims they mount: data construction; a check of them may fail at any time.
- Error texts, logging, timeouts and the re-enqueueing of shrink jobs: no property of the modelled state.
- `capture_shrink_cleanup_identities` and `delete_workspace_shrink_storage`: cleanup of a deleted workspace's migrations, the same guarded deletion as reclamation.
- `delete_stopped_scratch`: one branch of the deletion protocol.
- The template document kept beside the workspace row, generations and audit rows: copied fields.
- Reconciliation while resuming is an apply of the bound volumes followed by an observed state, each of which may fail.
- Host names, port rules, the DNS rule and the printed form of addresses: the order of remembered blocks is any order given by a rank.
- `normalize_resolved_ssh_items` and shared SSH keys, which may merge targets after the cascade.
- Base64, UTF-8 and JSON encoding: abstract functions; text and its bytes determine each other.
- Event serialization failures, which replace an event by an error event.
- EventStream.Stream.Turn: sizes are taken to be below 2^64 / 100 bytes an event, because the sum of a page is not a checked addition.
- Job retry delays, leases, shutdown and the single-slot worker loop: only easy members.
- Metrics.Record: status and duration counts are unbounded, because their overflow is not reachable in practice.
- CPU profiling, process snapshots, metric rendering, HTTP handlers, SQL text and manifests.
