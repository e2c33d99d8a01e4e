# Verified protocols of the cStor operators

cstor-operators is a set of Kubernetes controllers that cooperate only through
objects in the API server. This project models the protocols between them in
Dafny and proves what they keep over every run. Each read-modify-update of one
object is one atomic step, because an update made from a stale copy is refused
on its resource version; actors interleave arbitrarily, and a pass of a
controller may end at any step. `dafny verify dfyconfig.toml` checks everything.

| component | files |
|---|---|
| volume-replica scaling: CVC webhook, cvc-operator, volume manager, registration server | `cvc_admission`, `volume_scaling`, `volume_history`, `scale_down`, `scale_down_theorems`, `scale_down_recovery`, `scale_down_edits`, `scale_down_early`, `quorum`, `scaling_limits`, `volume_store` |
| block-device replacement and expansion: CSPC webhook, cspc-operator, pool-manager | `raid_groups`, `cspi_sync`, `replacement`, `replacement_invariant`, `replacement_theorems`, `replacement_exact`, `replacement_quiet`, `replacement_release`, `replacement_recovery`, `replacement_limits`, `pool_manager`, `vdev_tree`, `pool_expansion` |
| ordered deletion of pools by finalizers | `teardown`, `teardown_operator` |
| phases, quorum flag and id of a volume replica | `replica_lifecycle` |
| volume resize | `resize` |
| backups | `backup`, `backup_controller` |
| replica placement, node selection, snapshot lists, property cache | `placement`, `node_selection`, `snapshots`, `property_cache` |

A state machine (`Step`, `Do`, `Run`) carries the invariants and the theorems
over all runs. Where the source updates objects in place there is a class whose
methods are proved to be runs of that machine or to meet a specification stated
outright. `lists` holds facts about lists seen as sets, `wrappers` the option type.

Results that differ from what one would expect of the code. Where a property of
a protocol fails there is a run that shows it, and an exact condition that can
be read off the state before the call:

- At most DRF replicas are known to the spec only if every scale-down is asked
  for with all replicas registered (`ScalingLimits.UnregisteredScaleDownBreaksBound`);
  `VolumeScaling.KnownBoundWhenLowered` has the exact condition of the one step
  that can break it. What an early scale-down breaks first is the order: without
  another edit it can get a known replica deleted if and only if the removed pool
  has a replica and some pool that stays has none that is known
  (`ScaleDownEarly.EarlyShrinkDeletesKnownIff`).
- While a scale-down is pending the webhook compares counts only. An edit that
  names another pool for removal can make the operator delete a replica that is
  still known (`ScalingLimits.SwapDuringScaleDownBreaksOrder`) if and only if the
  factor is lowered or a pass is about to lower it
  (`ScaleDownEdits.SwapDeletesKnownIff`).
- An edit that exchanges a pool of a pending scale-up can leave a replica on a
  pool that no list names (`ScalingLimits.SwapDuringScaleUpOrphansReplica`) if
  and only if the dropped pool has a replica or a pass is going to give it one
  (`ScaleDownEdits.ExchangeOrphansIff`).
- A pool added back while its old CVR awaits its finalizer can end up in the
  status without a replica (`ScalingLimits.ReaddedPoolLosesItsReplica`); no other
  allowed edit can do that (`ScaleDownEdits.ReaddBecomesVacantIff`).
- The scale-down function reads a CVR that was not found as an empty object in
  one place and as nil in another. Which of the two the client returns is a field
  of the state. With nil an interrupted scale-down always recovers. With an empty
  object it recovers if and only if the removed CVR still exists
  (`ScaleDownRecovery.RestartCompletesIff`), and otherwise stays pending until
  the user names another pool for removal (`ScaleDownRecovery.StuckForever`).
- The CSPC webhook annotates claims before the edit is stored, and does not look
  at the annotations of devices that come in by expansion. The pool-manager can
  then release the claim of a device in use: after an edit that failed
  (`ReplacementLimits.AbandonedEditFreesDeviceInUse`), and after a single edit
  that moves the outgoing device to a new group
  (`ReplacementLimits.MovedDeviceLosesItsClaim`). An accepted edit can lead to that
  if and only if a device of the new CSPC is annotated with one that the new CSPC
  names, or comes in by expansion annotated with one on a CSPI, and its raid group
  is on the CSPI or has no device of another owner
  (`ReplacementRelease.Endangers`, `ReplacementRelease.StoredEditFreesIff`), also
  after any number of edits that do not (`ReplacementRelease.CarefulEditsFreeNothing`).
- The marks of the CSPC stay in order, which is more than that, if and only if
  the expansion is harmless (`Replacement.HarmlessExpansion`,
  `ReplacementExact.StoredEditInOrderIff`).
- Two edits under review at the same time that name the same incoming device
  have the same effect, whether the second annotates after the first is stored
  (`ReplacementLimits.OverlappingReviewsFreeDeviceInUse`) or before
  (`ReplacementLimits.OverwrittenReviewFreesDeviceInUse`); the conditions are in
  `ReplacementExact.LateAnnotationInOrderIff` and
  `ReplacementExact.EarlyAnnotationInOrderIff`.
- The devices of new data groups go unchecked when the webhook happens to visit
  the data groups before a write cache that is not striped
  (`RaidGroups.DataExpansionChecked`).
- The old claim is released while resilvering if no byte has been processed yet;
  after a scrub a vdev with processed bytes counts as busy
  (`PoolManager.Manager.IsResilveringInProgress`).
- If the links of the new device cannot be read, the pool-manager asks for the
  vdev with the empty path, that of a raid group, and can release the old device
  although the new one is not in the pool
  (`ReplacementLimits.UnreadLinksFreeOldDevice`); exactly when is stated by
  `PoolManager.FinishesUnseenIff`.
- A new backup can be reported Done without its own transfer if and only if the
  record of its schedule names its snapshot or a worker still carries an earlier
  object of its name (`Backup.FalselyDoneIff`), with a run for each
  (`Backup.ReusedNameIsReportedDone`, `Backup.LateWorkerMarksNewBackup`).
- A raid group without devices is added to the pool again in every pass
  (`PoolExpansion.NextPassAddsNothing`).
- Of two pool specs for one node only the first is looked at
  (`NodeSelection.SecondSpecForNodeIsHidden`). A failed selection means that
  nothing is suitable, whatever pools exist, if and only if each first spec is
  within the later ones of its node (`NodeSelection.SelectionCompleteIff`).

## Model

| member | source | states |
|---|---|---|
| `CvcAdmission.IsUniqueList` | pkg/webhook/cvc.go:228-238 | true exactly for lists without duplicates |
| `CvcAdmission.PoolListChangesByCounting` | pkg/webhook/cvc.go:131-178 | from a duplicate-free current list, the length comparisons accept a duplicate-free desired list if and only if it keeps all current pools or removes exactly one and adds none, and, unless the volume is or becomes bound, keeps their number |
| `CvcAdmission.AdmittedUpdate` | pkg/webhook/cvc.go:79-217 | full characterisation of admitted updates, of bound and unbound volumes, both directions: replica count and capacity unchanged, no duplicates, the number of pools kept while scaling, and an admissible pool list |
| `CvcAdmission.AdmittedEdit` | pkg/webhook/cvc.go:79-217 | the same for edits of the pool list of a bound volume |
| `CvcAdmission.PendingChangeShowsInLength` | pkg/controllers/cstorvolumeconfig/controller.go:823-846 | after an admitted edit a pending change shows in the lengths, so the "Migration" branch is not reached, and a shrink is by one |
| `VolumeScaling.PoolListsAndDrfInEveryRun` | pkg/controllers/cstorvolumeconfig/volume_operations.go:788-982 | over every interleaving of edits, operator passes, manager passes and registrations: duplicate-free pool lists, DRF is the length of one of them and of both when they agree, spec-known is a sub-map of status-known, a pending change shows in the lengths |
| `VolumeScaling.StepKeepsInv` | pkg/controllers/cstorvolumeconfig/volume_operations.go:788-982 | the invariant behind it, including what stale copies held by the operator and the manager may still say, is kept by each of the steps |
| `VolumeScaling.CompletionIsAdmitted` | pkg/controllers/cstorvolumeconfig/volume_operations.go:788-824 | the status update that ends an operator pass passes the webhook's own checks |
| `VolumeScaling.KnownBoundStep` | pkg/volume-rpc/targetserver/config.go:99-155 | every step except lowering the factor keeps at most DRF replicas known |
| `VolumeHistory.GuidOfLastRegistration` | pkg/volume-rpc/targetserver/config.go:134-142 | in every run the guid known for a replica, in the spec and in the status, is the one of its last accepted registration |
| `VolumeHistory.LoweredOnlyWhenHealthy` | pkg/controllers/volume-mgmt/handler.go:559-572 | the replication factor is lowered, and the target approached for a removal, only by a manager pass whose health check succeeded |
| `VolumeHistory.ForgottenOnlyAfterHealthCheck` | pkg/controllers/volume-mgmt/handler.go:559-618 | in every run the status forgets a replica only at the end of a manager pass that began with a successful health check and commanded the target without that replica |
| `VolumeScaling.KnownBoundWhenLowered` | pkg/controllers/cstorvolumeconfig/volume_operations.go:937-982 | lowering the factor keeps the bound if and only if the removed replica is known or there was room |
| `ScaleDownEarly.EarlyShrinkDeletesKnownIff` | pkg/webhook/cvc.go:131-178 | for every tracked state of a settled volume: an admitted edit that removes a pool has a continuation without further edits that deletes a known replica if and only if the removed pool has a live replica and the replica of some pool that stays is not known |
| `ScaleDown.AllPoolsKnown` | pkg/volume-rpc/targetserver/config.go:74-155 | pigeonhole: when as many replicas are known as the status has pools, the replica of every such pool is live and known |
| `ScaleDown.StepKeepsTracked` | pkg/controllers/cstorvolumeconfig/volume_operations.go:841-982 | every allowed step keeps the invariant that ties pool lists, CVRs, known maps and factors together during a scale-down; allowed are all edits but those `ScaleDownEdits` shows to do harm and shrinking edits with a replica unregistered |
| `ScaleDownTheorems.KnownWithinDrfInEveryRun` | pkg/volume-rpc/targetserver/config.go:99-155 | with all replicas registered at each shrinking edit, at most DRF replicas are spec-known in every run |
| `ScaleDownTheorems.ScaleDownOrderInEveryRun` | pkg/controllers/cstorvolumeconfig/volume_operations.go:937-982 | in every run a CVR is deleted only when its id has left both known maps, status-known loses an id only after the target accepted the drf command without it, and no forgotten id registers again while the scale-down is pending |
| `ScaleDownTheorems.CvrGoneOnlyAfterDeletion` | pkg/controllers/replica-controller/handler.go:309-342 | a CVR disappears only after it was marked for deletion |
| `ScaleDownTheorems.ForgottenCannotReturn` | pkg/volume-rpc/targetserver/config.go:99-155 | once the factor is lowered the server accepts only replicas that are known |
| `ScaleDownTheorems.QuorumsMeetInEveryRun` | pkg/controllers/volume-mgmt/handler.go:559-618 | in every run, a step that lowers RF lowers it by one and any write quorum before it meets any quorum after it |
| `ScaleDownTheorems.QuorumsMeetAtRegistration` | pkg/volume-rpc/targetserver/config.go:99-155 | the same when a replica registers and the factor grows by one |
| `Quorum.QuorumsMeetAcrossOneChange` | pkg/controllers/volume-mgmt/handler.go:559-618 | for every n, a quorum of n/2+1 of n replicas meets every quorum of the set less one |
| `ScaleDownTheorems.QuorumsMeetAlongRun` | pkg/controllers/volume-mgmt/handler.go:559-618 | along any run with any number of scale-downs, each takes exactly one replica out of the configuration and every quorum before meets every quorum after |
| `Quorum.QuorumsMayMissAcrossTwoChanges` | pkg/controllers/volume-mgmt/handler.go:559-618 | two changes apart this can fail, which is why a shrink removes exactly one |
| `ScaleDownRecovery.OutcomeStable` | pkg/controllers/cstorvolumeconfig/volume_operations.go:937-982 | unless another pool is named for removal, no step changes the pools, known ids and replicas a pending scale-down will end with |
| `ScaleDownRecovery.InterruptedScaleDownRecovers` | pkg/controllers/cstorvolumeconfig/volume_operations.go:937-982 | from any intermediate state of a pending scale-down, restarting the controllers completes it with the final state fixed when it was asked for, if and only if the removed CVR is still there or the client returns nil for a missing one |
| `ScaleDownRecovery.RestartCompletesIff` | pkg/controllers/cstorvolumeconfig/volume_operations.go:937-982 | for every tracked state with a pending scale-down: one restart of both controllers completes it if and only if the operator can get past the deletion |
| `ScaleDownRecovery.StuckForever` | pkg/controllers/cstorvolumeconfig/volume_operations.go:945-971 | with a client that returns an empty object, a scale-down whose CVR is gone before the status update stays pending in every allowed run |
| `ScaleDownEdits.SwapDeletesKnownIff` | pkg/webhook/cvc.go:185-194 | for every tracked state with a pending scale-down: an admitted edit of the pool set has a continuation that deletes a known replica if and only if the factor is lowered or a pass is about to lower it |
| `ScaleDownEdits.StatusPoolsHaveReplicas` | pkg/controllers/cstorvolumeconfig/volume_operations.go:788-895 | if no pool is named while its old CVR awaits its finalizer, every pool of the status that is still desired has a live replica in every run |
| `ScaleDownEdits.ReaddBecomesVacantIff` | pkg/controllers/cstorvolumeconfig/volume_operations.go:445-518 | an allowed edit has a continuation in which the status lists a pool without CVR if and only if it names a pool whose old CVR awaits its finalizer |
| `ScaleDownEdits.NoOrphanInEveryRun` | pkg/controllers/cstorvolumeconfig/volume_operations.go:841-895 | in every run each live replica is on a pool of the desired or the current list |
| `ScaleDownEdits.ExchangeOrphansIff` | pkg/webhook/cvc.go:185-194 | for every tracked state with a pending scale-up: an admitted edit of the pool set has a continuation with a live replica on a pool of neither list if and only if a dropped pool has a replica or a pass is going to give it one |
| `ScalingLimits.SwapDuringScaleDownBreaksOrder` | pkg/webhook/cvc.go:185-194 | concrete run from binding: after the factor is lowered, a same-count edit can get a still known replica deleted |
| `ScalingLimits.SwapDuringScaleUpOrphansReplica` | pkg/webhook/cvc.go:185-194 | concrete run from binding: exchanging the new pool of a scale-up under way can orphan its replica |
| `ScalingLimits.ReaddedPoolLosesItsReplica` | pkg/controllers/cstorvolumeconfig/volume_operations.go:477-515 | concrete run from binding: a pool added back too early can end up in the status without a replica |
| `ScalingLimits.UnregisteredScaleDownBreaksBound` | pkg/volume-rpc/targetserver/config.go:74-131 | concrete run from binding, all of whose steps but one shrinking edit are allowed: scaling down with an unregistered replica ends with three known replicas under a factor of two |
| `VolumeStore.Store.UpdateCVWithReplicationDetails` | pkg/volume-rpc/targetserver/config.go:74-155 | the registration handler is the registration step; it succeeds if and only if id, guid and factors are given, the replica is known or there is room, and no factor shrinks; then both maps hold the new guid and the factors are the new ones; a refusal changes nothing |
| `VolumeStore.Store.HandleVolumeReplicaCreation` | pkg/controllers/cstorvolumeconfig/volume_operations.go:841-895 | afterwards there is a CVR for exactly the pools that had one or did not fail; existing CVRs are left alone, new ones carry their hash; it fails if and only if a pool fails |
| `VolumeStore.Store.ScaleUpVolumeReplicas` | pkg/controllers/cstorvolumeconfig/volume_operations.go:907-927 | a whole scale-up pass is a run of the steps |
| `VolumeStore.ScaleUpAllowed` | pkg/controllers/cstorvolumeconfig/volume_operations.go:907-927 | a whole scale-up pass with fresh ids is one of the runs the scale-down theorems speak about |
| `VolumeStore.Store.ScaleDownVolumeReplicas` | pkg/controllers/cstorvolumeconfig/volume_operations.go:937-982 | a whole scale-down pass is a run of the steps: it lowers the factor and forgets the id of the removed CVR; it succeeds if and only if no removal is outstanding on the target and the removed CVR exists or is skipped; exactly then the status is updated and the CVR marked for deletion |
| `VolumeStore.Store.UpdateCStorVolumeDRF` | pkg/controllers/volume-mgmt/handler.go:479-618 | a whole manager pass is a run of the steps; it succeeds if and only if the target accepts and, for a removal, volume and replicas are healthy; an unhealthy volume is not touched; factors, status map and target after every outcome |
| `RaidGroups.GetDuplicateBlockDeviceList` | pkg/webhook/cspc.go:228-252 | exactly the devices named more than once, each reported once; empty if and only if there is none |
| `RaidGroups.IsRaidGroupCommon` | pkg/webhook/cspc_operations.go:225-237 | true exactly if the groups share a device |
| `RaidGroups.GetCommonRaidGroups` | pkg/webhook/cspc_operations.go:688-734 | each old group is matched with the first new group that overlaps it; fails if and only if some old group overlaps none |
| `RaidGroups.GetNumberOfDiskReplaced` | pkg/webhook/cspc_operations.go:247-259 | the number of new devices that are not in the old group |
| `RaidGroups.GetNewBDFromRaidGroups` | pkg/webhook/cspc_operations.go:556-585 | the incoming and the outgoing device at the first place where the groups differ, or the empty name |
| `RaidGroups.ArePoolSpecChangesValid` | pkg/webhook/cspc_operations.go:745-791 | decides acceptance of a pool-spec edit, both directions, for either order of the two group kinds and any failing claims; on success all exchanged devices are annotated, on failure the claims stay unless a claim could not be written, which leaves part of them annotated |
| `RaidGroups.CreateClaims` | pkg/webhook/cspc_operations.go:784-789 | names its predecessor on the claim of each incoming device, creating missing claims for the CSPC, until one fails; what was annotated before stays, owners and all other claims too |
| `RaidGroups.PlanIsExact` | pkg/webhook/cspc_operations.go:745-791 | a claim is annotated with a predecessor if and only if that pair of devices is exchanged in one of the matched groups |
| `RaidGroups.GetExpandedRaidGroups` | pkg/webhook/cspc_operations.go:621-639 | exactly the new groups that share no device with an old one, in order |
| `RaidGroups.ValidatePoolExpansion` | pkg/webhook/cspc_operations.go:643-683 | decides whether the devices on the list are valid, for either map order; a striped kind without groups makes it crash |
| `RaidGroups.DataExpansionChecked` | pkg/webhook/cspc_operations.go:664-683 | devices of new data groups are always checked if data groups come last; if they come first, exactly if the write cache is striped or names them too |
| `RaidGroups.PairOfGroups` | pkg/webhook/cspc_operations.go:207-297 | a valid non-striped pair has equal size and differs in nothing or in exactly one incoming and one outgoing device, the group has no replacement going on and the incoming device is no predecessor; a striped group only grows |
| `RaidGroups.PairOfGroupsIff` | pkg/webhook/cspc_operations.go:207-320 | for duplicate-free groups, both directions: a striped group is accepted if and only if it loses nothing, any other if and only if it keeps its devices or exchanges one for a valid device, at equal size |
| `RaidGroups.SwappedIff` | pkg/webhook/cspc_operations.go:262-420 | an exchange of one device is valid if and only if the new one is outside the CSPC, not claimed by another, no predecessor, large enough, and no replacement goes on in the group |
| `RaidGroups.MatchingInjective` | pkg/webhook/cspc_operations.go:688-734 | the first-overlap matching of non-striped groups is injective |
| `RaidGroups.AcceptedEdit` | pkg/webhook/cspc_operations.go:745-791 | accepted edits of duplicate-free CSPCs: injective matching, equal sizes, at most one exchanged device per group, which is nowhere in the old CSPC and at least as large; striped groups only grow |
| `RaidGroups.AcceptedEditIff` | pkg/webhook/cspc_operations.go:745-777 | given the matching, an edit of duplicate-free CSPCs is accepted if and only if the group types stay, a write-cache type not set before excepted, and every group changes in a valid way |
| `CspiSync.Instance.GetReplacedCSPIRaidGroup` | pkg/controllers/cspc-controller/operations.go:274-294 | the first CSPI group with exactly one device outside the spec group, or none |
| `CspiSync.Instance.ReplaceExistingBlockDevice` | pkg/controllers/cspc-controller/operations.go:214-269 | overwrites one missing device by a usable incoming one in place, changes nothing on error, and fails only for a missing, unnamed or unusable pair |
| `CspiSync.Instance.UpdateExistingCSPI` | pkg/controllers/cspc-controller/operations.go:133-151 | a pass is the sequence of group copies in spec order |
| `CspiSync.Instance.IsRaidGroupPresentOnCSPI` | pkg/controllers/cspc-controller/operations.go:199-212 | true exactly if some CSPI group shares a device with the group |
| `CspiSync.Instance.AddGroupToPool` | pkg/controllers/cspc-controller/operations.go:99-129 | appends the usable spec groups that share no device with the CSPI |
| `CspiSync.FoundIsLagging` | pkg/controllers/cspc-controller/operations.go:274-294 | the group found for a spec group is exactly the one that lags behind it by one device |
| `CspiSync.CopyGroupsLagging` | pkg/controllers/cspc-controller/operations.go:133-151 | a pass, complete or with unusable devices, changes only lagging groups, each in the one position it lags in, and keeps the relation to the spec |
| `CspiSync.OnePassConverges` | pkg/controllers/cspc-controller/operations.go:133-294 | with groups of at least two devices lagging by at most one, outgoing devices not reused and incoming ones usable, one pass makes every CSPI group set-equal to its spec group and changes nothing else |
| `CspiSync.ExpandedLagging` | pkg/controllers/cspc-controller/operations.go:99-129 | adding groups keeps the groups on the CSPI, appends only usable spec groups, never twice, and leaves no usable spec group out |
| `ReplacementTheorems.AdmitKeepsInv` | pkg/webhook/cspc_operations.go:745-791 | an accepted edit with a harmless expansion keeps the invariant, marks in order included, and is ready to be stored whatever other actors, other reviews among them, do while its claims are annotated |
| `ReplacementTheorems.PredecessorIff` | pkg/webhook/cspc_operations.go:403-420 | the devices the webhook refuses as predecessors are exactly those of the replacements going on |
| `ReplacementInvariant.CommitKeepsInv` | pkg/webhook/cspc_operations.go:466-530 | storing an edit whose annotations are intact keeps the invariant: the new marks are the old ones, the planned pairs and those of devices that come in by expansion |
| `ReplacementInvariant.CopyKeepsInv` | pkg/controllers/cspc-controller/operations.go:36-63 | an operator pass keeps it |
| `ReplacementInvariant.PredecessorUnused` | pkg/pool/operations/modify.go:141-160 | once the incoming device is on a CSPI its predecessor is on no CSPI |
| `ReplacementTheorems.RunKeepsInv` | pkg/pool/operations/modify.go:75-183 | the invariant over all interleavings of any number of reviews, the operator and the pool-managers, with harmless expansions and annotations and edits stored only with their own annotations intact |
| `ReplacementTheorems.ReplacementInEveryRun` | pkg/pool/operations/modify.go:75-183 | in every such run at most one device per CSPC group is marked; every CSPI group equals a CSPC group or differs from it by the marked device and its predecessor; every device on a CSPI is claimed |
| `ReplacementTheorems.ClaimReleasedOnlyWhenReplaced` | pkg/pool/operations/pool_utils.go:301-340 | in every such run a claim disappears only as predecessor of a device on the CSPI that was found in the pool, or whose links could not be read; the released device is in no CSPC group and on no CSPI |
| `ReplacementTheorems.ReplacingGroupIsFrozen` | pkg/webhook/cspc_operations.go:347-361 | no stored edit changes a raid group in which a replacement goes on |
| `ReplacementTheorems.CopyConverges` | pkg/controllers/cspc-controller/operations.go:36-63 | in every reachable state one operator pass with usable devices brings the pool up to date |
| `ReplacementRecovery.ReplacementCompletes` | pkg/pool/operations/modify.go:62-205 | from any reachable state the operator and the pool-manager can complete the replacements of a pool: CSPI groups equal CSPC groups, no mark left on the CSPI, predecessors released, nothing else changed |
| `ReplacementLimits.AbandonedEditFreesDeviceInUse` | pkg/webhook/cspc_operations.go:784-789 | concrete run: an edit abandoned after its claim is annotated and a later expansion release the claim of a device in use |
| `ReplacementLimits.MovedDeviceLosesItsClaim` | pkg/webhook/cspc_operations.go:621-639 | concrete run: a single edit that moves the outgoing device to a new group ends with the device in the CSPC and without claim |
| `ReplacementLimits.OverlappingReviewsFreeDeviceInUse` | pkg/webhook/cspc_operations.go:509-530 | concrete run: of two edits validated against the same CSPC with the same incoming device, the refused one overwrites the annotation, and a device in use loses its claim |
| `ReplacementLimits.OverwrittenReviewFreesDeviceInUse` | pkg/webhook/cspc_operations.go:509-530 | concrete run: the same when the second edit overwrites the annotation before the first is stored |
| `ReplacementLimits.UnreadLinksFreeOldDevice` | pkg/pool/operations/modify.go:113-150 | concrete run: an ordinary replacement in which the links of the new device cannot be read releases the old device, though the new one is not in the pool |
| `ReplacementRelease.StoredEditFreesIff` | pkg/webhook/cspc_operations.go:664-683 | for every reachable state and every edit the webhook accepts: once it is stored, the operator and the pool-managers have a run that releases the claim of a device of the CSPC or of a CSPI if and only if the edit endangers one |
| `ReplacementRelease.CarefulEditsFreeNothing` | pkg/pool/operations/pool_utils.go:301-340 | over any number of accepted edits, each stored as a whole and endangering nothing, with leftover annotations anywhere: no claim of a device in use is released, and for the next edit the condition is exact again |
| `ReplacementQuiet.QuietNeverFrees` | pkg/controllers/cspc-controller/operations.go:36-151 | the invariant behind it: from a quiet state no run of operator and pool-manager steps releases the claim of a device in use |
| `ReplacementExact.StoredEditInOrderIff` | pkg/webhook/cspc_operations.go:664-683 | for every reachable state and every edit the webhook accepts: once stored, predecessors are outside the CSPC, unmarked, distinct, owned and one per group, if and only if the expansion is harmless |
| `ReplacementExact.LateAnnotationInOrderIff` | pkg/webhook/cspc_operations.go:466-530 | of two reviews of one CSPC the first is stored with its annotations intact and the second annotates a device after that: the marks stay in order if and only if the annotation is harmless |
| `ReplacementExact.EarlyAnnotationInOrderIff` | pkg/webhook/cspc_operations.go:466-530 | the same when the second annotates before the first is stored: if and only if nothing changes or the first edit neither plans to use the device nor mentions it |
| `PoolManager.Manager.ReplacePoolVdev` | pkg/pool/operations/disk_operation.go:215-265 | a replacement is triggered exactly for a new device outside and an old one inside the topology; when it succeeds, and what the topology is then |
| `PoolManager.Manager.IsResilveringInProgress` | pkg/pool/operations/pool_utils.go:231-265 | the decision over the scan record of the vdev: a running resilver is busy exactly once bytes are processed, a finished one only for vdevs with children, any other scan while bytes are processed; busy without dump or vdev |
| `PoolManager.Manager.CleanUpReplacementMarks` | pkg/pool/operations/pool_utils.go:301-340 | first the old claim, then the mark; a run of protocol steps that touches no other claim; the old claim is gone if it could be deleted, and success is reported exactly if the mark is gone |
| `PoolManager.Manager.VisitDevice` | pkg/pool/operations/modify.go:78-163 | one device of the pass: a run of protocol steps; the device stays counted exactly if its replacement cannot be finished now; what is in the pool afterwards; a device without a usable mark changes nothing; a mark goes only if the path looked up is in the pool and a resilver running on it has processed nothing, and the old claim goes first |
| `PoolManager.FinishesUnseenIff` | pkg/pool/operations/modify.go:113-163 | a replacement is taken for finished with the new device not in the pool if and only if its links cannot be read, a vdev with the empty path is there and settled, the dump succeeds and both claims can be updated |
| `PoolManager.Manager.Update` | pkg/pool/operations/modify.go:62-205 | a pass is a run of protocol steps; afterwards the pool holds in addition exactly the counted devices zpool accepts for a predecessor in the pool; a device is left counted exactly if its replacement could not be finished on the pool it found, and the claim of a finished predecessor is gone; the reported count is the number left, success only if there is none |
| `VdevTree.CompareDisk` | pkg/pool/operations/pool_utils.go:139-154 | on forests of any depth: found if and only if some path occurs anywhere, and the result is the first one in preorder |
| `VdevTree.CheckIfDeviceUsed` | pkg/pool/operations/pool_utils.go:156-172 | the same over data, spare and cache vdevs |
| `PoolExpansion.Pool.FindMissing` | pkg/pool/operations/disk_operation.go:93-104 | exactly the first links of the unused devices, and whether the whole group is unused; fails if and only if a lookup fails |
| `PoolExpansion.Pool.UpdateNewVdevFromCSPI` | pkg/pool/operations/disk_operation.go:67-185 | the commands issued, the trigger flag and the status condition after a pass, also one cut short by a failed lookup; the paths new in the forest are exactly those of the accepted commands; success is shown only when nothing is left to request |
| `PoolExpansion.CommandsAre` | pkg/pool/operations/disk_operation.go:106-143 | what a group asks for is handed to zpool exactly if its raid type is given |
| `PoolExpansion.NewPaths` | pkg/pool/operations/disk_operation.go:67-143 | the paths a pass adds to the forest are exactly those of the commands that zpool accepted |
| `PoolExpansion.AddedPaths` | pkg/pool/operations/disk_operation.go:33-61 | a successful addition brings exactly the added paths into the forest |
| `PoolExpansion.AddedShape` | pkg/pool/operations/disk_operation.go:33-61 | a stripe is added as separate devices, any other group as one vdev that holds them; the rest of the forest stays |
| `PoolExpansion.NothingAddedTwice` | pkg/pool/operations/disk_operation.go:93-143 | with links not shared by devices, no path handed to zpool add is in the forest at that moment |
| `PoolExpansion.PartlyUsedUntouched` | pkg/pool/operations/disk_operation.go:106-143 | no link of a partly used non-striped group is ever requested |
| `PoolExpansion.NextPassAddsNothing` | pkg/pool/operations/disk_operation.go:67-143 | after a fully successful pass the next one requests nothing for a group if and only if the group has devices |
| `Teardown.StepKeepsInv` | pkg/controllers/cspc-controller/cleanup.go:33-148 | each step of managers, operator and users keeps the finalizer invariant |
| `Teardown.FinalizersHold` | pkg/controllers/cspc-controller/cleanup.go:93-114 | an object goes exactly if it is being deleted and its last finalizer is off, and no other object changes |
| `Teardown.CreatedIsFresh` | pkg/controllers/cspc-controller/scale.go:58-71 | a new CSPI belongs to the operator, is not protected yet and has only claimed devices |
| `Teardown.ImportedIsProtected` | pkg/controllers/cspi-controller/handler.go:56-208 | in every run an imported pool has a CSPI with the pool-protection finalizer |
| `Teardown.ClaimReleasedAfterPool` | pkg/controllers/cspc-controller/cleanup.go:116-148 | the finalizer lets go of the claim of a CSPI's device only after its pool is gone and the pool-protection finalizer is off |
| `Teardown.CspiGoneAfterClaims` | pkg/controllers/cspc-controller/cleanup.go:33-75 | a CSPI goes away only after all its claims are released |
| `Teardown.CspcFinalizerLast` | pkg/controllers/cspc-controller/sync.go:244-296 | the CSPC loses its finalizer only when it is being deleted, no CSPI and no pool remains and no claim is held by the finalizer |
| `Teardown.TeardownCompletes` | pkg/controllers/cspc-controller/sync.go:201-296 | wherever a deletion was interrupted it can be carried on to the end, with no claim held by the finalizer |
| `TeardownOperator.Cluster.AddPoolProtectionFinalizer` | pkg/controllers/cspi-controller/handler.go:430-448 | success means the finalizer is stored; failure changes nothing |
| `TeardownOperator.Cluster.Destroy` | pkg/controllers/cspi-controller/handler.go:210-254 | succeeds if and only if both the pool and then the finalizer could be removed; on failure the finalizer stays; nothing else changes |
| `TeardownOperator.Cluster.CleanupBDC` | pkg/controllers/cspc-controller/cleanup.go:116-148 | releases the claims of exactly this CSPI; succeeds if and only if none fails |
| `TeardownOperator.Cluster.CleanupOne` | pkg/controllers/cspc-controller/cleanup.go:40-58 | first the claims of the CSPI, then its finalizer; on failure the CSPI stays; the claims of other CSPIs are untouched |
| `TeardownOperator.Cluster.CleanupCSPIResources` | pkg/controllers/cspc-controller/cleanup.go:33-91 | of the listed CSPIs exactly the ready ones before the first failing cleanup go, with their claims and no others; succeeds if and only if every listed CSPI being deleted has no pool left and no call of its cleanup fails |
| `TeardownOperator.Cluster.DeleteAssociatedCSPI` | pkg/controllers/cspc-controller/sync.go:221-240 | marks every CSPI for deletion and changes nothing else |
| `TeardownOperator.Cluster.ReleaseLeftovers` | pkg/controllers/cspc-controller/sync.go:265-286 | takes the finalizer off all claims left over; succeeds if and only if that fails for none |
| `TeardownOperator.Cluster.HandleCSPCDeletion` | pkg/controllers/cspc-controller/sync.go:201-296 | every CSPI that is left is marked for deletion and otherwise unchanged; one with a pool is left, and if no call fails exactly those are; the CSPC finalizer is removed if and only if no pool is left and no call fails, and then no CSPI and no held claim remains |
| `TeardownOperator.Cluster.DeleteAll` | pkg/controllers/cspc-controller/sync.go:201-296 | the handler, then each pool-manager, then the handler again remove everything if no call fails |
| `ReplicaLifecycle.ReplicaController.CreateVolumeReplica` | pkg/controllers/replica-controller/handler.go:429-475 | when a zvol is created, with which id and quorum, and the status for every outcome of ZFS; a failure leaves zvol and phase |
| `ReplicaLifecycle.ReplicaController.CVRAddEventHandler` | pkg/controllers/replica-controller/handler.go:344-422 | imported, existing, to-be-created and offline replicas: id, zvol and status of each case; an existing zvol is never touched |
| `ReplicaLifecycle.ReplicaController.CVREventHandler` | pkg/controllers/replica-controller/handler.go:196-305 | the event switch with its failure phases; the finalizers go if and only if a destroy event has destroyed the zvol and could remove them, else the status is DeletionFailed; no other event takes a zvol away |
| `ReplicaLifecycle.ReplicaController.SyncHandler` | pkg/controllers/replica-controller/handler.go:85-194 | what is stored after an event; a blank status or a failed update stores nothing |
| `ReplicaLifecycle.FinalizerAfterZvol` | pkg/controllers/replica-controller/handler.go:236-265 | in every run a CVR loses its finalizers only when its zvol is destroyed, and no other event takes a zvol away |
| `ReplicaLifecycle.ZfsToCvrStatusMapper` | pkg/volumereplica/volumereplica.go:630-649 | which ZFS status leads to which phase, both directions; degraded and rebuilding replicas without quorum are new ones |
| `ReplicaLifecycle.ReplicaController.AddFunc` | pkg/controllers/replica-controller/controller.go:124-164 | only the phase changes, to a creating one; a new replica stays new and no other becomes new, so a zvol created next has quorum=on exactly if the replica was new before, or is a clone |
| `ReplicaLifecycle.ReplicaController.MarkCVRStatusToOffline` | pkg/controllers/replica-controller/handler.go:711-734 | only the phase changes; new replicas stay as they are, no other becomes new, and the add event of the next start gives the same result with and without it |
| `ReplicaLifecycle.MappedIsNotCreateStatus` | pkg/volumereplica/volumereplica.go:630-649 | no ZFS status maps to a phase in which the zvol would be created |
| `ReplicaLifecycle.TraceLeavesNew` | pkg/controllers/replica-controller/handler.go:344-475 | in every run the recorded phase never returns to blank or Init once it has left them |
| `ReplicaLifecycle.QuorumOnlyForNewReplicas` | pkg/volumereplica/volumereplica.go:319-359 | a zvol of a replica that is no clone is created with quorum=on if and only if no other phase was ever recorded |
| `ReplicaLifecycle.ScaledUpReplicaHasNoQuorum` | pkg/controllers/cstorvolumeconfig/volume_operations.go:841-895 | a replica created in phase Recreate never gets quorum=on |
| `ReplicaLifecycle.ReplicaIdIsFixed` | pkg/volumereplica/volumereplica.go:685-696 | a replica id that is set never changes |
| `ReplicaLifecycle.ZvolIdAgrees` | pkg/volumereplica/volumereplica.go:685-712 | zvol and CVR agree on the id in every run, also when the update recording it was lost |
| `Resize.CapacitiesInEveryRun` | pkg/controllers/cstorvolumeconfig/controller.go:616-671 | in every run CVC.status ≤ CV.status ≤ target ≤ CV.spec ≤ CVC.spec, and CVC.status = CVC.spec implies that all five agree |
| `Resize.OutstandingSizeIsKept` | pkg/controllers/cstorvolumeconfig/controller.go:628-671 | an outstanding CV.spec is never overwritten, and no capacity shrinks |
| `Resize.ResizeCompletes` | pkg/controllers/cstorvolumeconfig/controller.go:722-787 | from any intermediate state the controllers can carry the resize to the requested size |
| `Resize.Volume.ResizeCVC` | pkg/controllers/cstorvolumeconfig/controller.go:628-671 | an operator pass is a run of the steps; it writes CV.spec exactly with nothing outstanding and the size not reached, CVC.status exactly when the volume has the size |
| `Resize.Volume.ResizeCStorVolume` | pkg/controllers/volume-mgmt/handler.go:622-670 | a manager pass is a run of the steps; status changes exactly on success |
| `Backup.StepKeepsInv` | pkg/controllers/backup-controller/handler.go:103-208 | every step keeps the completed-backup records truthful |
| `Backup.DoneMeansTransferred` | pkg/controllers/backup-controller/controller.go:177-234 | in every run, with restarts and polling anywhere, a Done backup has a transferred snapshot |
| `Backup.DoneMeansOwnTransfer` | pkg/server/cstorvolumeconfig/v1_backup.go:61-94 | in runs in which no backup is created while the record names its snapshot or a worker carries an earlier object of its name, Done means the backup's own transfer succeeded |
| `Backup.FalselyDoneIff` | pkg/server/cstorvolumeconfig/v1_backup.go:61-118 | for every reachable state: a creation has a continuation in which the backup is Done without its own transfer if and only if the record names its snapshot or a worker still carries an earlier object of its name |
| `Backup.LateWorkerMarksNewBackup` | pkg/controllers/backup-controller/handler.go:103-128 | concrete run: a backup removed during its transfer and created again can be marked Done by the earlier worker |
| `Backup.ReusedNameIsReportedDone` | pkg/server/cstorvolumeconfig/v1_backup.go:96-118 | concrete run: with a recorded name a backup that never started can be reported Done |
| `BackupController.CreateVolumeBackup` | pkg/volumereplica/volumereplica.go:423-459 | succeeds if and only if one of the ten attempts does |
| `BackupController.Controller.SyncEventHandler` | pkg/controllers/backup-controller/handler.go:103-128 | for every outcome the status, the record and the transferred snapshots, and that nothing else changes; Done only after transfer and record |
| `BackupController.Controller.CleanupOldBackup` | pkg/controllers/backup-controller/controller.go:177-234 | every listed backup gets its final status: Done if it was, or was in progress with its snapshot among the last two of its record, else Failed; nothing else changes |
| `BackupController.Controller.RestGet` | pkg/server/cstorvolumeconfig/backup_endpoint.go:192-247 | a poll with the pool manager down settles an unfinished backup by its record, Done only for a transferred snapshot, also if the status cannot be stored |
| `BackupController.Controller.RestPost` | pkg/server/cstorvolumeconfig/backup_endpoint.go:103-189 | a new backup is pending, its record exists, and it builds on the last completed snapshot, which was transferred; a second one of the same name is refused |
| `BackupController.Controller.RestDelete` | pkg/server/cstorvolumeconfig/backup_endpoint.go:276-311 | the record goes exactly with the last completed backup or when it is empty; the backup goes if the snapshot could be deleted |
| `BackupController.Controller.AddEventHandler` | pkg/controllers/backup-controller/handler.go:93-100 | a pending backup goes to Init, any other to Invalid |
| `Placement.GetPolicyBasedPoolList` | pkg/controllers/cstorvolumeconfig/volume_operations.go:325-342 | exactly the pools named by the policy, each once |
| `Placement.GetUsablePoolList` | pkg/controllers/cstorvolumeconfig/volume_operations.go:537-589 | exactly the pools without a replica and, for a clone, with a source replica |
| `Placement.SanitizePoolList` | pkg/controllers/cstorvolumeconfig/volume_operations.go:607-618 | exactly the pools neither offline nor read-only |
| `Placement.RandomizePoolList` | pkg/controllers/cstorvolumeconfig/volume_operations.go:621-630 | the pools in the order of the permutation: the same pools, each once |
| `Placement.PrioritizedPoolList` | pkg/controllers/cstorvolumeconfig/volume_operations.go:593-602 | swaps the first pool of the node to the front, in place |
| `Placement.PrioritizedKeeps` | pkg/controllers/cstorvolumeconfig/volume_operations.go:593-602 | no pool is lost or doubled, and one on the node is in front if there is one |
| `Placement.Volume.DistributeCVRs` | pkg/controllers/cstorvolumeconfig/volume_operations.go:347-431 | replicas are created on the eligible pools one after the other until there are enough or one fails, and what was created stays; never too many, an eligible affinity pool first; fails without change if pools are too few or the policy does not fit |
| `Placement.PlacementOverRetries` | pkg/controllers/cstorvolumeconfig/volume_operations.go:347-431 | over any number of partly failed attempts with changing pools: never more than ReplicaCount, each replica on a pool eligible when it was created, success means exactly ReplicaCount |
| `Placement.AddReplicaPoolInfo` | pkg/controllers/cstorvolumeconfig/volume_operations.go:658-677 | the pool lists of the CVC at binding |
| `Placement.BoundVolumeIsInitial` | pkg/controllers/cstorvolumeconfig/controller.go:290-369 | a volume placed over any retries and then bound is an initial state of the scaling protocol |
| `NodeSelection.Config.SelectNode` | pkg/cspc/algorithm/select_node.go:39-83 | picks the first suitable spec among the first specs of unvisited nodes, marks exactly the nodes up to it, and fails if and only if there is none |
| `NodeSelection.SelectionCompleteIff` | pkg/cspc/algorithm/select_node.go:39-83 | whatever disjoint pools exist, a failure means that no unvisited spec is suitable, if and only if the first spec of each unvisited node asks for no device that a later one does without |
| `NodeSelection.SecondSpecForNodeIsHidden` | pkg/cspc/algorithm/select_node.go:59-78 | concrete input: with two specs for a node a suitable second one is never looked at |
| `NodeSelection.Config.ClaimBDsForNode` | pkg/cspc/algorithm/select_node.go:165-200 | succeeds if and only if all devices are bound to this CSPC, and requests claims for exactly the free ones before the first device of another owner |
| `NodeSelection.Config.CreateCSPI` | pkg/controllers/cspc-controller/scale.go:58-71 | one attempt: the nodes visited and the pools after it; a CSPI is created exactly if a spec is chosen, its devices are claimed and the creation succeeds, and shares no node and no device with another |
| `NodeSelection.Config.ScaleUp` | pkg/controllers/cspc-controller/scale.go:34-55 | one attempt for each pending pool, none of which is skipped; existing CSPIs stay and new ones share no node or device; with all devices claimed and no creation failing, either all pending pools are made or no first spec of a node is left suitable |
| `Snapshots.GetPeerSnapshotInfoList` | pkg/volumereplica/volumereplica.go:882-894 | exactly the peers' snapshots, each with what the first peer that has it tells |
| `Snapshots.Replica.AddOrDeleteSnapshotListInfo` | pkg/volumereplica/volumereplica.go:911-962 | the list becomes the ZFS names with earlier entries kept; fails if and only if the information of a new one is missing |
| `Snapshots.Replica.GetAndAddPendingSnapshotList` | pkg/volumereplica/volumereplica.go:817-857 | pending becomes exactly the peers' names the replica does not have |
| `Snapshots.Replica.GetAndUpdateSnapshotInfo` | pkg/volumereplica/volumereplica.go:768-811 | a successful pass from any start: snapshots are the ZFS names, pending is exact while rebuilding, with the peers' information for new names, empty online, and disjoint from snapshots |
| `PropertyCache.Cache.SetPoolFSPropertiesIfNot` | pkg/pool/operations/property.go:50-108 | the cache stays coherent with ZFS; when the call succeeds, and how many commands it issues: one for each property the cache does not vouch for and one if any differs; a failing call changes no property |
| `PropertyCache.Cache.SetTwice` | pkg/pool/operations/property.go:50-108 | an immediate repeat of a successful call issues no command |

## Left out

- `ScaleDown.StepKeepsTracked`: excludes edits of a pending change that `ScaleDownEdits` proves harmful and shrinking edits unless all replicas are registered with RF = DRF, which the factors need; assumes that registrations come from live CVRs with distinct ids, CF = RF/2+1 and RF ≤ DRF; the webhook and the server check none of this. Re-adding a pool early is not excluded.
- `ScaleDownRecovery.StuckForever`: edits that name another pool for removal once the factor is lowered are not allowed edits; the webhook admits them, and one would end the stuck state.
- `ScaleDownEarly.EarlyShrinkDeletesKnownIff`: continuations with further edits are not considered.
- `ReplacementTheorems.ReplacementInEveryRun`: for runs with marks in order (`Replacement.Benign`), non-striped pools without write-cache groups, groups of at least two devices, and no other owner touching the claims; the operator and the cleanup walk data groups only.
- `ReplacementTheorems.AdmitKeepsInv`: leftover annotations that put the marks out of order are excluded even where no device in use can lose its claim; `ReplacementRelease` covers those for edits stored as a whole.
- `ReplacementTheorems.RunKeepsInv`: the same.
- `ReplacementTheorems.ClaimReleasedOnlyWhenReplaced`: the same; the pool topology is an input of each step and may change arbitrarily in between. Removing the claim's finalizer and deleting the claim are one step.
- `ReplacementRelease.CarefulEditsFreeNothing`: annotating and storing an edit is one step there; interleaved reviews are covered by `ReplacementTheorems` and `ReplacementExact`.
- `PoolManager.Manager.Update`: write-cache groups, device-link updates and events are not modelled; a device has one path, its name; the lookup of a vdev by path in the dump is an input, because it is not part of this repository.
- `PoolExpansion.NothingAddedTwice`: assumes that no two devices of the CSPI share a link and that links are not empty.
- `Teardown.StepKeepsInv`: pool-managers and the operator each run one worker per object, and the devices of a CSPI being deleted do not change; write-cache groups are not cleaned up by the code and not modelled; whether the claims left over are deleted afterwards is not modelled.
- `Resize.CapacitiesInEveryRun`: requests only grow, and the operator's copy of the CVC is not older than what it has already acted on.
- `ReplicaLifecycle.QuorumOnlyForNewReplicas`: clones are excluded, because the clone command always asks for the quorum.
- `Backup.DoneMeansTransferred`: v1alpha1 records and mixed-version deletion are not modelled; object names are pairs of volume and snapshot, not their concatenation; a terminal status may still be overwritten by a late write.
- `Placement.PlacementOverRetries`: ReplicaCount and policy are fixed over the retries and policy names are distinct.
- `NodeSelection.Config.SelectNode`: resolving node selectors is an input.
- `PropertyCache.Cache.SetPoolFSPropertiesIfNot`: assumes that these properties are written only here and that a failed set changes nothing.
- Growth of striped groups on the CSPI, pool scale-down and orphan detection.
- Pod disruption budgets, deployments, services, labels, policies, version upgrades and webhook configuration.
- API clients, informers, work queues, HTTP and gRPC servers, events and logging; API failures are inputs of the methods.
- Building and running zpool, zfs and istgt commands; their results are inputs.
- Restore status aggregation, raidz count checks and capacity formatting.
