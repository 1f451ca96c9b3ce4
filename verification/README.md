# A verified model of the disk-backup protocol and its surroundings

The system runs virtual machines on a fleet. One **agent** per host owns the VM records,
their disks and their backups; one **controller** places environments on hosts, forwards
requests to agents and keeps its own rows of every VM from the agents' snapshots. This project
models the parts in which durable intent, crashes, lost replies and shared capacity meet, and
proves what the code promises about them.

## How the project is organised

| file | what it models |
|---|---|
| `Model.dfy` | records, machine integers, reservations and accounting |
| `BackupRecord.dfy` | the durable backup record: replay, admission, publication, cleanup |
| `StorageModel.dfy`, `StorageContext.dfy` | snapshots, reflink directories and the restartable storage operations on them |
| `StorageWork.dfy` | the storage work of one worker |
| `BackupRun.dfy`, `BackupGuarantees.dfy` | whole runs of the backup protocol of one VM, and what they guarantee |
| `Table.dfy`, `Network.dfy` | the table of records, guest addresses and host ports |
| `HostRun.dfy`, `HostGuarantees.dfy` | whole runs of one agent, and what they guarantee |
| `Runtime.dfy`, `Handler.dfy` | the agent's operations and backup workers as methods that refine those runs |
| `Observation.dfy` | merging of snapshots |
| `Ledger.dfy`, `Controller.dfy` | what may happen to the controller's rows over whole traces; forwarded intent and environment operations as methods that refine those traces |
| `Scheduler.dfy` | sizing, placement and the committed plan |

Four ideas carry the proofs.

*Runs are sequences of durable steps.* A crash may fall between any two steps, so an invariant
of all steps is an invariant of every state from which recovery can start. `BackupRun` follows
one VM through claims, admissions, storage work, crashes, surviving storage children, cleanup,
lifecycle changes and destruction; `HostRun` follows the whole table of one agent. The class
`Runtime` keeps the trace of its own saves as ghost state and every method proves that it only
appends legal steps; `Handler` does the same for the protocol of one VM, for backups as for the
deletion of the VM, and `Ledger` and `Controller` for the rows of the controller.
`HostGuarantees` links host and protocol by showing that every save of a lifecycle operation,
observation or deletion, and every guest that boots or ends, is a permitted step of the VM's
backup protocol.

*Storage operations are specified on every exit.* Each command may fail before or after taking
effect, and a postcondition that holds on every exit also describes what a crash leaves behind.
A flag marks attempts in which nothing fails; for these the contracts say exactly when the
operation succeeds.

*Methods are proved against record functions, and record functions against statements of their own.*
What an operation saves is one function of the stored record, shared by the method and the steps of
the runs. Lemmas named `…Exactly` and `…Saves`, and the clauses of the contracts that spell out
fields and conditions, say what these functions accept and compute without calling them.

*The controller is judged against the agent.* A snapshot is called genuine if it tells of the
admissions of a run in their order; every record saved in a run is genuine, and the merge is
proved to reach the latest genuine state whatever the order of delivery.

## What the proofs found

* A crash between creating the temporary owner file of a new artifact directory and renaming it
  leaves a directory that is neither empty nor owned. No later attempt adopts or removes it, so
  an interrupted creation or restore converges exactly if its directory is new, empty or owned
  (`PrepareDirectory`, `TornAdoptionNeverConverges`, `InterruptedRestoreConverges`). A stray temporary file next to
  the manifest blocks only the later removal (`StrayFilesBlockOnlyRemoval`).
* The recovery point may be missing not only while a backup deletion is pending, but also while
  an interrupted deletion of the VM waits to be resumed
  (`InterruptedDestructionLosesTheRecoveryPoint`).
* If creation fails after cloning and before growing the disk, the failed VM can be stopped and
  then counts as an ordinary stopped VM whose clone is smaller than recorded
  (`FailedCreationLeavesAShortDisk`; `CreateVm` states exactly when). A resource update to the recorded size with unchanged CPU
  and memory reports success without growing it (the settled case of `Runtime.ResizeVm`); any
  update that is carried out repairs it (`FullDiskStaysFull`).
* A start or stop writes back the rows it read when it began. A resource target that the
  controller first learns of from an agent while such an operation runs is written away by its
  confirmation, although nothing showed it complete (`LearnedTargetIsDropped`); exactly the
  targets that were on the row when the operation began are kept (`ChangeKeepsTargetsItRead`).
  A target that the controller itself stores is never lost, because its operation excludes
  starts and stops (`RecordedTargetIsNeverLost`).
* A base image listed with size zero would be placed by neither side alike; the agent never
  lists that size (`BothSidesSizeAlike`).

The comment on `vm_ip` speaks of indices up to 65534; the code repeats addresses and hits the
bridge from index 65023 on, and the proofs follow the code.

## Model

| member | source | states |
|---|---|---|
| `Model.SatFoldIsCappedSum` | crates/core/src/backup.rs:145-159 | The saturating fold over all generations is the true sum of their sizes, capped at the 32-bit maximum. |
| `Model.ReservationIsCappedSum` | crates/core/src/model.rs:237-249 | The reservation reported for a VM differs from the true sum of disk, pending target, backups and forwarded reservation only by that cap. |
| `Model.ReservationHoldsTheRoot` | crates/core/src/backup.rs:87-89 | A generation reserves the fewest MiB that hold its root, or the 32-bit maximum if these do not fit 32 bits. |
| `Model.ConfigurationTakesFourMib` | crates/core/src/model.rs:269-276 | Exactly a Firecracker guest with files or a bootstrap account has a configuration disk, of 4 MiB. |
| `BackupRecord.ReplayExactlyTheLastReceipt` | crates/core/src/backup.rs:170-195 | For each of the six outcomes of the replay check, the exact condition on request, last receipt, pending request and revision: exactly the last completed request is answered from its receipt, and a request goes on exactly if it is the pending one or, with nothing pending, names the present revision with an unspent operation. |
| `BackupRecord.FinishedRequestIsReplayedOrRetried` | crates/agent/src/backup.rs:259-329 | After publication the same request is replayed if it succeeded or was a creation, and stays retryable if it was a failed restore or deletion; the receipt is free of errors exactly after a success and otherwise carries the error of the failed creation. |
| `BackupRecord.ReservationCountsCopies` | crates/core/src/backup.rs:145-159 | In a consistent record the backup reservation is a whole number of root disks, one per generation and one for a pending artifact. |
| `BackupRecord.BackupsReserveAtMostFourRoots` | crates/core/src/backup.rs:145-159 | At most three retired generations, at most four copies, and a reservation of at most four root disks. |
| `BackupRecord.AdmissionKeepsRecord` | crates/agent/src/backup.rs:178-257 | Admission keeps the record consistent (names distinct, sizes equal to the root, retirement bounded) and raises the reservation by at most the free disk that was checked. |
| `BackupRecord.FinishKeepsRecord` | crates/agent/src/backup.rs:259-329 | Publication keeps the record consistent for every action and result, and never raises the reservation. |
| `BackupRecord.CleanupKeepsRecord` | crates/agent/src/backup.rs:331-358 | Recording a cleanup pass keeps the record consistent and never raises the reservation. |
| `BackupRecord.FinishForgets` | crates/agent/src/backup.rs:259-329 | The only names that publication drops are removed ones, an unused staging name, and those of a completed deletion; nothing else falls out of tracking. |
| `BackupRecord.FinishOrigins` | crates/agent/src/backup.rs:259-329 | Publication invents no artifact: every tracked generation was tracked before or is the artifact of the pending operation. |
| `BackupRecord.ClaimableExactly` | crates/agent/src/backup.rs:101-152 | A worker may claim a VM exactly for a request that goes on, while row and engine say that the VM is stopped, without a resource target, on a host that designs for it and, for a new creation, admits and supports it. |
| `BackupRecord.AdmittedExactly` | crates/agent/src/backup.rs:178-253 | A new request is admitted exactly if the stopped VM has the inspected capacity, the disk is free, fewer than two generations are retired (creation), or no staging is left and the named generation is the current one with the inspected size and boot files (restore). |
| `BackupRecord.AdmissionSaves` | crates/agent/src/backup.rs:218-256 | Admission saves the request with an artifact of the inspected size, backend and boot files under the drawn names and the next sequence number, and nothing else; a pending request changes nothing. |
| `BackupRecord.PublishableExactly` | crates/agent/src/backup.rs:259-329 | Publication is refused exactly without the intent, for another request, or for a creation without artifact. |
| `BackupRecord.PublicationSaves` | crates/agent/src/backup.rs:269-326 | A receipt for exactly this request and time is written for every success and for a failed creation, with the error exactly if the work failed; a failed restore or deletion stays pending with its error and leaves the last receipt alone. |
| `BackupRecord.PublicationRetires` | crates/agent/src/backup.rs:269-326 | Creation retires the generation it replaces, or its own artifact if it failed; restore drops exactly the removed ones, keeps its staging and resets SSH readiness; deletion drops all; failures otherwise change nothing. |
| `BackupRecord.PublicationResetsCleanup` | crates/agent/src/backup.rs:307-311 | The bookkeeping of cleanup starts over exactly when a success leaves nothing retired. |
| `BackupRecord.CleanupSaves` | crates/agent/src/backup.rs:331-358 | A pass forgets exactly the removed generations, never the current one; a failure is shown, counted and delays the next pass by the backoff, a success clears all three. |
| `BackupRecord.PausesDouble` | crates/agent/src/backup.rs:343-352 | The pause after failures starts at 15 seconds and doubles up to 960. |
| `BackupRecord.CleanableExactly` | crates/agent/src/backup.rs:136-144 | Cleanup may claim the VM exactly if nothing is pending and the pause is over. |
| `BackupRecord.ForgettingKeepsHistory` | crates/agent/src/runtime.rs:699-702 | Deletion of the VM drops the names of the artifacts and keeps receipt, sequence and revision. |
| `StorageContext.Context.AtomicWrite` | crates/core/src/storage/backup.rs:587-594 | A failed atomic write leaves the directory as it was, complete, or with a stray temporary file, and nothing else changed. |
| `StorageContext.Context.Verify` | crates/core/src/storage/backup.rs:253-290 | Success means that the artifact is authentic: a snapshot with the mark of this VM and generation and the recorded GUID, or an owned directory whose disk and manifest agree with the generation, with each other and with the recorded identity; without failures verification succeeds exactly then, and it reports the identity found. |
| `StorageContext.Context.PrepareDirectory` | crates/core/src/storage/backup.rs:306-334 | Only a new, empty or own directory is adopted; a foreign one is left untouched; without failures adoption succeeds exactly for a missing directory, one without any content, and one owned for this VM and generation. If the crash falls between the temporary owner file and its renaming, a new directory is left holding nothing but a stray file. |
| `StorageContext.Context.Create` | crates/core/src/storage/backup.rs:336-381 | On every exit the active disk is unchanged and only the named artifact differs; anything is changed or reported only on the very disk that was admitted, with its capacity and boot files; success means the artifact verifies and holds the disk's content; a healthy attempt succeeds exactly if disk, witness and staging allow it, after any earlier interruption. |
| `StorageContext.Context.SwapIn` | crates/core/src/storage/backup.rs:399-439 | Staging, manifest, rename: on every exit the active disk is wholly the old content or wholly the source, the source is untouched, and what is left can be resumed. |
| `StorageContext.Context.RestoreDisk` | crates/core/src/storage/backup.rs:383-439 | The same for both backends; storage changes only if the source is authentic and has the size and boot files of the disk, and the active disk changes only if it is the one that was admitted; a healthy attempt after any number of interrupted ones succeeds exactly if source, capacity, boot files and staging allow it. |
| `StorageContext.Context.PrepareRestore` | crates/core/src/storage/backup.rs:443-468 | The loop removes only retired snapshots of this VM newer than the source, reports exactly the removed ones, and when healthy succeeds exactly if all newer ones may go. |
| `StorageModel.RollbackPreparationIsSafe` | crates/core/src/storage/backup.rs:443-468 | However preparation ends, a snapshot is gone only if it is newer than the source, retired and authentic, down to its GUID; source, older and foreign snapshots survive; on success the source is the newest snapshot. |
| `StorageModel.PrepareLosesOnlyRetired` | crates/core/src/storage/backup.rs:443-468 | Preparation leaves disk, boot files and directories alone, creates nothing, and the reported names are gone. |
| `StorageModel.VerifiesExactlyTheAuthentic` | crates/core/src/storage/backup.rs:253-290 | Verification accepts exactly the authentic artifact and reports it under its GUID or file identity. |
| `StorageModel.SacrificableExactly` | crates/core/src/storage/backup.rs:443-468 | With distinct retired generations, exactly the retired and authentic snapshots can be sacrificed for a restore. |
| `StorageModel.RemovableExactly` | crates/core/src/storage/backup.rs:470-512 | An artifact can be removed exactly if it is absent, authentic, or a directory that is empty or owned for the generation without unknown files, whose disk is authentic where its identity is recorded. |
| `StorageContext.Context.Remove` | crates/core/src/storage/backup.rs:470-512 | Removal touches one artifact; success means it is absent; a healthy attempt succeeds exactly if the artifact is absent or verifiably ours. |
| `StorageWork.RemoveInOrder` | crates/agent/src/handler.rs:451-455 | Removal in order loses only the given artifacts; success means all of them are absent; if nothing fails it succeeds exactly if every artifact is absent, empty or verifiably ours. |
| `StorageWork.CleanRetired` | crates/agent/src/handler.rs:488-503 | A cleanup pass removes nothing unless the recovery point is on storage and authentic; it loses only retired artifacts, every reported name is absent, without a failure every retired name is reported, and if nothing fails it reports no failure exactly if the recovery point verifies and every retired artifact is removable. |
| `StorageWork.PerformPending` | crates/agent/src/handler.rs:433-459 | The branch over the three actions has the effect that the protocol allows for the admitted record, whatever fails; if nothing fails it succeeds exactly if storage is ready: for creation and restore on both backends, and for deletion. |
| `BackupRun.StepKeeps` | crates/agent/src/backup.rs:101-391 | Every step of claim, inspection, admission, storage work, publication, release, crash, surviving child, cleanup, lifecycle, observation, guest write and destruction keeps the protocol invariant. |
| `BackupRun.AdmitKeeps` | crates/agent/src/backup.rs:178-257 | Durable admission keeps tracking, log and contents consistent. |
| `BackupRun.WorkKeeps` | crates/agent/src/handler.rs:433-459 | Storage work, complete or cut short, keeps artifacts tracked and contents faithful. |
| `BackupRun.FinishKeeps` | crates/agent/src/backup.rs:259-329 | Publication keeps the invariant for every result. |
| `BackupRun.OrphanEndsKeeps` | crates/agent/src/backup.rs:369-390 | A storage child that outlives the agent may still do its work without breaking the invariant. |
| `BackupGuarantees.RecoveryPointIsTheAdmittedDisk` | crates/agent/src/handler.rs:381-481 | Over every run: the published recovery point holds what the active disk held when the creation that made it was admitted. |
| `BackupGuarantees.CompletedRestoreYieldsTheNamedGeneration` | crates/agent/src/handler.rs:381-481 | Over every run: a completed restore leaves the active disk equal to the content captured by the creation of the generation that the request names. |
| `BackupGuarantees.ActiveDiskIsWholeWhilePending` | crates/core/src/storage/backup.rs:383-439 | While an operation is pending the guest is off and the active disk is wholly the admitted content or wholly the source. |
| `BackupGuarantees.NoRequestIsAdmittedTwice` | crates/agent/src/backup.rs:178-257 | No two admissions share a request, an expected revision or an artifact name. |
| `BackupGuarantees.SequenceCountsAdmissions` | crates/agent/src/backup.rs:246-253 | The stored sequence number is the number of admissions in the run. |
| `BackupGuarantees.AdmittedRequestsAreSpent` | crates/core/src/backup.rs:170-195 | An admitted request that is no longer pending can never be claimed again. |
| `BackupGuarantees.ReplayIsTheLastAdmission` | crates/core/src/backup.rs:170-195 | A replayed request is the last one admitted. |
| `BackupGuarantees.ReceiptsTellTheOutcome` | crates/agent/src/backup.rs:259-329 | Over every run, the last result of a record stems from earlier storage work for exactly that request, published at exactly that time; it is free of errors exactly if that work succeeded, and otherwise carries the error in which it ended. |
| `BackupGuarantees.LogOrigin` | crates/agent/src/backup.rs:178-257 | Every admission on record has its admission step in the run, with the disk content of that moment. |
| `BackupGuarantees.WritersAreExcluded` | crates/agent/src/backup.rs:360-367 | Over every run: while a worker holds the VM there is no lifecycle change and no step of a deletion; while an operation is pending there is no lifecycle change; and until deletion begins the guest is off and writes nothing while an operation is pending or a worker prepares or performs one. |
| `BackupGuarantees.ImageRemovalIsFenced` | crates/agent/src/runtime.rs:690-726 | Over every run: from the removal of the disk image on, the engine is off, no storage child survives that could write or remove, every artifact is gone, and the disk is not written; no worker holds the VM at that moment. |
| `BackupGuarantees.ArtifactsAreTracked` | crates/agent/src/backup.rs:259-358 | In every reachable state each artifact on storage is tracked under a distinct name, and the recovery point is there, authentic and under its recorded identity, unless a backup deletion is pending or the VM is being deleted. |
| `BackupGuarantees.InterruptedDestructionLosesTheRecoveryPoint` | crates/agent/src/backup.rs:369-390 | The second exemption is needed: from every idle state with a recovery point, an interrupted deletion loses its artifact with no backup deletion pending. |
| `BackupGuarantees.InterruptedRestoreConverges` | crates/core/src/storage/backup.rs:383-468 | After any interruptions of a pending restore, the next attempt is ready exactly if the boot files are the retained ones and the staging directory can be adopted; for volumes, exactly if the boot files are the retained ones and every newer snapshot may be sacrificed. |
| `BackupGuarantees.InterruptedCreationConverges` | crates/core/src/storage/backup.rs:336-381 | The same for an interrupted creation. |
| `BackupGuarantees.TornAdoptionNeverConverges` | crates/core/src/storage/backup.rs:306-334 | The condition is needed: a crash inside the first write of the owner file (one that `PrepareDirectory` can meet) leaves a directory that no later attempt adopts or removes. |
| `BackupGuarantees.StrayFilesBlockOnlyRemoval` | crates/core/src/storage/backup.rs:587-594 | A stray temporary file beside the manifest does not stop a restore but stops removal. |
| `Table.ResourcesFor` | crates/agent/src/runtime.rs:910-921 | The recount loop computes the accounting fold over the table, which `RecountIsCappedSum` shows to be the capped true sums. |
| `Table.RecountIsCappedSum` | crates/core/src/model.rs:584-596 | Recounted CPU is the true sum over all VMs that are not stopped, memory the same sum with 128 MiB more per Firecracker guest, disk the true sum of reservations and the count the number of records, each capped at the 32-bit maximum; the totals stay. |
| `Table.LoadSaved` | crates/agent/src/runtime.rs:1140-1148 | Saving replaces or adds the record of that name and no other. |
| `Table.LoadDeleted` | crates/agent/src/runtime.rs:1203-1207 | Deletion removes the record of that name and no other. |
| `Network.AddressesRepeatOnlyByPeriod` | crates/core/src/net.rs:34-39 | Two indices share an address exactly if they lie a multiple of 65024 apart. |
| `Network.AddressesAreUsable` | crates/core/src/net.rs:31-39 | No guest address ends in 0 or 255, and every block number fits an octet. |
| `Network.BridgeIsHitOnlyByPeriod` | crates/core/src/net.rs:34-39 | The bridge address is hit exactly by indices one below a multiple of 65024, the first being 65023. |
| `Network.Pigeonhole` | crates/agent/src/runtime.rs:293-302 | If the first n addresses are all used then at least n addresses are used. |
| `Network.FindAddress` | crates/agent/src/runtime.rs:293-302 | The search returns the first unused address, never the bridge, and cannot fail with fewer than 65000 records. |
| `Network.AllocatePorts` | crates/agent/src/runtime.rs:947-969 | Allocation succeeds exactly if the range holds as many free available ports as there are distinct guest ports; its keys are the requested set, its values distinct, in range and unused. |
| `HostRun.StepKeeps` | crates/agent/src/runtime.rs:163-840 | Every durable step of creation, boot, start, stop, resize, observation, deletion and backup keeps names, budget, addresses, ports, records and capacities consistent, and guests with an unfinished target off. |
| `HostRun.ReserveKeeps` | crates/agent/src/runtime.rs:284-336 | Reserving a new VM keeps the budget and the uniqueness of addresses and ports. |
| `HostRun.IntentFits` | crates/agent/src/runtime.rs:616-651 | Recording a resize target reserves at most what the capacity check left free, also when backups exist. |
| `HostRun.ResizeEndKeeps` | crates/agent/src/runtime.rs:668-676 | Completing a resize keeps records, sizes and budget. |
| `HostRun.RecountIsExact` | crates/agent/src/runtime.rs:851-862 | Within the budget nothing saturates: the recount is the true sum. |
| `HostRun.PowerSaves` | crates/agent/src/runtime.rs:488-566 | What a confirmed stop, a failed stop and the two ends of a start change in the record: state, error and readiness, and nothing else. |
| `HostRun.ResizeSaves` | crates/agent/src/runtime.rs:647-674 | A recorded target changes nothing else until it is complete, and then exactly what it names, leaving a root of exactly the target size. |
| `HostGuarantees.DiskBudgetHolds` | crates/core/src/model.rs:584-596 | Over every run the reservations of all records together stay within the host's disk, the recount equals their true sum, and publication never raises it. |
| `HostGuarantees.ReservationPerVmIsBounded` | crates/core/src/backup.rs:145-159 | Over every run each tracked generation has the VM's root size, and backups reserve at most four roots. |
| `HostGuarantees.AddressesAreDistinct` | crates/agent/src/runtime.rs:293-302 | Over every run different VMs other than containers have different addresses, none the bridge's. |
| `HostGuarantees.AddressesNeverRunOut` | crates/agent/src/runtime.rs:290-302 | Over every run, below the VM limit some address in the searched range is unused. |
| `HostGuarantees.HostPortsAreUnique` | crates/agent/src/runtime.rs:947-969 | Over every run a host port belongs to one guest port of one VM and lies in the configured range. |
| `HostGuarantees.RecordedRootNeverShrinks` | crates/agent/src/runtime.rs:572-677 | Over every run the recorded root of a VM never shrinks while its record exists. |
| `HostGuarantees.TargetIsClearedOnlyByCompletion` | crates/agent/src/runtime.rs:572-677 | Over every run a recorded resize target disappears only by completing exactly that CPU, memory and disk. |
| `HostGuarantees.LiveGuestsAreNotReshaped` | crates/agent/src/runtime.rs:600-667 | Over every run, a guest with an unfinished target is off, a target is recorded only while the guest is off, and neither recorded CPU, memory and disk nor the size of the clone ever change under a live guest. |
| `HostGuarantees.GuestStaysOffUntilCompletion` | crates/agent/src/runtime.rs:507-516 | Over every run, from the moment a target is recorded until exactly it is completed, the guest stays off. |
| `HostGuarantees.PhysicalRootIsReserved` | crates/agent/src/runtime.rs:644-666 | Over every run the clone is never larger than the reserved root. |
| `HostGuarantees.FullDiskStaysFull` | crates/agent/src/runtime.rs:385-409 | A successful creation or completed resize leaves the clone with the recorded capacity, and it never falls behind again while record and image exist. |
| `HostGuarantees.FailedCreationLeavesAShortDisk` | crates/agent/src/runtime.rs:401-407 | Otherwise it may fall short: a concrete run leaves a stopped VM whose clone is smaller than recorded (`CreateVm` states exactly when). |
| `HostGuarantees.GuardedVmIsLeftAlone` | crates/agent/src/backup.rs:360-367 | Over every run, from claim to release and from admission until the operation settles, no creation, boot, power or resize step touches the VM; deletion does not begin under a worker; at most two workers run. |
| `HostGuarantees.LifecycleStepsRefineTheProtocol` | crates/agent/src/runtime.rs:474-677 | Every creation, power and resize save of the host and every boot of a guest is a permitted lifecycle step of the VM's backup protocol, with the same guest running. |
| `HostGuarantees.ExitRefinesTheProtocol` | crates/agent/src/runtime.rs:474-505 | A guest that ends, by itself or stopped by the agent, is the guest of the protocol that stops. |
| `HostGuarantees.ObservationStepsRefineTheProtocol` | crates/agent/src/runtime.rs:742-840 | Every save of an observation is a permitted step of the backup protocol. |
| `HostGuarantees.DeletionRefinesTheProtocol` | crates/agent/src/runtime.rs:679-739 | Each of the five saves and removals of a deletion is the corresponding step of the VM's backup protocol, with the guest off before anything is removed, provided artifacts are gone before the record forgets them and the image before the record goes. |
| `Runtime.Runtime.Recount` | crates/agent/src/runtime.rs:851-862 | The usage becomes the accounting fold over the table under the configured totals: by `RecountIsCappedSum` the capped true sums. |
| `Runtime.Runtime.CreateVm` | crates/agent/src/runtime.rs:163-411 | An invalid request and one that the host does not offer are refused and change nothing; a retry returns the record exactly if guard, parameters and state allow it and changes nothing; a new VM is refused, in order, for image, size, capacity, VM limit or ports and then nothing is saved; otherwise it is reserved, and reported exactly if every needed command succeeds: it then runs at the computed size with its ports published and a full clone. The clone left behind is smaller than recorded exactly if growing it was cut short. Address exhaustion cannot occur; no other record changes. |
| `Runtime.Runtime.RetriesExactly` | crates/agent/src/runtime.rs:213-239 | A stored VM answers a request exactly if no backup or worker guards it, every parameter and option agrees, and it neither failed nor is being deleted; the answer is the record. |
| `Runtime.Runtime.PlacesExactly` | crates/agent/src/runtime.rs:249-312 | A new VM is reserved exactly if its image exists and can be sized, CPU, memory (128 MiB more for Firecracker) and disk fit, fewer than 1000 VMs exist, and there are as many free ports as published ones. |
| `Runtime.PublishesExactly` | crates/agent/src/runtime.rs:303-309 | Published are the requested ports and, for an engine with a system of its own or a bootstrap account, SSH. |
| `Runtime.Runtime.BuildsExactly` | crates/agent/src/runtime.rs:340-400 | Engine by engine, which commands creation needs, and which clone it leaves. |
| `Runtime.Runtime.Reserve` | crates/agent/src/runtime.rs:293-339 | Identity, address, ports and disk are saved before any external effect, or nothing is saved. |
| `Runtime.Runtime.Build` | crates/agent/src/runtime.rs:374-399 | Cloning and growing are steps of the host; reported success means the clone has the recorded capacity; on every exit the clone has exactly the size that the commands reached. |
| `Runtime.Runtime.StartVm` | crates/agent/src/runtime.rs:507-569 | Each refusal leaves everything alone; otherwise the start is saved before the engine is asked and its outcome afterwards, and the guest may run from the moment the engine is told to boot it. |
| `Runtime.Runtime.StartsExactly` | crates/agent/src/runtime.rs:507-533 | A start begins exactly for a stopped VM that fits or a paused one, without target, backup in progress or worker; it is answered at once exactly for a running one under the same conditions. |
| `Runtime.Runtime.StopVm` | crates/agent/src/runtime.rs:474-505 | Each refusal leaves everything alone, a stopped VM stays as it is, and otherwise the guest has ended before the confirmed stop is saved, or the failed stop is saved. |
| `Runtime.Runtime.ResizeVm` | crates/agent/src/runtime.rs:572-677 | Unless the engine confirms that the guest is off, the update fails and leaves everything alone, and so does each other refusal; a settled target changes nothing; a failed storage command leaves the recorded intent and the reached capacity; success shows exactly the target on record and disk. |
| `Runtime.Runtime.ResizesExactly` | crates/agent/src/runtime.rs:572-643 | An update is admitted exactly if row and engine say that the guest is off, no backup in progress, worker or artifact of another size is in the way, the engine can be resized, the target is positive and new or the recorded one, nothing shrinks or overflows, and the host has room for what it adds. |
| `Runtime.Runtime.DestroyVm` | crates/agent/src/runtime.rs:679-739 | For every combination of failures: which record is left, whether the image is gone, what became of the backups and what is reported. A worker in this process refuses the deletion; a taken lock leaves artifacts and image alone; the image goes only after the engine stopped and every tracked artifact is absent; success removes the record and no other; if nothing fails, backups are cleared exactly if all of them are removable. |
| `Runtime.DeletionLeaves` | crates/agent/src/runtime.rs:679-739 | The record goes exactly if every part of the deletion succeeded; otherwise it stays in deletion, names its backups exactly until they are cleared, and shows an error exactly if the engine could not be stopped or, after the backups, network or image could not be removed; the image goes only after the backups. |
| `Runtime.Runtime.DeleteBackups` | crates/agent/src/backup.rs:369-390 | Everything the record tracks is removed under the worker lock, or the deletion fails having lost nothing else; without the lock nothing is touched; if nothing else fails it succeeds exactly if every artifact is removable. |
| `Runtime.Runtime.Look` | crates/agent/src/runtime.rs:742-838 | The scan computes the observed state, readiness, error and network flag. |
| `Runtime.ScanSeesTheEngine` | crates/agent/src/runtime.rs:750-777 | A live guest is recorded as seen; without one a record in creation fails, a failed one stays failed, and any other takes the engine's answer, so that a running record of a stopped engine becomes stopped; without an answer the state stays. |
| `Runtime.ScanExplains` | crates/agent/src/runtime.rs:750-814 | The error that a scan records, in every case of answer, recovery, earlier error and state. |
| `Runtime.ScanProbesReadiness` | crates/agent/src/runtime.rs:815-837 | Readiness needs a running guest that can be reached and has shown its identity, now or before; observation after a restore ends exactly with readiness. |
| `Runtime.ScanSetsUpTheNetwork` | crates/agent/src/runtime.rs:784-806 | What is known about the network changes exactly by setting it up again for a live guest that needs it. |
| `Runtime.UnresolvedErrorsSurvive` | crates/agent/src/runtime.rs:742-838 | Unresolved errors of other operations survive a scan except in the three stated cases; a live guest without network is never shown as healthy; readiness implies a running, reachable, identified guest. |
| `Runtime.Runtime.ReconcileVm` | crates/agent/src/runtime.rs:742-840 | A missing record stays missing; a record under deletion ends exactly as `destroy_vm` leaves it; for any other exactly the observed record is saved, and storage is untouched. |
| `Runtime.Runtime.Reopen` | crates/agent/src/runtime.rs:75-88 | After a restart workers are gone and exactly the live guests without an error await network recovery. |
| `Runtime.RestartAwaitsTheNetwork` | crates/agent/src/runtime.rs:75-88 | Exactly a live guest with a network of its own and without error is marked, and nothing else of it changes. |
| `Runtime.Runtime.BackupClaim` | crates/agent/src/backup.rs:101-152 | Every refusal in order, at most two workers and one per VM; a claim changes only the set of workers. |
| `Runtime.Runtime.BackupRelease` | crates/agent/src/backup.rs:154-156 | Exactly this worker is gone. |
| `Runtime.Runtime.BackupSettled` | crates/agent/src/backup.rs:158-176 | Settled exactly if no worker runs and the request is not pending; then the present sequence number, or zero for a missing VM. |
| `Runtime.Runtime.BackupAdmit` | crates/agent/src/backup.rs:178-257 | The sequence of checks and updates computes the admission function under the recounted free disk, saves its result, and changes nothing on refusal. |
| `Runtime.Runtime.BackupFinish` | crates/agent/src/backup.rs:259-329 | Publication follows the record function and never raises the sum of reservations. After a success or a failed creation nothing is pending and the receipt names exactly this request, this time and the error, if there was one; after a failed restore or deletion the last receipt is as before and the request stays pending with the error. |
| `Runtime.Runtime.BackupCleanupFinish` | crates/agent/src/backup.rs:331-358 | The updates compute the cleanup record, refusing to forget the current generation. |
| `Handler.RunBackup` | crates/agent/src/handler.rs:381-481 | The last completed request is answered from its receipt and touches nothing, and the answer is a success exactly if the earlier work for this request, which is in the history, succeeded, and otherwise the error in which it ended; a refusal is the claim's and touches nothing; any other outcome is a sequence of protocol steps; the claim is given back on every exit; undisturbed, on either backend, an admissible request completes exactly if nothing on storage stands in its way, which for a new creation and for a new restore on reflinked storage is always so. |
| `Handler.AdmitLocked` | crates/agent/src/handler.rs:416-432 | Inspection and admission under the lock are the corresponding protocol steps; undisturbed, an admissible or exactly repeated request is let through. |
| `Handler.Perform` | crates/agent/src/handler.rs:432-477 | Storage work and publication are two protocol steps; success is reported exactly if the work succeeded, and if nothing fails exactly if nothing on storage stands in the way, after any earlier interruptions. |
| `Handler.PublicationIsAStep` | crates/agent/src/backup.rs:259-329 | Publication by a worker cannot be refused: its intent is still pending and its result answers it. |
| `Handler.CleanupBackup` | crates/agent/src/handler.rs:483-513 | A claimable pass records exactly what it removed, all of which is absent, and without a failure removes every retired artifact; it is a sequence of protocol steps and gives its claim back on every exit; an unclaimable pass touches nothing. |
| `Handler.DestroyVm` | crates/agent/src/runtime.rs:679-739 | Seen by the backup protocol of the VM: whatever fails, a deletion is a sequence of the protocol's deletion steps; the worker lock is taken only when no storage child survives; whenever the record or the image is gone, the engine is off, nothing is left that writes to storage and every artifact is gone; if nothing fails it succeeds exactly if every artifact is removable. |
| `Observation.MergeTakesTheAgentsRow` | crates/ctl/src/handler.rs:1351-1407 | The merged row has identity, environment, host, image, engine, CPU, memory, disk, address, ports, options and lifecycle state from the agent; readiness comes from the stored row exactly with its backup state; a recorded target is kept exactly while the agent shows no target and not exactly the recorded resources, and then, and only then, an agent's row without error shows an unknown outcome. |
| `Observation.MergeKeepsTheNewerBackups` | crates/ctl/src/handler.rs:1351-1365 | The merged row keeps the stored backup history exactly if it knows of more admissions, or of as many and of the answer to the one that the agent shows as pending; otherwise it has the agent's. |
| `Observation.ForwardingClearedExactlyByConfirmation` | crates/ctl/src/handler.rs:1367-1390 | A merge clears forwarded intent if and only if the snapshot shows the request pending or answered, or has reached the settled sequence; until then busy and reservation remain. |
| `Observation.ResizeIntentSurvives` | crates/ctl/src/handler.rs:1391-1404 | A recorded resize target survives every merge until the row shows exactly it, and its disk stays reserved. |
| `Observation.NewerIsHigher` | crates/ctl/src/handler.rs:1351-1365 | Between genuine states the merge keeps the one of higher rank; equal sequence numbers are decided by at-most-once admission. |
| `Observation.FoldKeepsTheMaximum` | crates/ctl/src/handler.rs:1351-1365 | Folding any sequence of genuine snapshots leaves the backup state of one of maximal rank. |
| `Observation.FoldIgnoresOrder` | crates/ctl/src/handler.rs:1351-1365 | Any two sequences of the same snapshots, reordered or repeated, lead to the same position in the protocol. |
| `Observation.SnapshotsAreGenuine` | crates/agent/src/backup.rs:178-329 | Every record that the agent saves in a run before deletion is genuine. |
| `Observation.ObservationReachesTheLatestState` | crates/ctl/src/handler.rs:1351-1390 | Snapshots from any moments of any run of the agent, in any order and multiplicity, leave the controller at the latest of them. |
| `Observation.ConfirmedRequestWasAdmittedOnce` | crates/agent/src/backup.rs:178-257 | A snapshot that shows a request proves its admission, which was the only one in the run. |
| `Ledger.StepKeepsOrder` | crates/ctl/src/handler.rs:58-90 | Every event keeps the rows orderly: a row without forwarded intent carries no remains of one, and a running start, stop, creation or resource update remembers only rows of its environment, on which no intent is stored meanwhile. |
| `Ledger.ForwardedIntentIsNeverLost` | crates/ctl/src/backup.rs:214-326 | Over every trace, stored intent and its reservation remain until a confirming observation or the removal of the row. |
| `Ledger.OutstandingIntentExcludes` | crates/ctl/src/backup.rs:189-195 | Over every trace, from the moment intent is stored until it ends, no other request is forwarded and no start, stop, resource update or creation reads or rewrites the row; at each moment in between every such attempt is refused: another request is not sent after any view that does not confirm the first, no resource target passes its checks, and the start or stop of any set of rows with this one finds it busy. |
| `Ledger.TargetsAreRecorded` | crates/ctl/src/handler.rs:902-908 | A target is recorded by the step that stores it and by every step that leaves one on a row that no operation holds. |
| `Ledger.RecordedTargetIsNeverLost` | crates/ctl/src/handler.rs:1391-1404 | Over every trace, a target shown by an idle row or stored by the controller stays on the row until an observation shows it complete or replaced by the agent, the agent's reply confirms it, its own operation withdraws it, or the row goes away; starts and stops that begin meanwhile keep it. |
| `Ledger.ConfirmationShowsTheTarget` | crates/ctl/src/handler.rs:947-962 | A confirmed reply that ends a target is of the same VM, environment and host, stopped and without target, and shows exactly that CPU, memory and disk. |
| `Ledger.WithdrawalUndoesItsOwnIntent` | crates/ctl/src/handler.rs:928-935 | Over every trace, a withdrawal restores exactly the row from before its own operation recorded the target, which showed no target; a retry cannot cancel an earlier update. |
| `Ledger.ChangeKeepsTargetsItRead` | crates/ctl/src/handler.rs:1018-1029 | A confirmed start or stop keeps the target of the row if and only if the row showed it when the operation began. |
| `Ledger.LearnedTargetIsDropped` | crates/ctl/src/handler.rs:1018-1029 | The condition is needed: for every VM and target there is a trace in which a target first learned from the agent during a stop is written away by its confirmation. |
| `Ledger.DecidedExactly` | crates/ctl/src/backup.rs:171-213 | The retained row lets a request be sent exactly if it is well-formed, its operation unspent, the pending one or of the present revision, no other intent is outstanding, the VM is stopped without target, and a new creation is enabled, supported and offered; a replay is answered with exactly the error of its receipt, and a success exactly for a receipt without error. |
| `Ledger.TargetableExactly` | crates/ctl/src/handler.rs:841-901 | A target is recorded exactly for a stopped VM of an online host that offers updates (a retry needs no offer), without backups in progress or of another size, if it neither overflows nor shrinks the disk and the host has room for what it adds. |
| `Controller.Controller.Retain` | crates/ctl/src/backup.rs:80-100 | A view of another VM is refused; otherwise the row becomes the merge, with the agent's identity, sizes and lifecycle state, together with the host's charge. |
| `Controller.RechargedByTheDifference` | crates/ctl/src/db.rs:160-175 | Exactly the host's disk usage moves by the difference of the reservations, within zero and the 32-bit maximum. |
| `Controller.Controller.Prepare` | crates/ctl/src/backup.rs:152-256 | For a reachable, idle environment, in terms of the merged row: a replay is answered with the error of its receipt or, if that has none, with the row, and nothing else is answered with success; the request is sent exactly if the row, the offer, the environment and the room on the recharged host allow it, and then exactly its intent and reservation are stored under the lock. Unconfirmed foreign intent is always answered and kept; every answer releases the lock; no other row changes. |
| `Controller.Controller.StoreIntent` | crates/ctl/src/backup.rs:214-256 | The intent is stored exactly if the environment is ready and, for a fresh request, its host has room for one more root; then a fresh request is charged to the host and a repeated one keeps its reservation. |
| `Controller.Controller.Conclude` | crates/ctl/src/backup.rs:301-326 | A reply is merged; after a failure the row becomes exactly the stored one with a settled report remembered for this request, merged with the fresh inspection if there is one; a settled report alone clears nothing; intent ends only through the reply or the following inspection; the lock is released and no other row changes. |
| `Controller.Controller.ApplySnapshot` | crates/ctl/src/handler.rs:1272-1347 | A snapshot older than the last change is dropped; otherwise each known row of the host is left alone (its environment is busy), takes state and sizes from the agent's first record of it, or, without one, is failed with an error; no other row changes, and the host is charged for all rows and untracked records, at least what it reports. |
| `Controller.ReportedIsEnough` | crates/ctl/src/handler.rs:1282-1338 | The charge is the true sum of CPU, memory and disk over the accounted records, capped at 32 bits, or what the agent reports if that is more, under the reported totals. |
| `Controller.UntrackedExactly` | crates/ctl/src/handler.rs:1301-1311 | Accounted besides the known rows is every record of the agent with an unknown name, as often as it occurs, and no other. |
| `Controller.Controller.PrepareChange` | crates/ctl/src/handler.rs:974-1000 | Refused, in order, for a running operation, a missing environment, any unresolved backup, the state of the environment or (for a start) an unfinished resource update, leaving everything alone; otherwise the operation remembers exactly the rows as they are now. |
| `Controller.Controller.ChangeableExactly` | crates/ctl/src/handler.rs:974-1000 | A start or stop begins exactly on an idle environment that is neither created nor deleted, all of whose rows are without pending or forwarded backups and, for a start, without targets. |
| `Controller.Controller.ReserveStarts` | crates/ctl/src/handler.rs:1000-1011 | Every stopped guest of a start is reserved, from the rows read when it began; no other row changes. |
| `Controller.Controller.ConfirmChange` | crates/ctl/src/handler.rs:1018-1029 | A confirmed change saves the row read at the beginning of the operation with its new state and without error, and no other. |
| `Controller.Controller.BeginResize` | crates/ctl/src/handler.rs:809-832 | Refused, in order, for a zero target, a missing VM, a running operation, or a missing or unfinished environment; otherwise exactly the lock is taken. |
| `Controller.Controller.OpensExactly` | crates/ctl/src/handler.rs:809-832 | A resource update begins exactly with a positive target, for a known VM of an idle environment that is neither created nor deleted. |
| `Controller.Controller.RecordTarget` | crates/ctl/src/handler.rs:841-908 | Every refusal, in order, releases the lock and changes nothing; on success exactly the target is added to the row, and the row from before is remembered. |
| `Controller.Controller.ConcludeResize` | crates/ctl/src/handler.rs:909-965 | The row is replaced exactly by a reply of the same VM, environment and host that is stopped, without target and shows exactly the requested resources; the target is withdrawn only if it was new and refused before any change, and otherwise kept; the lock is released. |
| `Controller.Controller.Begin` | crates/ctl/src/handler.rs:77-90 | At most one operation per environment; each one moves the revision. |
| `Controller.Controller.End` | crates/ctl/src/handler.rs:57-70 | The end of an operation releases its environment and what it remembers, and moves the revision again. |
| `Controller.Controller.InsertPlanned` | crates/ctl/src/handler.rs:562-564 | A planned VM is stored under a new name and belongs to its creation. |
| `Controller.Controller.ConfirmCreation` | crates/ctl/src/handler.rs:607-618 | The agent's record of a created VM replaces the planned one; a failure only marks it. |
| `Controller.Controller.RemoveRow` | crates/ctl/src/db.rs:298-304 | Exactly this row goes, and only while no operation remembers it. |
| `Scheduler.ResolutionIsStable` | crates/core/src/ssh.rs:46-72 | Resolving an already resolved bootstrap account gives the same account, so both sides agree on it. |
| `Scheduler.BothSidesSizeAlike` | crates/ctl/src/scheduler.rs:19-37 | For every validated spec and listed base size the controller's reservation and the agent's sizing agree, including refusals and overflow, if and only if it is not the case that the size is needed and listed as zero. |
| `Scheduler.ReservationCoversTheImage` | crates/ctl/src/scheduler.rs:19-37 | The controller reserves nothing for containers and jails, and otherwise exactly the requested disk or, without a request, 40 GiB for Qemu and the listed image size for the rest, never less than a listed image, and 4 MiB more for a Firecracker guest that is handed files or a seed; it refuses only an unlisted or zero size that is needed, a size below the image, and 32-bit overflow. |
| `Scheduler.AgentDiskCoversTheImage` | crates/agent/src/runtime.rs:254-283 | What the agent records is the requested disk or else the fewest MiB that hold the image, with the configuration disk for Firecracker; it is refused exactly if the image does not fit the request or the sum does not fit 32 bits. |
| `Scheduler.EligibleExactly` | crates/ctl/src/scheduler.rs:49-75 | Where memory with headroom fits 32 bits: a host is eligible exactly if it is online, offers the engine and every required feature, has the image where images are known, and CPU, memory (128 MiB more for Firecracker) and disk, with the defaults of the program, fit what is unused. |
| `Scheduler.ChosenIsTheFullest` | crates/ctl/src/scheduler.rs:174-181 | Among eligible hosts a VM prefers volume-backed ones, then the least unused memory, then the first; a container ignores storage. |
| `Scheduler.PlaceVm` | crates/ctl/src/scheduler.rs:47-164 | Placement succeeds exactly if some host is eligible, and takes the first host that minimises storage preference and free memory. |
| `Scheduler.BookingFits` | crates/ctl/src/scheduler.rs:202-214 | Charging an eligible host stays within its CPU and memory totals, within its disk total if it began there, and no addition carries. |
| `Scheduler.ScheduleEnv` | crates/ctl/src/scheduler.rs:193-223 | Every choice is the head of the candidates of the shadow at that moment; receiving hosts end within their totals; the shadow equals the accounting fold; failure means the next spec fits no host of the shadow. |
| `Scheduler.PlannedAsAsked` | crates/ctl/src/handler.rs:497-531 | Every planned record has the engine, image, CPU, memory, ports, keys and options that its spec asks for, with the defaults of the program, the disk and host of its placement and the drawn name, and starts in creation without backups. |
| `Scheduler.PlanEnvironment` | crates/ctl/src/handler.rs:450-563 | An empty or oversized plan, a taken name or a full fleet is refused; committed hosts equal the scheduler's shadow and cover every stored row of the fleet with the new ones. |
| `Scheduler.AccountingIsMonotone` | crates/core/src/model.rs:584-596 | Accounting the same VMs on top of a higher usage gives a usage at least as high. |
| `Scheduler.AccountingIsCappedSum` | crates/core/src/model.rs:584-596 | Accounting the VMs of one host on top of its usage adds exactly the true sums of CPU, memory, disk and count over the VMs placed there, capped at the 32-bit maximum, where stopped VMs add no CPU and memory. |

## Left out

- HTTP, JSON, authentication, the command line and the dashboard: requests and replies are method calls; loss, delay and duplication appear as failed answers, stale snapshots and repeated calls.
- SQLite: each save, put or transaction is one atomic step; schema migration and unreadable rows are not modelled, nor is the closed admission that unreadable rows cause.
- Engines, firewall, TAP devices, ingress, SSH bootstrap and the jail directory: their commands are answers passed to the methods.
- ZFS, reflink and file-system semantics: a store with one active disk, an ordered list of snapshots and artifact directories; no outside writer, and no reuse of file identities.
- UUIDs, clocks and operation tokens: names drawn by the host are parameters required to be new, and times are arbitrary numbers.
- Wording of errors: one constructor per kind; the placement diagnostics of the scheduler are a single refusal.
- Name and image validation, the capability matrix and `tap_name` hashing: validity and support are parameters or predicates.
- Handler.RunBackup: one attempt to claim is modelled; the loop that waits for a running worker only repeats it.
- Guests that are started behind the agent's back: a guest comes up only when the agent tells its engine to boot it, and may end at any time.
- The scan over all records in `reconcile_once` and the parallel refresh of hosts: the operations they call are modelled one by one.
- Sorting and deduplication of stored ports and keys: stored as sets, which compare alike.
- Registration, detachment and expiry of hosts and environments beyond the removal of rows; the environment summary state is input to the operations that test it.
- CPU and memory budgets of the agent: deletion and reconciliation may move a stopped VM to a counted state without a capacity check, so no such invariant is claimed.
- The stored usage of a host between placements: a resource update changes only the VM row, so only placement and snapshots are proved to cover the rows.
- HostGuarantees.PhysicalRootIsReserved: the lower bound on the clone is stated separately, because a failed creation may leave a short clone.
- Observation.ObservationReachesTheLatestState: speaks of snapshots taken before deletion of the VM begins.
- BackupGuarantees.ArtifactsAreTracked: exempts a VM under deletion, for which the claim is false.
- Runtime.Runtime.DestroyVm: the engine, ingress, network and image failures that the code collects are two flags.
- Runtime.Runtime.CreateVm: the base image does not change between sizing and cloning.
- Controller.Controller.RemoveRow: the exchange with the agent before a row is removed is not part of this model.
- Controller.Controller.RecordTarget: re-reading the row, checking it and storing the target are one step; an inspection that falls between them is not modelled.
- Controller.Controller.ReserveStarts: the rows are written one after another, where the code writes them in one transaction; the same holds for the planned rows of a new environment.
