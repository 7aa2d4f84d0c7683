# Firemig: verified model of live VM ownership transfer

Firemig moves a running Firecracker VM from one worker to another. A coordinator keeps sandbox and
migration rows in a database and drives each migration through phases; every worker keeps a fencing
epoch and a record per sandbox; artifacts travel over HTTP with byte ranges and digests; progress
reaches clients as an event stream. This project models that machinery and proves what it promises.

`dafny verify dfyconfig.toml` checks everything.

## How the project is laid out

| files | what they hold |
|---|---|
| `Prelude`, `Decimal` | shared types; decimal printing and parsing |
| `Phases` | the migration phases and their transitions |
| `Coordinator`, `CoordinatorInvariants`, `CoordinatorProofs` | the tables and transactions as functions, what they keep, what follows over every run |
| `CoordinatorStore` | the same transactions as a class that updates its tables, proved equal to the functions and to keep the tables consistent |
| `CoordinatorLaws` | when each transaction is taken, and all that it writes |
| `CoordinatorMisuse` | reachable databases in which the general transition breaks the counts |
| `Epochs`, `EpochStore` | the crash model of the epoch store, and the store as a class |
| `Worker`, `WorkerEffects`, `WorkerSafety`, `WorkerRetries` | one sandbox at one worker: every operation with a failure at each await; nine effects; safety over every sequence of requests; retries |
| `WorkerLaws` | when each request is answered, what an answer means, and that a VM which loses its record is stopped |
| `WorkerStranded` | why a sandbox that was migrated once cannot be rolled back |
| `WorkerEpochs` | a sandbox together with the epoch store, through failed writes, power losses and restarts |
| `WorkerDisk` | what is on disk when a snapshot is loaded |
| `WorkerCore`, `WorkerPulls` | the worker as a class with its maps, one choke point, the resource allocator and real artifact pulls |
| `GuestPorts`, `WorkerPorts` | exposed guest ports: what records, relays and the port table say of each other, and the worker's routes that change them |
| `Network`, `Allocation`, `Allocator` | derived networks, what the allocator's tables keep, and the allocator as a class with its probing loops |
| `Protocol`, `ProtocolSafety`, `ProtocolProofs`, `ProtocolPromises`, `ProtocolProgress`, `ProtocolRollback`, `ProtocolContent` | coordinator, runners and any number of workers together, with lost calls, lost replies and crashes: one VM at a time, completion, recovery and rollback, and what is loaded |
| `ArtifactRange`, `Transfer`, `ArtifactPull` | range headers, one pull attempt as a function of what fails, and the pull as a class with its loops |
| `Sse`, `SseParser`, `SsePrinter`, `SseLaws`, `EventStream`, `WatchReading`, `Watch` | the event stream from the durable log to the client's watch loop |
| `JsonText`, `CanonicalJson`, `JsonReader` | canonical JSON, a reader that inverts it |

Failures are data: a `Faults`, `Environment` or `Fault` value says which calls fail, and every theorem
holds for all of them. SHA-256 is a free constructor over its input, which is an uninterpreted
function without collisions. Identifiers are numbers because the code only compares them; the
allocator, which takes them apart, maps them to the texts the paths allow.

The whole system is a step relation (`Protocol.Take`). A call of a phase runs as one step at its
worker, or never arrives, or loses its reply; the runner commits in a later step, so anything may
happen in between; runners and workers crash at any point, and a VM may or may not outlive its
worker process. A restarted worker may reload any epoch whatever, so that at most one worker executes
a VM does not depend on the epoch store remembering anything.

## What the proofs found

Where a promise fails, the lemma says exactly when.

- The epoch store forgets an acknowledged epoch if its process is restarted while a rename is not yet
  durable and the machine then loses power: `load` reads the renamed file without syncing the
  directory, and the next `accept` of the same epoch writes nothing (`Epochs.RestartIsSafeIffSettled`).
  A worker may then boot a sandbox at an epoch below one it had accepted
  (`WorkerEpochs.UnsettledRestartLetsStaleIn`).
- The direct quarantine route with a newer epoch stops the VM before its rename; if the rename fails,
  a `Running` record stays behind the accepted epoch (`WorkerSafety.EpochsAgreeUnlessHalfQuarantined`,
  `WorkerSafety.HalfQuarantineLeavesTheEpochBehind`).
- The general `transition` also accepts RESUMING and CLEANUP
  (`CoordinatorProofs.OnlyTheAtomicStepsMoveOwnership`). In every reachable database in CUTOVER it then
  logs a cutover that the generation does not count and leaves the sandbox at its source, and in every
  one in LOADING it logs a resume that no column records and no epoch counts
  (`CoordinatorMisuse.GeneralCutoverIsNotCounted`, `CoordinatorMisuse.GeneralResumeIsNotCounted`).
- A failed create is undone completely unless the removal of its directory fails too; if the record was
  already registered it then stays without its network keys (`WorkerSafety.CreateIsAllOrNothing`,
  `WorkerCore.Core.CreateSandbox`, `WorkerCore.Core.DeadRecordsHoldNothing`).
- A sandbox that was migrated once can be migrated on, but not back: the worker never forgets which
  snapshot a record was loaded from, so `rollbackMigration` refuses its source, and once that source is
  paused no request lets it execute again. A migration that then fails ends in FAILED, with a halted VM
  and a sandbox row that says running. A rollback returns the VM exactly if its source was not loaded
  from a snapshot (`ProtocolRollback.ARollbackReturnsTheVm`, `WorkerStranded.StrandedForGood`,
  `WorkerStranded.AMigratedSandboxIsNotRolledBack`).
- A pull that renames its artifact over one registered with another digest, and then cannot sync the
  directory, leaves the old registration beside the new file; a load of the earlier manifest passes
  every check and reads the later disk (`WorkerDisk.DiskIsKeptUnlessOverwritten`,
  `WorkerDisk.OverwrittenDiskIsLoaded`). Apart from that, what is loaded is what was snapshotted
  (`ProtocolContent.LoadedIsWhatWasSnapshotted`).
- A rename whose directory cannot be synced makes the retry fetch the whole artifact again
  (`Transfer.NoByteIsFetchedTwice` counts those renames).
- An empty artifact is never downloaded, so its commit has no file to rename
  (`Transfer.EmptyArtifactNeedsAPartialFile`).
- An event stream with one byte order mark is read alike however it is cut. Of two the decoder takes off
  the first and the parser the second, but the parser does so only if the first decoded piece is not
  empty: the bytes EF | BB BF EF BB BF, cut at the bar, keep the second mark and hide the first event
  (`SseParser.OneMarkNeverMatters`, `SseParser.OnlyTheTextMatters`, `SsePrinter.TwoMarksCanHideAnEvent`).
- After a release in front of its port, an owner that asks the allocator again is given a second port
  (`Allocation.ReleaseMayMoveAnOwner`, `Allocation.ReleaseGivesASecondPort`). This is a fact of the
  allocator alone: `exposeGuestPort` returns an existing exposure before it asks
  (packages/agent/src/worker/lifecycle/worker-guest-ops.ts:64-69), and so no owner of a worker ever
  holds two ports (`GuestPorts.OneHostPortPerGuestPort`, `WorkerPorts.Exposer.Perform`).
- A record in quarantine keeps its exposures after its host ports were released, and a port it names
  may by then lead to another sandbox (`GuestPorts.RetiredExposureNamesAnothersPort`).

## Model

| member | source | states |
|---|---|---|
| Phases.PathsAreSimpleAndShort | services/coordinator/lib/firemig_coordinator/migrations/orchestration/migration_state.ex:4-47 | every path of the state machine visits no phase twice and has at most fourteen, and one has fourteen |
| Phases.MovesAreStepsOrFailures | services/coordinator/lib/firemig_coordinator/migrations/orchestration/migration_state.ex:4-47 | the transition table holds the steps of an undisturbed migration, one answer to a failure in each phase, and the two ends of a rollback, and nothing else |
| Phases.PointOfNoReturn | services/coordinator/lib/firemig_coordinator/migrations/orchestration/migration_state.ex:15-34 | after RESUMING a path only goes forward or to ORPHANED_AMBIGUOUS, and no path gets there without RESUMING |
| Phases.FailureActionIsLegal | services/coordinator/lib/firemig_coordinator/migrations/orchestration/migration_recovery.ex:6-18 | whatever phase of a legal path fails, the chosen action is a legal transition of it |
| CoordinatorStore.Store.NextSequence | services/coordinator/lib/firemig_coordinator/migrations/writer.ex:33-39 | the loop over the log finds one more than its largest sequence number |
| CoordinatorStore.Store.InsertEvent | services/coordinator/lib/firemig_coordinator/migrations/writer.ex:33-49 | appends the event of the row's phase and changes nothing else |
| CoordinatorStore.Store.PersistTransition | services/coordinator/lib/firemig_coordinator/migrations/writer.ex:22-31 | row, sandbox and event are updated together or not at all |
| CoordinatorStore.Store.Transition | services/coordinator/lib/firemig_coordinator/migrations/store.ex:15-27 | a legal transition is persisted, an illegal one leaves all tables alone; used for any phase but RESUMING and CLEANUP it keeps the tables consistent |
| CoordinatorStore.Store.IssueResume | services/coordinator/lib/firemig_coordinator/migrations/store.ex:29-75 | consumes the snapshot, records the resume and takes the new epoch in one transaction, once; the tables stay consistent |
| CoordinatorStore.Store.CompleteCutover | services/coordinator/lib/firemig_coordinator/migrations/store.ex:45-90 | hands worker, region and generation over in one transaction; the tables stay consistent |
| CoordinatorStore.Store.BeginRollback | services/coordinator/lib/firemig_coordinator/migrations/migrations.ex:57-68 | is refused once a resume was issued; the tables stay consistent |
| CoordinatorStore.Store.Start | services/coordinator/lib/firemig_coordinator/migrations/writer.ex:12-68 | creates one migration for an idle running sandbox, replays a known key, refuses everything else; the tables stay consistent |
| CoordinatorProofs.StepKeepsValid | services/coordinator/lib/firemig_coordinator/migrations/store.ex:8-90 | every transaction of the runner and the API keeps rows, logs and counts consistent |
| CoordinatorProofs.EpochsCountOwnership | services/coordinator/lib/firemig_coordinator/migrations/store.ex:59-90 | in every run epoch = 1 + resumes issued, generation = 1 + cutovers, they differ by at most one, and no two resumed migrations share an epoch |
| CoordinatorProofs.ActiveIsTheOnlyUnfinished | services/coordinator/lib/firemig_coordinator/migrations/writer.ex:51-96 | a migration is unfinished exactly if it is the active one, and its phase decides state and worker of the sandbox row |
| CoordinatorProofs.TheStateTellsTheOutcome | services/coordinator/lib/firemig_coordinator/migrations/writer.ex:84-96 | a sandbox is orphaned if and only if one of its migrations is; when all have ended otherwise it is running and free |
| CoordinatorProofs.LogsAreLegalPaths | services/coordinator/lib/firemig_coordinator/migrations/writer.ex:22-49 | each log is numbered 1..n, is a legal path from PREPARING, and ends in the row's phase and progress |
| CoordinatorProofs.ReplayCreatesNothing | services/coordinator/lib/firemig_coordinator/migrations/writer.ex:12-20 | a key names one migration for ever: the same request is answered with it, another one refused |
| CoordinatorProofs.OnlyTheAtomicStepsMoveOwnership | services/coordinator/lib/firemig_coordinator/migrations/store.ex:15-27 | the general transition keeps the counts if and only if it is not used for RESUMING or CLEANUP |
| CoordinatorLaws.TransitionsAreExact | services/coordinator/lib/firemig_coordinator/migrations/writer.ex:22-49 | a transition is taken if and only if the state machine has it; it writes the phase, what it is given, one event and, at the end, the sandbox's state |
| CoordinatorLaws.ResumesAreExact | services/coordinator/lib/firemig_coordinator/migrations/store.ex:29-75 | a resume is issued from LOADING only, and takes the sandbox exactly one epoch on |
| CoordinatorLaws.CutoversAreExact | services/coordinator/lib/firemig_coordinator/migrations/store.ex:45-90 | a cutover is completed from CUTOVER only, and moves worker, region and generation and nothing else |
| CoordinatorLaws.RollbacksAreExact | services/coordinator/lib/firemig_coordinator/migrations/migrations.ex:57-68 | a rollback begins from PAUSING, SNAPSHOTTING, TRANSFERRING and LOADING only |
| CoordinatorLaws.StartsAreExact | services/coordinator/lib/firemig_coordinator/migrations/writer.ex:12-82 | a migration is created if and only if the key is new and the sandbox runs, is idle and is somewhere else |
| CoordinatorLaws.RefusalsAreTrue | services/coordinator/lib/firemig_coordinator/migrations/writer.ex:12-68 | the error of a refused start names something that is the case |
| CoordinatorLaws.BootsAreExact | services/coordinator/lib/firemig_coordinator/sandboxes/boot.ex:18-40 | a sandbox is inserted once and its boot is recorded once |
| CoordinatorMisuse.GeneralCutoverIsNotCounted | services/coordinator/lib/firemig_coordinator/migrations/store.ex:15-27 | from every reachable database in CUTOVER the general transition adds a cutover that the generation does not count |
| CoordinatorMisuse.GeneralResumeIsNotCounted | services/coordinator/lib/firemig_coordinator/migrations/store.ex:15-27 | from every reachable database in LOADING the general transition logs a resume that is neither recorded nor counted |
| CoordinatorMisuse.BothPhasesAreReached | services/coordinator/lib/firemig_coordinator/migrations/store.ex:8-90 | some migration reaches LOADING and some reaches CUTOVER by the runner's own steps |
| EpochStore.Store.Persist | packages/agent/src/platform/epochs.ts:79-98 | each failing step leaves memory, file and what a power loss may leave exactly as the crash model says |
| EpochStore.Store.Accept | packages/agent/src/platform/epochs.ts:41-77 | an acknowledged epoch is stored, a failed persist restores the register, other registers are untouched |
| EpochStore.Store.Load | packages/agent/src/platform/epochs.ts:19-35 | a new process holds what the file shows |
| Epochs.RequestsAreAnsweredExactly | packages/agent/src/platform/epochs.ts:41-77 | each of the four answers is given if and only if its condition holds, and a failed request leaves memory as it was |
| Epochs.AcknowledgedIsReloaded | packages/agent/src/platform/epochs.ts:19-98 | what an acknowledged write leaves is what a restarted process and a machine after a power loss read |
| Epochs.FailedWritesLeave | packages/agent/src/platform/epochs.ts:79-98 | which step fails decides what the file shows and what a power loss may leave |
| Epochs.AcceptIsMonotone | packages/agent/src/platform/epochs.ts:41-77 | no request lowers a register, and one that fails changes none |
| Epochs.AcknowledgedEpochsSurvive | packages/agent/src/platform/epochs.ts:19-98 | after any requests, faults, power losses and restarts on a settled store, no acknowledged epoch is forgotten |
| Epochs.OneCrashForgetsNothing | packages/agent/src/platform/epochs.ts:19-98 | a crash of either kind after any requests, followed by load, forgets no acknowledged epoch |
| Epochs.AcknowledgedWriteSettles | packages/agent/src/platform/epochs.ts:79-98 | the store is settled after every acknowledged write |
| Epochs.RestartIsSafeIffSettled | packages/agent/src/platform/epochs.ts:19-35 | restarting the process is safe for all futures if and only if the store is settled |
| Epochs.UnsettledRestartForgets | packages/agent/src/platform/epochs.ts:19-98 | a run in which an acknowledged epoch is forgotten |
| WorkerEffects.ExecEffect | packages/agent/src/worker/lifecycle/worker-lifecycle.ts:10-108 | every operation, under every failure, has one of nine effects on record, VM, epoch and Firecracker calls |
| WorkerLaws.AFencedVmIsStopped | packages/agent/src/worker/core/worker-core.ts:93-100 | whichever request takes the record of a running VM away pauses the VM or kills its process; it goes on if and only if that pause fails without effect |
| WorkerLaws.ANewerEpochRetires | packages/agent/src/worker/core/worker-core.ts:74-100 | a request that takes no shortcut and carries a newer epoch fences every record that has run |
| WorkerLaws.AnsweredExactlyIfAnswerable | packages/agent/src/worker/lifecycle/worker-lifecycle.ts:10-108 | each of the eighteen requests is answered if and only if what it needs of record, epoch, VM and surroundings is there |
| WorkerLaws.AnAnswerMeansItIsDone | packages/agent/src/worker/lifecycle/worker-lifecycle.ts:10-108 | an answer stands for the whole new state: record, VM, epoch, consumed snapshots, manifests, reservations and calls |
| WorkerSafety.StaleEpochsDoNothing | packages/agent/src/worker/core/worker-core.ts:74-91 | a request below the accepted epoch changes no record and no VM and reaches Firecracker with no call |
| WorkerSafety.StaleForEver | packages/agent/src/worker/core/worker-core.ts:74-91 | once an epoch was accepted this holds for every later request below it, across all restarts that remember it |
| WorkerEpochs.StaleAcrossCrashes | packages/agent/src/platform/epochs.ts:19-98 | the same with the epoch store itself: through failed writes, requests for other sandboxes, power losses and restarts of a settled store, no request below an accepted epoch has any effect |
| WorkerEpochs.UnsettledRestartLetsStaleIn | packages/agent/src/platform/epochs.ts:19-35 | a run with one restart of an unsettled store, after which a create below an accepted epoch boots a VM |
| WorkerSafety.AcceptedNeverDrops | packages/agent/src/worker/core/worker-core.ts:74-100 | accepted epochs never drop, and whatever changes a record or reaches Firecracker carries the accepted epoch |
| WorkerSafety.RetiredForGood | packages/agent/src/worker/lifecycle/worker-lifecycle.ts:71-108 | a fenced or quarantined record never becomes usable again under any requests and epochs |
| WorkerSafety.EpochsAgreeUnlessHalfQuarantined | packages/agent/src/worker/core/worker-core.ts:74-100 | an operation keeps a running record at the accepted epoch if and only if it is not a newer direct quarantine whose rename fails |
| WorkerSafety.HalfQuarantineLeavesTheEpochBehind | packages/agent/src/worker/lifecycle/worker-lifecycle.ts:84-108 | a run of two requests that ends with a running record at epoch 1, no VM and the accepted epoch 2 |
| WorkerSafety.RunningCarriesTheAcceptedEpoch | packages/agent/src/worker/lifecycle/worker-lifecycle.ts:57-69 | in every run without the direct quarantine route a running record carries exactly the highest accepted epoch |
| WorkerSafety.SnapshotsAreResumedOnce | packages/agent/src/worker/lifecycle/worker-lifecycle.ts:57-65 | within a worker's life Firecracker is asked at most once to resume a migration's snapshot, and the consumed set is exactly those |
| WorkerStranded.PausingStrands | packages/agent/src/worker/lifecycle/worker-lifecycle.ts:10-14 | a pause of a VM that came from a migration leaves it halted with its snapshot consumed |
| WorkerStranded.StrandedForGood | packages/agent/src/worker/lifecycle/worker-lifecycle.ts:57-69 | from then on no request with any epoch lets it execute again, and every resume and rollback is refused |
| WorkerStranded.AMigratedSandboxIsNotRolledBack | packages/agent/src/worker/migration/worker-verify.ts:35-47 | a run of five requests in which nothing fails, after which every rollback is refused |
| WorkerDisk.DiskIsVerified | packages/agent/src/worker/migration/worker-transfer.ts:36-49 | until a sandbox is booted or loaded, every registered artifact is on disk with its size and digest, in every run in which none is overwritten |
| WorkerDisk.DiskIsKeptUnlessOverwritten | packages/agent/src/worker/migration/worker-transfer.ts:41-49 | an operation keeps registered artifacts on disk if and only if it is not a transfer that renames over one registered with another digest and then cannot sync the directory |
| WorkerDisk.LoadsAreVerified | packages/agent/src/worker/lifecycle/worker-lifecycle.ts:24-54 | in the same runs a load reaches Firecracker only with all three files as the manifest says, at the epoch after the snapshot's |
| WorkerDisk.OverwrittenDiskIsLoaded | packages/agent/src/worker/migration/worker-transfer.ts:36-49 | a run of three requests after which a load that passes every check reads a disk that does not match its manifest |
| WorkerSafety.CreateIsAllOrNothing | packages/agent/src/worker/lifecycle/worker-create.ts:21-115 | a refused create changes nothing but the accepted epoch if and only if its cleanup does not fail |
| WorkerRetries.RetriesHaveNoEffect | packages/agent/src/worker/lifecycle/worker-phases.ts:39-63 | a phase that was acknowledged and is driven again changes nothing, makes no Firecracker call and gives the same reply |
| WorkerRetries.SnapshotDescribesItsFiles | packages/agent/src/worker/snapshot/worker-snapshot.ts:12-43 | a manifest describes exactly the files the snapshot left, with the request's epoch, or repeats the one of the same sandbox and epoch |
| WorkerRetries.GenerationsCountSnapshots | packages/agent/src/worker/snapshot/worker-snapshot.ts:17-20 | a record's generation counts the snapshots asked for, so no two are written to the same paths |
| WorkerCore.Core.MutableRecord | packages/agent/src/worker/core/worker-core.ts:74-91 | the choke point in place: what passes, what is fenced, and that no other sandbox is touched |
| WorkerCore.Core.FenceQuietly | packages/agent/src/worker/core/worker-core.ts:93-100 | fences the record and pauses Firecracker if it was running |
| WorkerCore.Core.PauseSandbox | packages/agent/src/worker/lifecycle/worker-lifecycle.ts:10-14 | the record becomes paused only if Firecracker paused |
| WorkerCore.Core.LoadSnapshot | packages/agent/src/worker/lifecycle/worker-lifecycle.ts:16-55 | the guards in order, the idempotent answer, and the load of verified files |
| WorkerCore.Core.ResumeSandbox | packages/agent/src/worker/lifecycle/worker-lifecycle.ts:57-69 | the snapshot is consumed before Firecracker is asked |
| WorkerCore.Core.FenceSandbox | packages/agent/src/worker/lifecycle/worker-lifecycle.ts:71-82 | the record is fenced even if Firecracker or the veth fails |
| WorkerCore.Core.QuarantineSandbox | packages/agent/src/worker/lifecycle/worker-lifecycle.ts:84-108 | moves the directory away and releases the record's keys and ports, if and only if the record moves to quarantine |
| WorkerCore.Core.FenceAndCleanup | packages/agent/src/worker/migration/worker-verify.ts:61-72 | fence, then quarantine; repeated calls are answered without effect |
| WorkerCore.Core.Rollback | packages/agent/src/worker/migration/worker-verify.ts:35-59 | only a source that was never restored is resumed |
| WorkerCore.Core.GuestCall | packages/agent/src/worker/lifecycle/worker-phases.ts:14-28 | a guest call passes the choke point and changes nothing else |
| WorkerCore.Core.PauseMigration | packages/agent/src/worker/lifecycle/worker-phases.ts:39-42 | a paused record is answered without a second pause |
| WorkerCore.Core.SnapshotMigration | packages/agent/src/worker/lifecycle/worker-phases.ts:44-58 | a migration id names one manifest for one sandbox and epoch |
| WorkerCore.Core.ResumeMigration | packages/agent/src/worker/lifecycle/worker-phases.ts:60-63 | a running record is answered without a second resume |
| WorkerCore.Core.CreateSnapshot | packages/agent/src/worker/snapshot/worker-snapshot.ts:12-43 | the generation grows before the snapshot is taken; artifacts describe what was written |
| WorkerCore.Core.TransferMigration | packages/agent/src/worker/migration/worker-transfer.ts:12-55 | runs the pulls of the three artifacts against their partial files and registers exactly those that were committed, or takes the complete shortcut |
| WorkerPulls.WithPullsTells | packages/agent/src/artifacts/transfer.ts:23-40 | whatever the pulls find and however they fail, one set of faults of the model function says what they leave |
| WorkerPorts.Exposer.TransferMigration | packages/agent/src/worker/migration/worker-transfer.ts:12-55 | the transfer with the ports of its manifest: it is answered only when all of them are exposed, and whether they are decides nothing but the answer |
| WorkerCore.Core.PrepareMigration | packages/agent/src/worker/migration/worker-migration.ts:6-91 | one reservation per migration, refused when its terms change, created once on prestage |
| WorkerCore.Core.CreateSandbox | packages/agent/src/worker/lifecycle/worker-create.ts:21-115 | staged creation: on success the record owns its keys, on refusal the allocator is as before |
| WorkerCore.Core.Perform | packages/agent/src/worker/core/worker-core.ts:30-100 | every route does to its sandbox what the model function says, with the allocator and the pulls deciding its faults, nothing to others, and keeps allocator keys and records in agreement |
| WorkerCore.Core.DeadRecordsHoldNothing | packages/agent/src/worker/core/worker-allocator.ts:65-68 | records in quarantine and those that a failed create left behind hold no network keys |
| WorkerCore.Core.LiveSubnetsAreDisjoint | packages/agent/src/worker/core/worker-allocator.ts:19-68 | at every boundary between operations the live sandboxes that pinned nothing have pairwise disjoint subnets |
| Network.BlocksAreInTheirRange | packages/agent/src/runtime/network.ts:18-29 | every derived subnet lies in 10.64.0.0/10 |
| Network.DerivedNamesFit | packages/agent/src/runtime/network.ts:18-29 | derived interface names fit the limit, whatever the digest |
| Network.OverlapMeansSameKey | packages/agent/src/runtime/network.ts:18-29 | derived subnets that share one address have the same key |
| Network.SameKeyMeansSameBlock | packages/agent/src/runtime/network.ts:18-29 | two derived networks have the same subnet key if and only if they have the same block |
| Network.NamesTellDigestsApart | packages/agent/src/runtime/network.ts:18-29 | derived names agree if and only if the first eleven hexadecimal digits of the digests do |
| Network.BlocksTellDigestsApart | packages/agent/src/runtime/network.ts:18-29 | blocks agree if and only if twenty bits of the digests do |
| Network.PreimagesAreDistinct | packages/agent/src/runtime/network.ts:18-18 | what is hashed differs for every other sandbox and every other attempt |
| Allocation.LiveSubnetsAreDisjoint | packages/agent/src/worker/core/worker-allocator.ts:19-68 | two live sandboxes with derived addresses have disjoint subnets |
| Allocation.ClaimAgrees | packages/agent/src/worker/core/worker-allocator.ts:36-55 | a claim of free keys keeps every live sandbox the only owner of its keys |
| Allocation.ReleaseUndoesClaim | packages/agent/src/worker/core/worker-allocator.ts:65-68 | releasing a fresh claim restores the table |
| Allocation.ProbeVisitsEveryPortOnce | packages/agent/src/worker/core/worker-allocator.ts:79-87 | the wrap-around probe reaches every port of the range at exactly one offset |
| Allocation.EveryPortIsPreferred | packages/agent/src/runtime/network.ts:36-49 | every port of the range is preferred by some digest |
| Allocation.ProbeFailsOnlyWhenFull | packages/agent/src/worker/core/worker-allocator.ts:79-96 | the probe finds nothing if and only if other owners hold the whole range |
| Allocation.RepeatedAllocationsAgree | packages/agent/src/worker/core/worker-allocator.ts:70-96 | over any allocations without a release, two requests get the same port if and only if they have the same owner |
| Allocation.ReleaseMayMoveAnOwner | packages/agent/src/worker/core/worker-allocator.ts:98-105 | after releases an owner that asks again keeps its port if and only if none of the released ports came before it on its way |
| Allocation.ReleaseGivesASecondPort | packages/agent/src/worker/core/worker-allocator.ts:70-105 | a table and a release after which one owner holds two ports |
| Allocation.OwnersAreDistinct | packages/agent/src/worker/core/worker-allocator.ts:78-78 | an owner text names one guest port of one sandbox |
| Allocation.ReleaseIsExact | packages/agent/src/worker/core/worker-allocator.ts:102-105 | release by prefix frees a port if and only if it belongs to that sandbox, because identifiers have no colon |
| Allocator.ResourceAllocator.AllocateNetwork | packages/agent/src/worker/core/worker-allocator.ts:19-63 | takes the first collision-free attempt of 1024, or of one if anything is pinned, keeps what is pinned, and says why it fails |
| Allocator.ResourceAllocator.AllocationIsExact | packages/agent/src/worker/core/worker-allocator.ts:19-63 | there is a network if and only if the pins are short enough and one of the attempts is free |
| Allocator.ResourceAllocator.ReleaseNetwork | packages/agent/src/worker/core/worker-allocator.ts:65-68 | drops exactly the keys that the sandbox owns |
| Allocator.ResourceAllocator.AllocatePort | packages/agent/src/worker/core/worker-allocator.ts:70-96 | takes the first port on the way that is free or its own; fails only when others hold all |
| Allocator.ResourceAllocator.ReleasePorts | packages/agent/src/worker/core/worker-allocator.ts:102-105 | the loop over the shrinking table removes exactly the owners with the prefix |
| GuestPorts.OneHostPortPerGuestPort | packages/agent/src/worker/lifecycle/worker-guest-ops.ts:64-87 | with exposures and port table in order no owner holds two ports |
| GuestPorts.UnexposedGetsAFreePort | packages/agent/src/worker/lifecycle/worker-guest-ops.ts:64-79 | a guest port that is not exposed is given a port nobody holds, so that giving it back after a failed relay restores the table |
| GuestPorts.HostPortsLeadToOneSandbox | packages/agent/src/runtime/relay.ts:61-72 | no two relays of a worker listen at the same host port |
| GuestPorts.LiveExposuresAreDistinct | packages/agent/src/worker/lifecycle/worker-guest-ops.ts:81-88 | two records outside quarantine never name the same host port |
| GuestPorts.RetiredExposureNamesAnothersPort | packages/agent/src/worker/lifecycle/worker-lifecycle.ts:103-107 | a port exposed by a record in quarantine may belong to another sandbox |
| WorkerPorts.Exposer.ExposeGuestPort | packages/agent/src/worker/lifecycle/worker-guest-ops.ts:58-89 | a port is answered if and only if the request passes and the port is exposed already or nothing fails and the range has room; a failing one changes no port; the record sees a guest call |
| WorkerPorts.Exposer.Retire | packages/agent/src/worker/lifecycle/worker-lifecycle.ts:84-108 | a record that moves to quarantine has no relays left and gives exactly its own ports back |
| WorkerPorts.Exposer.Perform | packages/agent/src/worker/core/worker-core.ts:30-100 | every route keeps exposures, relays and the port table in order |
| ProtocolProofs.TakeKeepsInv | services/coordinator/lib/firemig_coordinator/migrations/runner/phases/cutover.ex:1-77 | every step of the whole system keeps the safety invariant, a restart that reloads any epoch included |
| ProtocolPromises.AtMostOneVm | services/coordinator/lib/firemig_coordinator/migrations/store.ex:29-90 | in every run over any workers and migrations, whatever epochs restarted workers reload, at most one worker executes a sandbox's VM |
| ProtocolPromises.TheRowsNameTheVm | services/coordinator/lib/firemig_coordinator/migrations/store.ex:59-90 | the VM that executes is at the source until the resume is recorded, then at the destination, and at the row's worker when no migration is active |
| ProtocolPromises.OnlyTheAuthorisedStart | packages/agent/src/worker/migration/worker-verify.ts:35-59 | a VM starts only by the first boot, by a rollback whose resume was never recorded, or by a resume that was recorded and consumed |
| ProtocolPromises.EachSnapshotIsResumedAtMostOnce | packages/agent/src/worker/lifecycle/worker-lifecycle.ts:57-65 | over all workers and crashes each migration's snapshot is resumed at most once, and only after it was recorded |
| ProtocolPromises.AResumeIsTheActiveMigrations | packages/agent/src/worker/lifecycle/worker-phases.ts:60-63 | the snapshot resumed is the active migration's own, in RESUMING, for the first time |
| ProtocolProgress.AnUndisturbedMigrationCompletes | services/coordinator/lib/firemig_coordinator/migrations/runner/driver.ex:7-28 | if nothing fails, a migration on its way is DONE after exactly the remaining rounds, with source quarantined and destination running |
| ProtocolProgress.TheBeginningIsUnderway | services/coordinator/lib/firemig_coordinator/migrations/migrations.ex:19-28 | a sandbox that was created and booted with any disk, with a migration started, is on its way |
| ProtocolRollback.EveryFailureIsRecovered | services/coordinator/lib/firemig_coordinator/migrations/runner/outcomes.ex:9-75 | from every phase a failure is recorded in exactly one way, with the sandbox's state, and without a call to a worker |
| ProtocolRollback.ARollbackReturnsTheVm | services/coordinator/lib/firemig_coordinator/migrations/runner/outcomes.ex:20-44 | a failure between PAUSING and LOADING gives the VM back to its source in one answered call if the source was not loaded from a snapshot, and ends in FAILED with the VM as it was if it was |
| ProtocolRollback.ALostCallIsRolledBack | services/coordinator/lib/firemig_coordinator/migrations/runner/outcomes.ex:70-75 | a migration that went well until a call was lost is rolled back |
| ProtocolRollback.CallsAreLearnt | services/coordinator/lib/firemig_coordinator/migrations/runner/phases/cutover.ex:1-77 | a call runs at most once, and each fate and reply leaves the runner in exactly one way |
| ProtocolRollback.ARestartInResumingOrphans | services/coordinator/lib/firemig_coordinator/migrations/orchestration/migration_recovery.ex:20-24 | a runner restarted in RESUMING calls nobody and orphans the migration |
| ProtocolContent.LoadedIsWhatWasSnapshotted | packages/agent/src/worker/lifecycle/worker-lifecycle.ts:24-54 | in every run in which no pull is overwritten, a load is of the active migration at its destination, and its files are byte for byte those of a snapshot of that migration |
| ProtocolContent.SnapshotsAreTakenOnce | packages/agent/src/worker/lifecycle/worker-phases.ts:44-58 | over all crashes, retries and lost replies no migration takes two snapshots |
| ArtifactRange.MatchIsExact | packages/agent/src/artifacts/artifact-range.ts:16-22 | the header grammar is accepted exactly, with its two digit groups |
| ArtifactRange.ResumeHeaderRoundTrip | packages/agent/src/artifacts/artifact-range.ts:16-35 | the header printed to resume at an offset is parsed as the rest of the artifact, for every offset inside it and no other |
| ArtifactRange.BoundedHeaderRoundTrip | packages/agent/src/artifacts/artifact-range.ts:16-35 | a bounded range is parsed and cut to the artifact, or refused |
| ArtifactRange.ResumeIsServedTheRest | packages/agent/src/artifacts/artifact-range.ts:37-62 | a resuming client is served exactly the missing bytes, with the status it requires |
| ArtifactRange.RangesAreServedExactly | packages/agent/src/artifacts/artifact-range.ts:16-62 | a bounded range is served with exactly its bytes, cut to the artifact, or refused |
| ArtifactRange.LengthsAreAnnounced | packages/agent/src/artifacts/artifact-range.ts:37-62 | the announced length is that of what is sent, and the status tells whether a range was asked for |
| ArtifactPull.Puller.PullArtifact | packages/agent/src/artifacts/transfer.ts:23-40 | one attempt in place: files, outcome and bytes fetched are what the function of its faults says |
| ArtifactPull.Puller.ResumeFromPartial | packages/agent/src/artifacts/artifact-partial.ts:8-26 | an earlier partial file is hashed in full, or removed if it is too long or no file |
| ArtifactPull.Puller.DownloadRemainder | packages/agent/src/artifacts/transfer.ts:62-99 | a response of the wrong status or digest is refused before anything is written, as the function says of which `Transfer.AWrongAnswerIsNotWritten` is proved |
| ArtifactPull.Puller.WriteBody | packages/agent/src/artifacts/transfer.ts:101-124 | at every turn of the loop the running hash covers exactly the bytes of the partial file |
| ArtifactPull.Puller.VerifyOrDiscard | packages/agent/src/artifacts/artifact-partial.ts:28-53 | only bytes that match size and digest pass; others are discarded |
| ArtifactPull.Puller.CommitArtifact | packages/agent/src/artifacts/artifact-partial.ts:56-68 | the partial file becomes the destination if the rename works, and the commit is acknowledged only if the directory is synced too |
| Transfer.DestinationIsVerified | packages/agent/src/artifacts/artifact-partial.ts:28-68 | whatever source, partial file and failures, the destination is only replaced by bytes of the declared size and digest |
| Transfer.WhatIsResumed | packages/agent/src/artifacts/artifact-partial.ts:8-26 | which partial files are gone on from, which are removed, and what is left of them |
| Transfer.AWrongAnswerIsNotWritten | packages/agent/src/artifacts/transfer.ts:77-90 | whatever a source sends with another status or digest than was asked for, nothing is fetched and the files stay |
| Transfer.ARightAnswerIsAppended | packages/agent/src/artifacts/transfer.ts:101-124 | any other body is appended to what was hashed, byte for byte, less what failed writes lost |
| Transfer.AnAttemptEndsWell | packages/agent/src/artifacts/transfer.ts:62-124 | an attempt commits, or discards what is something else, if and only if all calls work and the body is complete and not too long |
| Transfer.NothingIsFetchedInVain | packages/agent/src/artifacts/transfer.ts:23-40 | a complete partial file is verified without a request, and an attempt that cannot begin changes nothing |
| Transfer.HonestAttempt | packages/agent/src/artifacts/transfer.ts:62-124 | an attempt against an honest source extends the beginning it found or commits it, and accounts for every byte |
| Transfer.NoByteIsFetchedTwice | packages/agent/src/artifacts/transfer.ts:23-124 | over any cut and retried attempts the bytes fetched are one artifact for each rename, the partial file, and what failed writes lost; only a failing directory sync makes a second rename |
| Transfer.FetchedBytesSumToTheArtifact | packages/agent/src/artifacts/transfer.ts:23-124 | without failed writes and directory syncs the bytes fetched over all attempts sum to exactly the artifact once it is committed |
| Transfer.CorruptPartialCostsOneMismatch | packages/agent/src/artifacts/artifact-partial.ts:8-53 | from any partial file an honest source costs at most one failed verification over all attempts |
| Transfer.FaultlessAttemptCommits | packages/agent/src/artifacts/transfer.ts:23-40 | an attempt without faults commits and fetches exactly what is missing |
| Transfer.TwoAttemptsSuffice | packages/agent/src/artifacts/transfer.ts:23-40 | from any partial file two attempts without faults suffice |
| Transfer.EmptyArtifactNeedsAPartialFile | packages/agent/src/artifacts/transfer.ts:31-38 | an artifact of size zero is committed if and only if an empty partial file is already there |
| SseBlocks.SplitInPieces | packages/sdk/src/sse.ts:21-29 | splitting what arrived and then the rest with what comes next is splitting the whole |
| SseParser.ParseSse | packages/sdk/src/sse.ts:8-40 | the decoder and the incremental parser yield the events of what is heard in the chunks, wherever they were cut |
| SseParser.YieldBlocks | packages/sdk/src/sse.ts:21-29 | the inner loop takes exactly the complete blocks off the buffer |
| SseParser.ParseSseBlock | packages/sdk/src/sse.ts:42-65 | the loop over the lines reads the four fields of a block |
| SseParser.OnlyTheTextMatters | packages/sdk/src/sse.ts:12-20 | chunks matter only through their text if and only if not both: the text begins with two byte order marks, and the first decoded piece is empty |
| SseParser.OneMarkNeverMatters | packages/sdk/src/sse.ts:10-20 | a text with at most one byte order mark is heard without it, wherever it is cut |
| SsePrinter.BlockReadsBack | services/coordinator/lib/firemig_coordinator_web/controllers/migration_controller.ex:94-102 | one printed event is read back with its id, name and data |
| SsePrinter.StreamRoundTrip | services/coordinator/lib/firemig_coordinator_web/controllers/migration_controller.ex:61-102 | every printed stream with keep-alives, cut in any way, is read back exactly |
| SsePrinter.TwoMarksCanHideAnEvent | packages/sdk/src/sse.ts:10-20 | the same bytes whole and cut inside the first of two marks: one event, and none |
| SseLaws.BoundariesAreExact | packages/sdk/src/sse.ts:21-29 | a block ends at one of three texts and nowhere else |
| SseLaws.FindIsFirst | packages/sdk/src/sse.ts:21-29 | the first of them is found if there is one |
| SseLaws.LineEndsAreAlike | packages/sdk/src/sse.ts:22-26 | lines that end in any mixture of the three line ends are read alike |
| SseLaws.LinesAreSplitAtTheColon | packages/sdk/src/sse.ts:42-65 | a line is split at its first colon, and one space after it is dropped |
| SseLaws.FieldsAreExact | packages/sdk/src/sse.ts:42-65 | data lines add up, of every other field the last well formed line counts, and other lines count for nothing |
| SseLaws.JoinedLinesAreSplit | packages/sdk/src/sse.ts:42-65 | data of many lines is put together as it was |
| SseLaws.EventsHaveData | packages/sdk/src/sse.ts:60-65 | a block is an event if and only if it has data |
| SseLaws.TheLastBlockNeedsNoEnd | packages/sdk/src/sse.ts:30-40 | the last block of a stream is read without a boundary behind it |
| EventStream.EventIdRoundTrip | services/coordinator/lib/firemig_coordinator_web/controllers/migration_controller.ex:104-118 | the last event id that a client sends is the number it was printed from |
| EventStream.EventIdIsExact | services/coordinator/lib/firemig_coordinator_web/controllers/migration_controller.ex:104-118 | a header names the number of its digits, with or without a plus sign, and anything else names none |
| EventStream.ServeIsTheRest | services/coordinator/lib/firemig_coordinator_web/controllers/migration_controller.ex:27-92 | a connection sends exactly the events after the one named, once and in order, wherever subscription and backlog fell |
| EventStream.NothingIsServedBeyondTheLog | services/coordinator/lib/firemig_coordinator_web/controllers/migration_controller.ex:27-92 | a client that names an event the log does not have is sent nothing |
| Watch.Watch | packages/sdk/src/client/migration.ts:28-51 | over any connections cut between events, watch yields a prefix of the durable log once and in order, which is all that the connections it read delivered; it stops by itself only with the log's last event, and falls back only if a connection was refused or all `maxReconnects + 1` were read |
| WatchReading.OneConnectionSuffices | packages/sdk/src/client/migration.ts:34-51 | one connection that delivers the whole log is enough, however few may be made |
| JsonText.StringRoundTrip | packages/common/src/runtime/hash.ts:14-17 | every string, lone surrogates and control characters included, is read back from its printed form |
| JsonText.IntRoundTrip | packages/common/src/runtime/hash.ts:17-17 | every integer is read back, up to the first unit that is no digit |
| JsonText.EscapesAreShort | packages/common/src/runtime/hash.ts:16-16 | a unit is escaped if and only if it must be, by its letter if it has one |
| JsonText.PlainTextIsPrintedAsItIs | packages/common/src/runtime/hash.ts:16-16 | text without such units is printed unchanged |
| JsonText.OnlyNegativesHaveASign | packages/common/src/runtime/hash.ts:17-17 | integers are printed without a plus sign, a negative zero or zeros in front |
| CanonicalJson.PrintedKeysAreSorted | packages/common/src/runtime/hash.ts:23-29 | the printed keys are the defined ones, sorted and each once |
| CanonicalJson.OrderedByTheFirstDifference | packages/common/src/runtime/hash.ts:23-28 | keys are ordered by the first code unit in which they differ |
| JsonReader.CanonicalRoundTrip | packages/common/src/runtime/hash.ts:14-30 | the canonical text of every value is read back as its meaning |
| JsonReader.CanonicalDecidesEquality | packages/common/src/runtime/hash.ts:14-34 | two values have the same canonical text if and only if they are equal up to the order of keys |

## Left out

- Interleaving inside one worker operation: requests of a sandbox are serialised, and none executes after its caller gave up.
- HTTP, vsock, WebSocket and Unix-socket transport, authentication, Redpanda, the process and mount plumbing: calls that succeed or fail.
- The proxy, its sessions and routes; in CUTOVER only the worker call behind an exposed port is modelled.
- The command plane, command replay and its filters, Terraform, shell scripts and the demo.
- Clocks, backoff and keep-alive timing; boot identifiers are part of whether a guest answers.
- Shared-root hard-link transfers, whose descriptor names no content, and the artifact pull route without a migration.
- Manifests in which an artifact is filed under another kind than its own.
- Texts of allocator keys: a key is its prefix and its parts, which is the same unless a pinned address holds a colon.
- Sharing of one `preparing` promise by concurrent prepare calls.
- Falling back to polling once the event stream is given up, and event streams cut inside an event, where the trailing fragment is read as a block.
- Connections that end in an error instead of an end of stream: watch then throws.
- Numbers in canonical JSON other than safe integers, dates, and values of kinds that are refused.
- A retry field above the range of a double is kept as the number it says.
- Watch.Watch: takes from the payload only that it is one line and tells the phase, as JSON printing and parsing give.
- WorkerCore.Core.TransferMigration: takes it as a fault whether the ports of the manifest were exposed; `WorkerPorts.Exposer.TransferMigration` exposes them.
- WorkerCore.Core.Perform: allows a record that a failed create left behind to hold no keys, as the code does; such a record holds none at all.
- WorkerPorts.Exposer.Perform: a relay stops only when the worker stops it, and a worker that is restarted is a new one without exposures.
