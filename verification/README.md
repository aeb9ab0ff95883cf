# Verified model of idk

idk runs registered tasks on behalf of projects, keeps their outcomes and logs, installs itself, and keeps
project definitions in step with a portable declaration. This project models the parts of it that keep durable
state or that read and write formats, and proves what they promise over every run, fault and input. Check it with
`dafny verify dfyconfig.toml`.

## How the model is built

- **Specification functions and objects.** Each component has pure functions for its operations, over plain
  values. Where the source updates an object or runs a loop, a class or a method does the same, step by step, and
  is proved equal to its function. The lemmas are about the functions.
- **Faults.** A disk step may succeed, fail before it reached the disk, or fail after it did
  (`Faults.Outcome`): a rename precedes the synchronisation of its directory (crates/idk/src/store.rs:340-343). The
  outcomes of all future steps are an arbitrary sequence. Every operation returns at its first error, so a failed
  step is also a crash at that point.
- **Interleavings.** The log writer and the advisory locks between processes are state machines; one step is one
  atomic action of one thread or process, and the lemmas hold for every sequence of enabled steps.

## The parts

| files | component |
|---|---|
| `Installation`, `InstallationSafety`, `InstallationUpdates`, `InstallerPrefix` | activation journal: install, uninstall, recover |
| `RunLedger`, `RegistrySpec`, `RegistryInvariant`, `RegistryRetention`, `RegistryRuns`, `RegistryOutcomes`, `RegistryAdmission`, `RunRegistryObject` | registered runs: reservation, finalization, retention, pins |
| `RegistryHistory`, `RegistryLeases`, `RegistryCleanup`, `RegistryJournals`, `RegistryExample`, `RegistryCrowded` | the registry over whole histories, with two histories that happen |
| `SourceGateModel`, `RegistryGate` | source leases of runs and mutations, and the registry that holds them |
| `HostCoordination`, `ReconnectionSafety` | file locks between hosts, runs and root reconnections |
| `RegistryCoordination`, `RegistrySimulation`, `RegistryAmongOthers` | the registry as a process of that lock protocol, beside any others |
| `PortableModel`, `PortableSync`, `PortableThreeWay`, `PortableDeclared`, `PortableFixpoint`, `PortableKeeps`, `PortableDraft`, `PortableExample` | declarations resolved against local edits |
| `PortableKeys`, `PortableExport`, `PortableRoundTrip`, `PortableImport` | export of a project as a declaration, and its way back |
| `RunLog`, `OutputSink` | concurrent bounded log writer |
| `ControlStripper`, `Problems`, `ProblemReports`, `ProblemFindings`, `ProblemLog`, `ProblemParserObject`, `LogPipeline` | from log bytes to findings |
| `FindingPages` | byte-bounded pages of structured findings |
| `GitStatus`, `Archive`, `ArchiveWriter`, `EditorArgv`, `EditorForms` | parsers against printers of their formats |
| `Faults`, `Text`, `Decimal` | shared notions |

## What was found

- **A reconnection asks the ledger, not the host.** After a root reconnection has checked the ledger, the ledger keeps
  settled runs only, whatever any process does until the reconnection ends, if and only if at the check every serving
  host also remembers settled runs only (`ReconnectionSafety.CheckHoldsIff`; for the registry,
  `RegistryAmongOthers.ReconnectionMayRelyIff`). The program does not test that. The two can differ because an
  acknowledgement can slip: when a user acknowledges the cleanup of an unknown run and the save reaches the disk but
  reports failure, memory is rolled back while the disk says settled. `HostCoordination.ReconnectionIsGuarded` shows
  that this is the only way. `ReconnectionSafety.SlipLetsReconnectionThrough` has the steps of the loss, and
  `SlippedAcknowledgement` reaches them. A slip is harmless when it was repeated with success
  (`ReconnectionSeesSettledRuns`), when its host ended before the check (`SlipOfEndedHostIsHarmless`), and when its
  host saved again before it (`SlipSavedAgainIsRefused`).
- **Withdrawing a pin ignores reserved starts.** The bound of 64 on unpinned runs and reserved starts survives it
  exactly when no start was reserved or the bound was not reached before the call
  (`RegistryHistory.UnpinKeepsRoomIff`). `RegistryCrowded.UnpinCanLoseRoom` is a history from the empty disk, without
  any fault, after which it is lost. No other call loses the bound (`RoomKept`).
- **A retirement that reported failure can still happen.** When the save of a retirement reaches the disk but
  reports failure, memory keeps the run while the disk's journal names it, and a host that starts after a crash
  deletes its files (`RegistryCleanup.SlippedRetirementHappens`, `RegistryExample.ItsRetirementCanSlip`). A start
  after a crash inside a cleanup ends with the files of an undisturbed cleanup, for every interruption, exactly when
  the two journals agreed before (`CrashedCleanupIsHarmlessIff`), and in every history they agree unless such a
  retirement is on the disk (`RegistryJournals.EveryHistoryJournals`). Then, too, only journalled files go
  (`CrashedCleanupDeletesJournaled`). A living registry may always repeat an interrupted cleanup
  (`InterruptedCleanupIsHarmless`).
- **The editor settles late.** A project may come to a synchronisation without an editor: because it was removed
  since the last one, or because the project never had one, the declaration is new to it and names none. If the
  declaration and the preferences together still give an editor other than the discovered one, that synchronisation
  takes the discovered one and the next the given one. It happens in exactly these cases, and never later
  (`PortableFixpoint.EditorSettlesUnless`, `SecondResolutionSettles`; `PortableExample.EditorCanChange` is an instance).
- **A complete log may lack its end.** The writer can find the queue empty, and see `finish` only after a last chunk
  was queued (`OutputSink.CompleteCanMissAChunk`). A log shown as complete is whole exactly when its two byte counts
  agree (`CompleteIsWholeIff`).

## Assumptions

- Only the modelled programs change the modelled files; paths are canonical and files owned. Another host leaves a
  good disk behind (`RegistryHistory.MayLeave`).
- The host calls `finish_observed` for runs it owns; its cleanup flag never returns from true to false; bytes of a
  pinned result do not change (`RegistryRuns.EndingAllowed`). New identities are new (`RegistryRuns.FreshId`,
  `RegistrySimulation.NewIdentity`, `PortableModel.Fresh`).
- UTF-8 decoding, which makes no text longer than its bytes, the diagnostic patterns, file discovery and the checks of single fields are functions that nothing
  depends on, given as parameters (`Problems.Grammar`, `PortableModel.Environment`).

## Model

| member | source | states |
|---|---|---|
| InstallationSafety.RestoreKeepsConsistent | crates/idk/src/install.rs:533-562 | Undoing an activation, cut off at any step, leaves a disk that recovery still applies to; finished, the state is the journal's previous one |
| InstallationSafety.InstallKeepsConsistent | crates/idk/src/install.rs:250-350 | An update cut off at any step leaves a recoverable disk, forgets no generation and lowers no floor; success means the target is active and the links match |
| InstallationSafety.StageKeepsConsistent | crates/idk/src/install.rs:283-318 | Staging leaves links and active version alone; success means that the target is sealed and in the inventory |
| InstallationSafety.ActivateKeepsConsistent | crates/idk/src/install.rs:322-349 | Activation cut off anywhere is either undone or finished by recovery; success commits exactly the target |
| InstallationSafety.UninstallKeepsConsistent | crates/idk/src/install.rs:375-398 | Removing the entrypoints, cut off anywhere, is recoverable; success leaves no active version and an unchanged inventory |
| InstallationSafety.RecoverKeepsConsistent | crates/idk/src/install.rs:351-374 | Recovery that is itself cut off leaves a recoverable disk with the same state |
| InstallationSafety.RecoverFinishes | crates/idk/src/install.rs:202-232 | On a working disk recovery succeeds from every recoverable disk, both links match, and the state is the journal's previous or committed one, as the review announced |
| InstallationSafety.UnhealthyActivationIsUndone | crates/idk/src/install.rs:336-342 | A failed health check of the activated binary puts state, current link and launcher back |
| InstallationUpdates.UnhealthyStagedIsRefused | crates/idk/src/install.rs:319-320 | A staged binary of bad health is refused on every disk and at every failure; active version, floor, both links and journal stay as they were |
| InstallationUpdates.InstallGoesThroughIff | crates/idk/src/install.rs:250-350 | On a steady disk without faults an update succeeds if and only if the target is well-formed, not below own bundle, floor and active version, known as it is or new with room and a free directory, of good health when staged, and of good health when activated unless it is active already |
| InstallationUpdates.InstallActivates | crates/idk/src/install.rs:321-350 | A successful update leaves the target active, recorded beside all others, linked, and its version as floor, with no journal |
| InstallationUpdates.RefusedInstallIsUndone | crates/idk/src/install.rs:250-350 | Without faults a refused update leaves active version, floor, both links and journal as they were |
| InstallationUpdates.DowngradeChangesNothing | crates/idk/src/install.rs:252-282 | An update below own bundle, floor or active version, over an open journal or over wrong links changes nothing on disk |
| InstallationUpdates.UninstallGoesThrough | crates/idk/src/install.rs:375-398 | On a steady disk without faults the removal succeeds, and keeps every generation and the floor |
| InstallationSafety.HistoryKeepsConsistent | crates/idk/src/install.rs:250-398 | Any history of interrupted installs by bundles of any versions, uninstalls and recoveries keeps the disk recoverable, the inventory growing and the floor rising |
| InstallationSafety.EntrypointRespectsFloor | crates/idk/src/install.rs:467-483 | Whatever the links name at any moment is sealed, in the inventory and not below the committed floor |
| InstallationSafety.EveryHistoryRecovers | crates/idk/src/install.rs:351-374 | From an empty prefix, after any two interrupted histories, recovery succeeds and nothing below an earlier floor is active |
| InstallationSafety.CommitIsSound | crates/idk/src/install.rs:108-123 | The committed successor of a valid state is valid: the floor is a recorded version and the active version does not exceed it |
| InstallationSafety.RecordingIsValid | crates/idk/src/install.rs:68-107 | Recording a new generation within the limit keeps a state valid |
| InstallerPrefix.Installer.InstallBundle | crates/idk/src/install.rs:250-350 | The ordered disk writes of an update have the specified effect for every outcome of every step; a consistent disk stays consistent, no generation is forgotten, success makes the target active, and a bad first health report leaves the installation as it was |
| InstallerPrefix.Installer.RecoverInstallation | crates/idk/src/install.rs:351-374 | The same for recovery; success ends with a steady disk in the same state |
| InstallerPrefix.Installer.UninstallEntrypoints | crates/idk/src/install.rs:375-398 | The same for removing the entrypoints; success leaves no active version |
| InstallerPrefix.Installer.RestoreBefore | crates/idk/src/install.rs:533-562 | The same for undoing an activation |
| InstallerPrefix.Installer.StageGeneration | crates/idk/src/install.rs:283-318 | The same for sealing and recording a generation |
| InstallerPrefix.Installer.ActivateGeneration | crates/idk/src/install.rs:322-349 | The same for journal, links, health check and commit |
| InstallerPrefix.Installer.PointCurrent | crates/idk/src/install.rs:498-510 | The same for the active link |
| InstallerPrefix.Installer.MakeLauncher | crates/idk/src/install.rs:511-521 | The same for the launcher link; an unmanaged one is left alone |
| RegistryHistory.HistoryKeeps | crates/idk/src/run.rs:343-452 | Every history of registry calls, failing saves, crashes, restarts and other hosts in between keeps the invariant of memory and disk |
| RegistryHistory.ReleasedOnlyWhenDurable | crates/idk/src/run.rs:938-1069 | While the registry lives, no call removes the record of a run that holds its lock, and lock and lease go only once the ledger on disk records it as settled |
| RegistryHistory.EveryHistoryHoldsUnsettledRuns | crates/idk/src/run.rs:1503-1511 | After any history, an owned run that is not settled holds its lock and stands unsettled on disk; a released one stands settled there |
| RegistryLeases.EveryHistoryHoldsLeases | crates/idk/src/run.rs:938-1069 | After any history, an owned run that is not settled and was started with a source identity still holds its source lease beside its lock |
| RegistryHistory.EveryHistoryAdmitsApart | crates/idk/src/run.rs:492-620 | After any history, operation identities of runs and reserved starts are distinct, and build outputs of busy runs and reserved starts neither equal nor contain each other |
| RegistryHistory.RoomKept | crates/idk/src/run.rs:492-756 | Every call but withdrawing a pin keeps unpinned runs and reserved starts within 64 together |
| RegistryHistory.UnpinKeepsRoomIff | crates/idk/src/run.rs:1430-1446 | Withdrawing a pin, when it goes through, keeps that bound if and only if before the call no start was reserved or unpinned runs and reserved starts were fewer than 64 |
| RegistryCrowded.UnpinCanLoseRoom | crates/idk/src/run.rs:1430-1446 | From the empty disk and without any fault, 64 runs, one pin and one reserved start lead to a registry where the bound is lost |
| RegistryHistory.EveryCrashKeepsFiles | crates/idk/src/run.rs:1294-1335 | In every crash state, retention has deleted no file of a run that the ledger on disk still holds, and its stored bodies are there |
| RegistryHistory.OnlyRotatableRunsGo | crates/idk/src/run.rs:1236-1244 | Reservation and unpinning never retire a pinned, live, unconfirmed or finishing run |
| RegistryHistory.OpeningKeepsUnrotatableRuns | crates/idk/src/run.rs:1336-1349 | Nor does the expiry that opening performs, whatever fails: a live record stays as one of unknown outcome |
| RegistryExample.OneRunLives | crates/idk/src/run.rs:474-491 | On a disk that does not fail, a run can be reserved, committed, running and ended; it is then settled on disk and its lock is gone |
| RegistryExample.ItsRetirementCanSlip | crates/idk/src/run.rs:1294-1335 | The retirement of that run can report failure, leave it in memory and still happen with the next start |
| RegistryCleanup.InterruptedCleanupIsHarmless | crates/idk/src/run.rs:1245-1293 | However a cleanup was interrupted, running it again in the living registry ends with an empty journal and the files that one undisturbed cleanup leaves |
| RegistryCleanup.QuietCleanupFinishes | crates/idk/src/run.rs:1245-1293 | From any good registry an undisturbed cleanup succeeds, empties the journal and deletes exactly the files it names |
| RegistryCleanup.CrashedCleanupIsHarmlessIff | crates/idk/src/run.rs:343-444 | After a crash anywhere in a cleanup, a host that starts on that disk ends with the files of an undisturbed cleanup, for every interruption, if and only if the journals in memory and on disk named the same remaining files before |
| RegistryCleanup.SlippedRetirementDisagrees | crates/idk/src/run.rs:1294-1335 | They differ after a retirement that reached the disk, reported failure and was taken back |
| RegistryCleanup.SlippedRetirementHappens | crates/idk/src/run.rs:1294-1335 | After such a retirement memory keeps the run and the disk its log, and a host that starts then has neither |
| RegistryJournals.EveryHistoryJournals | crates/idk/src/run.rs:1245-1335 | After any history the journals agree, unless the disk has retired one more run that memory still holds; then they disagree while that run's log is stored |
| RegistryCleanup.CrashedCleanupDeletesJournaled | crates/idk/src/run.rs:1245-1293 | Whatever was interrupted, the cleanup of the next start deletes only files that one of the two journals named |
| RegistryRetention.RemoveHistoryKeeps | crates/idk/src/run.rs:1294-1335 | Moving a run to the journal and deleting its files keeps the invariant at every failure |
| RegistryRetention.TrimKeeps | crates/idk/src/run.rs:1336-1349 | Expiry and rotation keep the invariant, remove only rotatable records and leave the others as they were |
| RegistryRuns.BeginReserveKeeps | crates/idk/src/run.rs:492-620 | Reserving a start keeps the invariant |
| RegistryRuns.BeginCommitKeeps | crates/idk/src/run.rs:627-756 | Committing a start, prepared or not and whatever the save does, keeps the invariant; a failed one is rolled back with its files |
| RegistryRuns.FinishObservedKeeps | crates/idk/src/run.rs:938-1069 | Finalizing a run keeps the invariant whatever the save does |
| RegistryRuns.CancelKeeps | crates/idk/src/run.rs:837-861 | Cancelling keeps it; a failed save is rolled back |
| RegistryRuns.AcknowledgeKeeps | crates/idk/src/run.rs:864-883 | Acknowledging an unknown cleanup keeps it |
| RegistryRuns.PinResultKeeps | crates/idk/src/run.rs:1390-1452 | Pinning and unpinning keep it |
| RegistryRuns.OpenKeeps | crates/idk/src/run.rs:343-444 | Opening the ledger that a crash left establishes it: live runs become unknown, and cleanup resumes |
| RegistryInvariant.PersistKeeps | crates/idk/src/run.rs:1503-1511 | A save from good memory leaves a good pair of memory and disk, also when it fails after reaching the disk |
| RegistryOutcomes.EndingIsRecorded | crates/idk/src/run.rs:1016-1061 | A finalization that succeeds leaves on disk: unknown if and only if the cleanup is unconfirmed or an uncancelled run has neither exit nor error, cancelled if and only if confirmed and cancelled, succeeded if and only if confirmed, uncancelled and the exit clean, failed if and only if confirmed, uncancelled and the exit unclean or an error without exit; with the bodies captured first, and every other record untouched |
| RegistryOutcomes.EndingIsTaken | crates/idk/src/run.rs:938-1069 | On a disk that takes the save, every ending that the host may report of an owned run is recorded |
| RegistryOutcomes.EndingReleases | crates/idk/src/run.rs:1060-1067 | After a recorded ending lock and lease are gone if the cleanup is confirmed and as before otherwise |
| RegistryOutcomes.CancelIsRecorded | crates/idk/src/run.rs:837-863 | A granted cancellation is on disk, with the timeouts that asked for it, and changes no other record |
| RegistryOutcomes.CancelGrantedIff | crates/idk/src/run.rs:837-863 | On a disk that takes the save, a run can be cancelled if and only if it is live and its end was not observed |
| RegistryOutcomes.CancelledRunEndsCancelled | crates/idk/src/run.rs:1042-1055 | A cancelled run whose cleanup is confirmed ends as cancelled, whatever its exit says |
| RegistryOutcomes.AcknowledgementIsRecorded | crates/idk/src/run.rs:864-882 | An acknowledged run keeps its unknown outcome, counts as cleaned up on disk, and owns its outputs no longer |
| RegistryOutcomes.AcknowledgementGrantedIff | crates/idk/src/run.rs:864-882 | On a disk that takes the save, an acknowledgement is granted if and only if the outcome is unknown and this host does not own the run |
| RegistryOutcomes.PinIsRecorded | crates/idk/src/run.rs:1390-1451 | A pin that is set is on disk, within 16 pinned runs and 128 MiB, and changes nothing else |
| RegistryOutcomes.PinGrantedIff | crates/idk/src/run.rs:1390-1451 | On a disk that takes the save, a pin is set if and only if the run is settled, its result intact and both limits keep |
| RegistryOutcomes.SpawnIsRecorded | crates/idk/src/run.rs:826-835 | A live run becomes running on disk, unless its cancellation came first |
| RegistryAdmission.StartGrantedIff | crates/idk/src/run.rs:492-620 | On a disk without faults a start is granted if and only if its operation is new, the definition read under the lock is the reviewed one, its task, outputs and source are free, and the records that may not rotate leave room within 64 |
| RegistryAdmission.GrantedStartIsReserved | crates/idk/src/run.rs:600-620 | Whatever the disk does, a granted start carries the request and is reserved behind the earlier ones |
| RegistryAdmission.RepeatedOperation | crates/idk/src/run.rs:499-513 | A repeated operation finds its own run if task and definition are the same, and is refused otherwise |
| RegistryAdmission.RunningTaskIsFound | crates/idk/src/run.rs:536-545 | A new operation finds an existing run if and only if runs beside each other were not asked for, and it is the latest live run of the task |
| RegistryAdmission.CommittedStartIsFound | crates/idk/src/run.rs:492-756 | Each retry of a committed start finds its run, so it never runs twice |
| RegistryAdmission.CommittedRecord | crates/idk/src/run.rs:627-756 | A committed start is the last record on disk, as requested and preparing, and holds lock and lease |
| RegistryAdmission.ExpiryTakesOverdue | crates/idk/src/run.rs:1336-1349 | Expiry takes exactly the rotatable records that finished more than thirty days ago |
| RegistryAdmission.OpeningTakesOverdue | crates/idk/src/run.rs:343-444 | A host opens with exactly the recovered records of the ledger, except the unpinned settled ones that finished more than thirty days ago |
| RunRegistryObject.RunRegistry.Reserve | crates/idk/src/run.rs:492-620 | The object's reservation is the specified one, with its checks in order, and keeps the invariant |
| RunRegistryObject.RunRegistry.Commit | crates/idk/src/run.rs:627-756 | The same for committing a reserved ticket |
| RunRegistryObject.RunRegistry.Finish | crates/idk/src/run.rs:938-1069 | The same for finalizing as the host promises; what it records is stated by EndingIsRecorded |
| RunRegistryObject.RunRegistry.Cleanup | crates/idk/src/run.rs:1245-1293 | The loop over the journal is the specified cleanup, and it ends |
| RunRegistryObject.RunRegistry.Expire | crates/idk/src/run.rs:1336-1349 | The expiry loop is the specified one, and it ends |
| RunRegistryObject.RunRegistry.Rotate | crates/idk/src/run.rs:583-592 | The rotation loop is the specified one, and it ends |
| RunRegistryObject.RunRegistry.MoveToJournal | crates/idk/src/run.rs:1294-1335 | A run leaves the history only through the journal; a failed save puts it back |
| RunRegistryObject.RunRegistry.OldestExpired | crates/idk/src/run.rs:1336-1349 | The search finds the first record past its time that may rotate, or none |
| RunRegistryObject.RunRegistry.OldestRotatable | crates/idk/src/run.rs:1236-1244 | The search finds the first record that may rotate, or none |
| RunRegistryObject.RunRegistry.OutputsAreFree | crates/idk/src/run.rs:564-578 | The nested scan answers whether the outputs conflict with no busy run and no reserved start |
| RunRegistryObject.RunRegistry.PinRun | crates/idk/src/run.rs:1390-1452 | Pinning and unpinning with limits, rotation and rollback are as specified and keep the invariant |
| RunRegistryObject.RunRegistry.CancelRun | crates/idk/src/run.rs:837-861 | Cancelling is as specified and keeps the invariant |
| RunRegistryObject.RunRegistry.Acknowledge | crates/idk/src/run.rs:864-883 | Acknowledging is as specified and keeps the invariant |
| RunRegistryObject.RunRegistry.Recover | crates/idk/src/run.rs:343-444 | Opening after a crash is as specified and establishes the invariant |
| SourceGateModel.StepKeeps | crates/idk/src/model.rs:628-758 | Every act keeps leases and gate entries one to one, and no worktree has a run and a mutation at once |
| SourceGateModel.HistoryUnderRunLease | crates/idk/src/model.rs:716-758 | From any good gate, while a run lease is held, whatever else is granted and dropped in any order, its worktree has no mutation and the generation stands still: start and end observations carry the same one |
| SourceGateModel.EveryHistoryIsExclusive | crates/idk/src/model.rs:708-758 | After any history, leases are exactly the entries, and runs exclude mutations |
| SourceGateModel.DroppedGateIsIdle | crates/idk/src/model.rs:745-758 | With every lease of a worktree dropped, no run and no mutation remains entered |
| SourceGateModel.GrantedIff | crates/idk/src/model.rs:716-744 | A source is granted if and only if its provider is ready, nothing blocks it, and no lease held excludes it: a mutation excludes everything, a run excludes mutations and its own operation, runs share |
| SourceGateModel.GenerationMoves | crates/idk/src/model.rs:745-758 | A dropped mutation lease advances the generation of its worktree by one, and nothing else moves any |
| SourceGateModel.BlockedUntilReleased | crates/idk/src/model.rs:646-690 | Over any history a block survives until it is released itself, and its worktree grants no lease meanwhile |
| SourceGateModel.SourceGate.TryReserve | crates/idk/src/model.rs:716-744 | A lease is granted under the stated conditions and entered; otherwise nothing changes |
| SourceGateModel.SourceGate.DropLease | crates/idk/src/model.rs:745-758 | A drop removes its own entry and counts a mutation |
| RegistryGate.ObservationsAgree | crates/idk/src/run.rs:903-938 | Over any history of registry calls and of gate acts by anybody, as long as the registry holds a source lease, in a ticket or with a run, its worktree has no mutation and its generation stands still: the observations at start and end carry the same one |
| RegistryGate.CommitHandsOver | crates/idk/src/run.rs:627-756 | A commit brings in no lease, and a successful one keeps the ticket's lease for the run |
| RegistryGate.UnsettledRunHolds | crates/idk/src/run.rs:938-1069 | An owned run that is not settled holds the lease of its own identity and operation |
| HostCoordination.InterleavingKeeps | crates/idk/src/store.rs:352-416 | Every interleaving of starts, older hosts, runs, saves, reconnections and crashes keeps the lock discipline |
| HostCoordination.ReconnectionIsGuarded | crates/idk/src/project.rs:363-394 | When a reconnection may commit, no start is reserved, no committed run lacks a durable end, no older host lives, and every unsettled record is one whose acknowledgement slipped |
| ReconnectionSafety.CheckHoldsIff | crates/idk/src/project.rs:380-394 | In every good world: after the check the ledger keeps settled runs only, whatever any process does until the reconnection ends, if and only if every serving host remembers settled runs only at the check |
| ReconnectionSafety.CheckedHistoryCommitsSettled | crates/idk/src/project.rs:363-394 | Over every history with settled memories at its check, a reconnection commits over settled runs, on disk and in memory |
| ReconnectionSafety.ReconnectionSeesSettledRuns | crates/idk/src/project.rs:380-394 | A consequence for histories: when every acknowledgement that slipped was repeated with success, a reconnection commits over settled runs only, on disk and in memory |
| ReconnectionSafety.SlipLetsReconnectionThrough | crates/idk/src/run.rs:864-883 | In every world where an idle host has one unsettled run left, which it does not own, and no run holds the lock: an acknowledgement that reached the disk but failed lets a reconnection check the ledger, and the host's next save makes it unsettled while the reconnection may commit |
| ReconnectionSafety.SlippedAcknowledgement | crates/idk/src/run.rs:864-883 | From a ledger with one unsettled run, the steps of one host and one reconnection to the loss |
| ReconnectionSafety.SlipOfEndedHostIsHarmless | crates/idk/src/run.rs:864-883 | In all those worlds the slip is harmless when its host ends before the check: the reconnection's check goes through and holds |
| ReconnectionSafety.SlipSavedAgainIsRefused | crates/idk/src/project.rs:380-394 | And when its host saves again before it, the check refuses |
| HostCoordination.OneHostServes | crates/idk/src/host.rs:69-78 | Two hosts never serve at once, and none serves beside an older one, although the lock conversion is not atomic |
| HostCoordination.UnsettledRunsBlock | crates/idk/src/project.rs:375-394 | An unsettled run of a living host keeps the guard closed, and its record keeps the check failing after a crash |
| RegistrySimulation.CallIsSimulated | crates/idk/src/run.rs:492-1069 | Every call of a good registry, with whatever its saves do, is a sequence of protocol steps of a serving host from the view of registry and ledger to the view after the call; the run-use lock is taken first, and only by a start to which it was granted |
| RegistryAmongOthers.CallRunsInWorld | crates/idk/src/run.rs:515-530 | In any world where a process shows the registry these steps are enabled one after the other, a start needing the lock to be free |
| RegistryAmongOthers.MovesDecide | crates/idk/src/store.rs:352-416 | However the steps of other processes come between, a process ends where its own steps lead, and the ledger changes that it finds at its start; the locks keep the others from the ledger afterwards |
| RegistryAmongOthers.HistoryIsSimulated | crates/idk/src/host.rs:69-78 | Every registry history of calls, failing saves, crashes, restarts and other hosts in between is what one process sees in a run of the lock protocol from a world in which nothing has happened |
| RegistryAmongOthers.ReconnectionFindsQuietRegistry | crates/idk/src/project.rs:363-394 | In every interleaving with reconnections, older hosts and other processes of which a process sees a registry history: when a reconnection may commit, the registry has no reserved start and holds no run, and what is unsettled in memory or on disk slipped; nothing is, when every slip was repeated with success |
| RegistryAmongOthers.ReconnectionMayRelyIff | crates/idk/src/project.rs:380-394 | In every such interleaving with the registry running: a reconnection may rely on its check until it ends if and only if every run in the registry's memory is settled at the check |
| PortableSync.MergeEnvironmentIsThreeWay | crates/idk/src/portable.rs:551-559 | Per environment key the result is the local value where it differs from the baseline, and the declared one otherwise, absence included |
| PortableThreeWay.LocalEditsWin | crates/idk/src/portable.rs:520-594 | For every field of shell, native launch, single environment keys, editor, name and terminals: equal local and baseline values give the declared one, different ones the local one; nothing else changes |
| PortableThreeWay.SynchronisedIsThreeWay | crates/idk/src/portable.rs:841-922 | The project that a synchronisation returns is that choice between what is declared now, what was declared last and the local project; an editor is looked for only if that leaves none |
| PortableThreeWay.AdoptedKeepsUndeclared | crates/idk/src/portable.rs:851-860 | A declaration new to a local project replaces shell and editor only where it names one |
| PortableThreeWay.EditedTaskSurvives | crates/idk/src/portable.rs:845-850 | A declared task that was edited locally is in the result as edited |
| PortableDeclared.ShellPrecedence | crates/idk/src/portable.rs:403-446 | The shell of a project, each field and environment key: from the declaration, else from the preferences, else the default; a native declaration over a preferred legacy shell starts from nothing |
| PortableDeclared.DeclaredTaskIsResolved | crates/idk/src/portable.rs:747-818 | Every declared task is in the resolved project under its identity, with every field as declared and exactly one way to run |
| PortableDeclared.DeclaredTerminalFields | crates/idk/src/portable.rs:722-746 | What the declaration makes of its terminals, of their directories and of the default one |
| PortableDeclared.EditorPrecedence | crates/idk/src/portable.rs:819-840 | Program, arguments and kind of the editor: from the declaration, else from the preferences, else the default |
| PortableFixpoint.ResolvingAgain | crates/idk/src/portable.rs:602-949 | Resolved, applied and resolved again, a managed project is the same apart from its editor, with the same identities for the same keys |
| PortableFixpoint.EditorSettlesUnless | crates/idk/src/portable.rs:918-922 | The second resolution changes the editor if and only if the project came without one, removed since the last synchronisation or new to a declaration that names none, although declaration and preferences give one other than the discovered one |
| PortableFixpoint.SecondResolutionSettles | crates/idk/src/portable.rs:602-949 | The second resolution is a fixed point, editor and binding included |
| PortableExample.RemovedEditorReturns | crates/idk/src/portable.rs:566-569 | After a local removal of the declared editor the next resolution takes the discovered one and the one after it the declared one |
| PortableExample.EditorCanChange | crates/idk/src/portable.rs:918-922 | A project, machine and declaration for which the second resolution changes the editor |
| PortableFixpoint.ReconciledFollows | crates/idk/src/portable.rs:841-889 | A reconciled project holds the declared definitions first and then local ones that no key owns |
| PortableFixpoint.NoEditIsLost | crates/idk/src/portable.rs:845-850 | A result synchronised again is never refused for an edited task |
| PortableKeeps.ApprovalsFollowDefinitions | crates/idk/src/portable.rs:890-908 | Every approval and every trust in the result was given to a definition with the same identity that nobody changed |
| PortableKeeps.LocalTaskSurvives | crates/idk/src/portable.rs:861-874 | A local task that no declaration owned comes through unchanged, approval included |
| PortableKeeps.LocalTerminalSurvives | crates/idk/src/portable.rs:875-889 | A local terminal that no declaration owned comes through unchanged, trust included |
| PortableKeeps.KeysKeepIdentities | crates/idk/src/portable.rs:709-721 | Over any history of synchronisations, a key keeps its identity, also while a declaration drops it |
| PortableKeeps.DeclaredKeysArePresent | crates/idk/src/portable.rs:722-822 | Every declared key has its definition in the result under the recorded identity |
| PortableDraft.SyncingSettles | crates/idk/src/portable.rs:602-982 | Over a whole workspace: resolve and apply twice, and the next resolution repeats the last; the first and second differ in the editor only |
| PortableDraft.AppliedIsStored | crates/idk/src/portable.rs:964-976 | Applying stores exactly the project and its binding, and leaves every other project and binding |
| PortableDraft.AppliedIsRecent | crates/idk/src/portable.rs:977-980 | The applied project is selected and first among at most 32 different recent ones, and below the limit no recent one is lost |
| PortableDraft.Store.Apply | crates/idk/src/portable.rs:951-982 | A result is refused exactly when the workspace's revision, a bound declaration or the preferences changed; a failed save leaves the workspace or the new one |
| PortableDraft.ApplyPatch | crates/idk/src/portable.rs:161-187 | A contradictory or invalid patch changes nothing; otherwise replacement, clearing, removals and settings apply in that order |
| PortableDraft.PatchedKeyByKey | crates/idk/src/portable.rs:161-187 | What a patch makes of each single key |
| PortableDraft.MergeEnvironmentInto | crates/idk/src/portable.rs:551-559 | The removal and insertion loops give the three-way merge |
| PortableDraft.Draft.OverrideLocally | crates/idk/src/portable.rs:520-594 | Editing the draft field by field gives the three-way merge of shell, editor, name and terminals that LocalEditsWin states |
| PortableDraft.Draft.CarryOverFrom | crates/idk/src/portable.rs:861-916 | The loops add undeclared local definitions in order and hand approvals over |
| PortableDraft.Draft.ApplyShellDeclaration | crates/idk/src/portable.rs:403-446 | A shell declaration applied in place is the specified one, with its errors |
| PortableDraft.Draft.PatchNativeShell | crates/idk/src/portable.rs:190-220 | Native mode is entered when asked for, then arguments and environment are edited in native mode only and when valid; an empty patch always succeeds, and what a refused one leaves behind |
| PortableDraft.PatchedShellFields | crates/idk/src/portable.rs:190-220 | A patch keeps program and directory, resets login and sources only on entering native mode, and edits the environment key by key |
| PortableKeys.KeysAreDistinct | crates/idk/src/portable.rs:1204-1219 | Exported keys are distinct, and exactly the given definitions have one |
| PortableKeys.KeysAreValid | crates/idk/src/portable.rs:1204-1219 | Keys made from valid names are valid names, the numbered ones included |
| PortableKeys.FirstFree | crates/idk/src/portable.rs:1210-1215 | The search ends at the smallest free number, after at most as many attempts as there are used keys ahead |
| PortableKeys.SearchKey | crates/idk/src/portable.rs:1210-1215 | The search loop ends and finds that key |
| PortableKeys.AssignKeys | crates/idk/src/portable.rs:1204-1219 | The loop over definitions assigns those keys |
| PortableExport.RelativeThenAt | crates/idk/src/portable.rs:1178-1194 | A path or program made relative for export resolves to itself |
| PortableExport.CollectKeeps | crates/idk/src/portable.rs:1263-1277 | With distinct keys a table keeps every entry once |
| PortableRoundTrip.ExportedEntries | crates/idk/src/portable.rs:1220-1302 | An export has one entry for each definition, under distinct valid keys |
| PortableRoundTrip.ShellReturns | crates/idk/src/portable.rs:1232-1250 | Applied to any shell, the exported declaration sets every field back |
| PortableRoundTrip.TaskReturns | crates/idk/src/portable.rs:1278-1293 | An exported task resolves to itself under its new identity, its artifact producer renamed alike |
| PortableRoundTrip.ExportThenResolve | crates/idk/src/portable.rs:1176-1302 | Exported and resolved in a fresh workspace, whatever the preferences: same name, shell and editor, and all terminals and tasks up to an injective renaming, order, trust and approvals |
| PortableImport.ExportDeclaresIff | crates/idk/src/portable.rs:602-840 | An exported project can be declared here if and only if its programs exist, its shell and editor fit beside the preferences, its name connects, and no shell command meets a native shell |
| PortableImport.ExportResolvesIff | crates/idk/src/portable.rs:602-949 | With different fresh identities and a canonical editor path, an export resolves in a fresh workspace if and only if that holds and the result's single fields are accepted |
| PortableExample.ExampleComesBack | crates/idk/src/portable.rs:1176-1302 | A project whose export does resolve |
| OutputSink.StepKeeps | crates/idk/src/run.rs:73-136 | Every atomic step of producer, writer and host keeps queue, file and flags in agreement |
| OutputSink.FileIsPrefix | crates/idk/src/run.rs:85-117 | In every interleaving, write failures included, the file is a prefix of the observed stream and the recorded size keeps to the limit |
| OutputSink.NothingAfterALoss | crates/idk/src/run.rs:137-155 | After the first dropped bytes nothing more is queued, so nothing later is stored |
| OutputSink.LossIsVisible | crates/idk/src/run.rs:164-184 | A reader whose result is neither partial nor limited has the whole stream observed when its descriptor was taken |
| OutputSink.CompleteHoldsTaken | crates/idk/src/run.rs:118-125 | A log shown as complete holds every byte that its writer received |
| OutputSink.CompleteIsWholeIff | crates/idk/src/run.rs:164-184 | In every interleaving, a log shown as complete is the whole stream if and only if its two byte counts agree, and if and only if nothing is left in the queue or unsent |
| OutputSink.CompleteCanMissAChunk | crates/idk/src/run.rs:88-94 | Steps by which a log is complete although its last chunk was never received |
| LogPipeline.UnflaggedFindingsAreComplete | crates/idk/src/problems.rs:280-301 | Findings called neither limited nor partial are those of the complete output |
| ControlStripper.Controls.Consume | crates/idk/src/problems.rs:83-161 | One byte moves the automaton and outputs as specified |
| ControlStripper.StripInvertsPrint | crates/idk/src/problems.rs:83-161 | From any text with control sequences, escape sequences and control strings (sections 5.4 and 5.6 of ECMA-48, and BEL-terminated OSC) exactly the text remains |
| ControlStripper.StripIsIdempotent | crates/idk/src/problems.rs:83-161 | Stripping stripped text changes nothing, for every input |
| ControlStripper.RemovedIffShorter | crates/idk/src/problems.rs:78-96 | The removal flag is set exactly when bytes are gone; otherwise only carriage returns became line feeds |
| ControlStripper.StripAll | crates/idk/src/problems.rs:165-173 | The filtering loop gives the stripped bytes |
| Problems.BudgetsHold | crates/idk/src/problems.rs:453-513 | For every log: the retained counter equals the stored sizes and stays within 512 KiB, with at most 256 findings, 4 details each and 16 KiB a line |
| Problems.ChunkingDoesNotMatter | crates/idk/src/problems.rs:234-279 | Any contiguous chunking gives the findings of the log fed whole |
| Problems.GapsAreRefused | crates/idk/src/problems.rs:240-257 | Chunks are accepted only where the last one ended |
| Problems.ClipFits | crates/idk/src/problems.rs:174-191 | Clipped text fits its bytes and holds no forbidden character |
| Problems.ClipExact | crates/idk/src/problems.rs:302-329 | A line that is not refused is parsed exactly as it is |
| ProblemParserObject.ProblemParser.Push | crates/idk/src/problems.rs:234-279 | A refused chunk changes nothing; an accepted one is fed byte by byte within the budgets |
| ProblemParserObject.ProblemParser.CompleteLine | crates/idk/src/problems.rs:302-329 | A line is parsed, or refused with everything that depended on it; which findings result is stated by FindingsAreReported |
| ProblemReports.LineTurns | crates/idk/src/problems.rs:331-452 | Whatever the patterns are, the first one that matches and finds what it refers to decides what a line adds, remembers or ends |
| ProblemLog.EveryLogHasLines | crates/idk/src/problems.rs:258-276 | Any bytes are lines that each say something and a last one without an end, so the next four rows cover every log |
| ProblemLog.FindingsAreReported | crates/idk/src/problems.rs:234-513 | The findings of any log: within the budgets one for each line that reports, in order, with the file, line, column, severity and clipped message it names and the offset where it starts, an error name at the remembered Python frame, a form file at the remembered message, and the first four of the indented lines that follow |
| ProblemLog.UnlimitedFindingsAreAll | crates/idk/src/problems.rs:234-513 | Findings not called limited are all that the lines report, with every detail |
| ProblemLog.LimitedIff | crates/idk/src/problems.rs:453-513 | Findings are called limited if and only if the log is, a line exceeds 16 KiB, the reports exceed 256 or 512 KiB, or one has a fifth detail |
| ProblemLog.PartialIff | crates/idk/src/problems.rs:280-329 | Findings are called partial if and only if the log was read incompletely, ends inside an escape sequence, or has a line that cannot be shown exactly |
| ProblemParserObject.ProblemParser.Finish | crates/idk/src/problems.rs:280-301 | The result carries the flags that the descriptor and the parser's state demand |
| FindingPages.EveryFindingFits | crates/idk/src/result_store.rs:474-550 | Whatever was stored, a displayed finding serializes to at most 61440 bytes |
| FindingPages.TruncatedIff | crates/idk/src/result_store.rs:474-550 | The truncation flag is clear exactly when every displayed text is the stored one |
| FindingPages.DisplayedTexts | crates/idk/src/result_store.rs:474-550 | Each displayed text is the stored one without controls, cut at its own limit of characters |
| FindingPages.LocatedIff | crates/idk/src/result_store.rs:504-533 | A finding has a location if and only if it names a path that is not empty, fits 4096 bytes and holds no control; path and each number are the stored ones |
| FindingPages.FillPage | crates/idk/src/result_store.rs:410-419 | A page takes as many findings as limit and budget let in |
| FindingPages.Page | crates/idk/src/result_store.rs:379-422 | A page request is refused exactly on a bad limit or offset |
| FindingPages.FindingPagesAdvance | crates/idk/src/result_store.rs:410-421 | A page that starts before the end is never empty |
| FindingPages.ReadAll | crates/idk/src/result_store.rs:379-422 | Reading page after page, with any limits, ends and visits every finding once in order |
| GitStatus.ParseStatus | crates/idk/src/git/parse.rs:13-99 | The record loop computes the specified parse, rename originals consumed with their records |
| GitStatus.StatusInvertsPrint | crates/idk/src/git/parse.rs:13-99 | For all valid entries with headers between them, parsing the printed status returns exactly their meaning, whatever lies in the paths |
| GitStatus.EntriesInOrder | crates/idk/src/git/parse.rs:52-97 | The entries of the result are the printed ones in order |
| GitStatus.ValidPathEnds | crates/idk/src/git/types.rs:12-26 | A valid path does not end in the slash that marks a directory |
| GitStatus.CountsReturn | crates/idk/src/git/parse.rs:30-48 | Printed branch counts are read back |
| Archive.VerifyArchive | scripts/release-native.py:187-237 | A bundle is accepted if and only if it is the whole gzip stream, within its bounds, of a bundle image |
| Archive.ScanIffImage | scripts/release-native.py:199-237 | The loop accepts exactly the images of the five members once each, with exact contents, zero padding and a zero tail of at least 1024 bytes |
| Archive.ScanMembers | scripts/release-native.py:199-237 | The loop computes that predicate |
| Archive.CheckHeader | scripts/release-native.py:201-221 | A header is accepted exactly for a file not seen before with good magic, checksum, mode, owner and size |
| ArchiveWriter.HeaderIsGood | scripts/collect-native-notices.py:679-686 | A written header passes every check |
| ArchiveWriter.OctalReturns | scripts/release-native.py:181-185 | Octal fields as written are read back |
| ArchiveWriter.NumbersAreChecked | scripts/release-native.py:215-220 | No header passes with a mode other than 755 for the program and 644 for the other files, with an owner or group, or with another size |
| ArchiveWriter.HeaderIsChecked | scripts/release-native.py:203-214 | A header that passes has the ustar magic, a regular type, an empty prefix, exactly the name of its file and, as checksum, the byte sum with eight spaces in its place |
| ArchiveWriter.WrittenIsAccepted | scripts/collect-native-notices.py:667-686 | Every archive written within the bound, of the computed size, is a bundle image |
| EditorArgv.ParseEditorArgv | crates/idk/src/editor.rs:558-610 | The character loop computes the specified tokens, with its errors and bounds; AcceptedIff states them for every text |
| EditorForms.CommandIsRead | crates/idk/src/editor.rs:558-610 | A command written from bare, escaped, single-quoted and double-quoted pieces with any white space is read as the meanings of its words, and refused exactly if a bound is exceeded, a control occurs, a quote stays open or an escape is cut off |
| EditorForms.EveryTextIsACommand | crates/idk/src/editor.rs:558-610 | Every text is the text of such a command, complete or cut off, so that covers all inputs |
| EditorForms.AcceptedIff | crates/idk/src/editor.rs:558-610 | Arguments are accepted from a text if and only if it is visible, both keep to the bounds, and it is the text of a complete command with these meanings |
| EditorArgv.TokensInvertQuoting | crates/idk/src/discovery.rs:752-755 | Arguments within the bounds and without controls, each quoted by either quoter and joined with spaces, come back exactly |
| EditorArgv.QuotedApostrophe | crates/idk/src/client.rs:483-492 | Both ways of writing a quote inside quotes are read as one quote |
| EditorArgv.AcceptedArgumentsAreBounded | crates/idk/src/editor.rs:558-610 | Accepted arguments keep to the bounds and hold no control |

## Left out

- Processes, terminals, signals, sockets, the shell and Git themselves: their reported outcomes are inputs.
- Digests, base64, gzip, TOML and JSON parsing, UUIDs: abstract values and given functions; JSON is modelled as a printer for the size of findings.
- Permissions, ownership and symlink checks, and changes by other programs: files are taken as owned and stable.
- Installation versions are unbounded numbers instead of 32-bit ones, and install counters are not kept.
- Run fields that no rule depends on (names, digests, source observations, log descriptors), ledger field formats and the migration from schema 1: easy checks.
- The Git operation ledger beyond its share of the run-use lock.
- `rebind_preview` and `remap_path`: path rewriting without durable state; the locks and guards around it are modelled.
- Wall-clock time: passed in.
- Poisoned mutexes of the log writer, and whether its thread is ever scheduled: safety only.
- The discriminating grammar of compiler, CMake, make, pytest, Python and uic messages: a given function, as are `raw_diff` and `history` of the Git parsers.
- `compare_ici`, `compare_lens`, event progress and export of results: set differences and copies.
- Unicode control and white space classes are concrete; other character tables are not needed.
- HostCoordination.ReconnectionIsGuarded: admits records whose acknowledgement slipped, because the program does.
- RegistryHistory.RoomKept: excludes withdrawing a pin, whose exact condition is UnpinKeepsRoomIff.
- ReconnectionSafety.ReconnectionSeesSettledRuns: a sufficient condition on acknowledgements alone; the exact condition is that of CheckHoldsIff.
- RegistryAmongOthers.HistoryIsSimulated: one process stands for all restarts, because process identities have no meaning beyond the locks.
- PortableRoundTrip.ExportThenResolve: says nothing of the default terminal, which an export does not carry.
- FindingPages.FillPage: works on the displayed findings, which the program computes one by one.
