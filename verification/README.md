# Durable mount transactions of the Drive9 CSI driver

A Drive9 volume on a node has a durable record that is absent, `starting`, `active` or `stopping`, a systemd
unit, a supervisor process, a kernel mount and some files. The driver moves them together although any command
may fail, take effect and still report failure, or be followed by a crash. This project models that protocol
and what stands around it, and proves its safety over every run and its progress where nothing interferes.
`dafny verify dfyconfig.toml` checks all of it.

## What is modelled

- **Records** (`MountRecord`, `MountArgs`, `RemotePath`, `Text`): validity, transitions, and the records that
  the driver builds. The code refines its own transition relation, recoveries fall back to exactly what was
  active, and a stop is final.
- **The host** (`World`, `Host`): everything one node holds for one volume. `Host.Host` is an object whose
  operations the reconcilers call; before each of them the environment may take a step. Its ghost history
  remembers the host at every start and deletion and at the look at the mount that it rests on, the record under
  every command, and the identities that were accepted, seen alive and killed, so that safety over runs is an
  invariant of the object (`Inv`).
- **Ownership** (`Ownership`): which host processes belong to a volume, although numeric pids are reused.
- **The reconcilers** (`Stop`, `Lifecycle`, `LaunchRequest`, `Starting`, `Launch`, `Recovery`, `NoState`).
- **The node service** (`Staging`, `PublishRecord`, `Node`): NodeStageVolume, NodeUnstageVolume,
  NodePublishVolume, NodeUnpublishVolume of the Container Storage Interface specification, section "Node Service
  RPC", and boot recovery. `Node.Node.Run` runs any sequence of them.
- **File transactions** (`StateFile`, `Installer`, `BinaryGC`): each object remembers every state that a reader
  or a crash could meet.
- **Codecs** (`StartupFiles`, `PathPolicy`): startup files from the driver to the launcher's exec, and path
  policies through the volume context into the argv.
- **Managed directories** (`ManagedVolume`): CreateVolume and DeleteVolume of the section "Controller Service
  RPC", over a remote path map.

Every operation may fail, with or without having had its effect. A crash after some step is the run in which
every later operation fails without effect, so what holds at every return of every call holds after every
crash. Progress is stated for a **settled** host, on which nothing moves by itself, every operation does its
job and every outside check passes: then a stop cleans up in two passes, a ready mount is promoted, a dead
attempt is cleared away, a stuck one is torn down, an unserved mount recovers and a launch starts its service.
On a settled host that is also **prompt** a started service is up at once, and staging succeeds. `reliable` plays
the same part as settled for files, inventories and the remote.

## What is assumed

- About the host, each a named predicate of `World`: a (pid, start time) pair never comes back to life; a unit
  only decays; a started unit spawns at most one supervisor; a supervisor that outlives its unit has written its
  process-state file; mounts, process-state files and sockets appear at a recorded staging target only while its
  unit runs or a supervisor of it lives, so nobody else ever mounts there; the clock never goes back. Spawning is
  up to the environment.
- Other mounts may appear at a publish target only while the driver has no record for it.
- A new attempt identifier differs from the one on record. Hashes are injective. A record that is written is read
  back as it was. RPCs on one volume are serialised by the volume lock. The collector runs under a mutex of the
  driver's process that every writer of records takes, so the records stay as they are meanwhile; the installer is
  another process with a file lock of its own, so versions may be added, or taken back after a failure, and the
  desired link may be moved at any time during a collection. Paths in requests are clean. Text is a sequence of Unicode scalar values.

## What a look at the mount is worth

The reconcilers read the mount before they look for the process and the unit, and act on these answers together.
What goes in between can leave its mount, or even its supervisor, unseen, and then a service may be started on a
mounted target, or a record deleted, although nothing failed. The model keeps the code as it is:

- The history remembers every start and every deletion with the host at that look at the mount. They are safe in
  this sense (`Host.SafeStart`, `Host.SafeDeletion`): there is no other supervisor, unless at that look the unit
  ran and had not lost its own; and there is no mount, unless the unit ran or a supervisor was alive then.
- This holds over every run (`Node.Node.Run`) until a supervisor has been missed, which the history shows
  (`Host.OwnerMissed`). From there on the world is **lost**: the run goes on, with the same operations and the same
  code, but the predicates about owners claim nothing and the environment may mount where it likes. What does not
  need one owner holds all the same: consumers keep their record, bind mounts and publish records agree, one mode,
  and kills name accepted identities.
- Both conditions are exact: `Starting.WindowIsSafeIff`, `Starting.OwnerIsSeenIff`, `Stop.DeadCheckHoldsIff` and
  `World.MountReadHoldsIff`, each with a schedule; `Starting.ExposedPass` is a failing pass for every record.
- `Starting.PassIsSafe`, with what `Starting.Reconcile` promises: a pass that begins with nothing of the volume
  alive is safe beyond doubt, and one that begins when no supervisor can come never starts a second owner.
- Stops and recoveries look at the mount after the unit has stopped, so they never miss a supervisor. A record that
  names a process names the only supervisor that there is or will be (`World.RecordNamesOwner`), so they never miss
  the mount of such a record either: an active mount is unmounted whenever its stop, unstage or clean-up succeeds
  (`Stop.Stop`, `Staging.UnstageVolume`, `Recovery.Cleanup`), and a recovery starts on a vacant target
  (`Recovery.Coordinate`).
- Without a process on record, the stop of a starting attempt and the clean-up of a failed candidate are as sure
  exactly if no supervisor can come any more as they begin (`Stop.PassIsSure`, `Stop.NothingIsOverlookedIff`):
  the unit does not run, or has lost the supervisor that it had spawned. `Stop.OverlookedPass` is a failing pass.

## What the code does that one might not expect

- `normalizeRemotePath` is not idempotent (`RemotePath.NormalizeTwiceDiffers`); `RemotePath.NormalizedIsFixedIff`
  is the exact condition. The record validator asks for fixed points, and so does the model.
- The recovery plan for a service with a verified main process and no verified recorded process has no unmount
  (`Recovery.MountIsUnmountedIff`), so such a recovery may need a second pass.
- The collector may report that it skipped after it has removed files: exactly if an unkept version precedes the
  first entry that cannot be inspected and the removals before that succeed (`BinaryGC.SkipsAfterRemovalsIff`).
- The collector reads the desired link before the rest of its inventory, and never again. If the link is moved to
  an unrecorded version after that, old or just installed, the collector removes what the link names if that was
  there when the directory was listed (`BinaryGC.LinkIsBrokenIff`).
- A pass without credentials unloads a failed unit, so the pass with credentials no longer knows that it failed:
  before the deadline it starts the same candidate again, and only after it the fallback (`Staging.StageResuming`).
- An orphan receives its TERM without a fresh liveness check; only the KILL after it is guarded
  (`Recovery.TerminateOrphan`).
- Active recovery never unloads a stopped unit that stays loaded and inactive. Without a running unit it commits
  its candidate if and only if the unit is not found or has failed (`Recovery.Coordinate`, `Recovery.Restores`);
  `Recovery.InactiveIsNotRecovered` is a host on which it never does.
- The reconciler's result for a resumed attempt never occurs, and its flag for a mounted target is always false
  where an absent attempt is handled; the model has neither.

## Model

| member | source | states |
|---|---|---|
| `MountRecord.StoppingRecordAccepted` | internal/driver/mount_stop.go:81-98 | Whatever process the ownership checks found, the stopping record that a stop builds is an accepted successor of a valid active or starting record, keeps its attempt, and has startup paths exactly if the old record was starting |
| `MountRecord.ActiveRecordAcceptedIff` | internal/driver/mount_lifecycle.go:411-432 | Promotion is an accepted transition if and only if the process identity is positive and the clock is not behind the creation time |
| `MountRecord.RecoveryCandidateBuiltIff` | internal/driver/active_recovery.go:99-137 | A recovery candidate exists if and only if its attempt is well formed and fresh, its binary is content-addressed and its argv is strict and valid; it is then an accepted successor with exactly the active binary and argv as fallback |
| `MountRecord.FallbackCandidateBuiltIff` | internal/driver/active_recovery.go:139-175 | The fallback candidate exists if and only if the attempt is well formed and fresh, a fallback is stored and its argv is strict; it is then accepted and runs exactly that fallback with none of its own |
| `MountRecord.FallbackRecordAccepted` | internal/driver/mount_reconcile_starting.go:489-512 | The fallback that the starting reconciler builds without its own transition check is always accepted |
| `MountRecord.ExactFallback` | internal/driver/mount_state.go:389-404 | Along any accepted run of starting records after an active record with binary B and argv A, every record stores (B, A) as fallback or runs exactly (B, A) without one, and the run switches once at most |
| `MountRecord.AtMostTwoCandidates` | internal/driver/mount_state.go:427-435 | Such a run contains at most two attempts |
| `MountRecord.RewriteAccepted` | internal/driver/mount_state.go:343-387 | Retrying the write of an accepted record is accepted |
| `MountRecord.StoppingIsFinal` | internal/driver/mount_state.go:343-387 | Along any accepted run after a stopping record nothing but that record is ever written |
| `MountRecord.WriteKeepsConsumers` | internal/driver/mount_state.go:343-387 | An accepted write other than the one that begins a stop keeps the record at its target, and keeps it active or starting for recovery if it was |
| `RemotePath.NormalizedIsFixedIff` | internal/driver/path.go:37-74 | An accepted path is left alone by a second normalisation if and only if the raw text, trimmed and without the slashes at its end, does not end in white space |
| `RemotePath.NormalizeTwiceDiffers` | internal/driver/path.go:37-74 | The input "/a /" is accepted as "/a ", which normalises to "/a": normalisation is not idempotent |
| `MountArgs.MountArgsUseDirectMountStrict` | internal/driver/mount_args.go:75-83 | The counting loop holds if and only if the strict flag occurs exactly once |
| `MountArgs.MountArgsUseInBinarySupervisor` | internal/driver/mount_args.go:85-100 | The scanning loop holds if and only if the supervise flag occurs exactly once and no argument conflicts with it |
| `World.StopEffectEvolves` | internal/driver/mount_stop.go:342-349 | Every outcome of stopping the unit, be the unit not found, inactive or failed afterwards, keeps the invariant and what the driver has seen to be gone |
| `World.MountReadHoldsIff` | internal/driver/runtime_artifact_cleanup.go:25-31 | That the target was read as unmounted still holds once nothing of the volume is alive, if and only if nothing was alive when it was read; otherwise what is alive may mount it and die |
| `World.WriteKeepsConsistent` | internal/driver/mount_state.go:515-551 | A record of another attempt may be written without breaking the invariant when no unit, supervisor or startup file depends on the current one |
| `Host.Host.WriteRecord` | internal/driver/mount_state.go:515-551 | The record is the old one or the new one, the new one only through an accepted transition; success means the new one; a settled host writes every accepted record |
| `Host.Host.DeleteRecord` | internal/driver/mount_state.go:553-591 | Only the expected record is deleted, and only where nothing of it is left; the deletion is remembered with the look at the mount that it rests on; success means no record, and nothing else changes |
| `Host.Host.DropRecord` | internal/driver/mount_state.go:553-591 | The same where a supervisor may be missed: then the deletion is remembered and the world is lost |
| `Host.Host.ReplaceRecord` | internal/driver/mount_state.go:515-551 | The record of another attempt is replaced only where nothing of it is left, and that is remembered like a deletion; consumers keep their record |
| `Host.Host.StartUnit` | internal/driver/mount_reconcile_starting.go:411-418 | A service is started under a starting record with both startup files published, at a target without unit, without another supervisor unless one was alive or could come in a running unit when the mount was read, and without a mount unless something was alive then; a settled host loads the unit of the attempt, a prompt one brings it up |
| `Host.Host.Kill` | internal/driver/mount_stop.go:424-447 | A KILL requires that its identity was accepted by an ownership check and that the last liveness check saw it alive |
| `Host.Host.PublishStartupFile` | internal/driver/mount_lifecycle.go:221-280 | Only the attempt on record publishes; a failure may leave the temporary file, the published one or both |
| `Ownership.VerifyHostPIDOwnership` | internal/driver/host_process.go:301-344 | Although argv, cgroup and executable are three reads of a numeric pid, success means that this identity is alive, supervised by the unit and runs this binary; on a settled host it succeeds for exactly the mount process |
| `Ownership.VerifyStartingLauncherPID` | internal/driver/systemd.go:338-379 | The same for a launcher of this attempt |
| `Ownership.VerifyProcessOwnership` | internal/driver/host_process.go:226-271 | The process-state file names a live supervisor that passes the check, or the answer is unknown |
| `Ownership.ObserveStartingProcess` | internal/driver/mount_reconcile_starting.go:568-613 | If the unit does not run at the beginning, an absent or dead process means that no supervisor of the volume is left; a settled host gives the right answer for every well-formed process-state file |
| `Ownership.VerifyUnitDescription` | internal/driver/systemd.go:261-274 | Success means that the loaded unit carries the attempt of the record |
| `Ownership.VerifySystemdMainPID` | internal/driver/systemd.go:190-224 | Success means that the main process is an accepted live supervisor |
| `Ownership.VerifyStartingMainPID` | internal/driver/systemd.go:297-336 | The same for a starting attempt, whose main process may still be the launcher or missing |
| `Ownership.DeadRecordMeansNoSupervisor` | internal/driver/host_process.go:290-299 | A dead identity in the process-state file of a unit that does not run means that no supervisor is left |
| `Stop.RemoveAttemptStartupFiles` | internal/driver/mount_lifecycle.go:451-469 | Success means that no startup file is left; all four removals are tried |
| `Stop.RemoveVerifiedDeadRuntimeArtifacts` | internal/driver/runtime_artifact_cleanup.go:9-80 | Success means that no supervisor, process-state file or control socket is left, and no mount either if no supervisor was alive when the mount was read; a settled host with dead artifacts succeeds |
| `Stop.DeadCheckHoldsIff` | internal/driver/runtime_artifact_cleanup.go:25-56 | The look at the mount followed by the one at the process proves the target unmounted if and only if no supervisor was alive at the first of them |
| `Stop.StoppingPIDAlive` | internal/driver/mount_stop.go:407-422 | The answer yes is recorded as the last liveness check of exactly this identity; the answer no means that it is dead |
| `Stop.KillStoppingPID` | internal/driver/mount_stop.go:424-447 | Kills an accepted identity that was last seen alive; success means that it is dead |
| `Stop.ObserveStopProcess` | internal/driver/mount_stop.go:114-162 | No process means that the recorded one is dead and, when the unit does not run, that there is no supervisor; a process is an accepted one and the only supervisor that there is or will be |
| `Stop.VerifyStopServiceProcess` | internal/driver/mount_stop.go:164-198 | A running service is attributed to the same accepted process, or the answer is unknown |
| `Stop.VerifyOwner` | internal/driver/mount_stop.go:60-76 | All ownership checks before any destructive step: they change nothing but the set of accepted identities |
| `Stop.RunCleanup` | internal/driver/mount_stop.go:249-290 | Drain, stop or unload, unmount and kill, under one record and only of accepted identities; on a settled host exactly their combined effect |
| `Stop.StoppingResourcesAbsent` | internal/driver/mount_stop.go:449-464 | The answer yes means that the unit is not found and the owned process is dead |
| `Stop.RemoveStoppingArtifacts` | internal/driver/mount_stop.go:466-477 | Success means that startup files, process-state file, socket and supervisor are gone, and the mount if nothing was alive when it was read |
| `Stop.FinishIfTerminal` | internal/driver/mount_stop.go:292-308 | The stopping record is deleted only with unit, supervisor and files gone, and the mount as well if nothing was alive when it was last read: certainly if the killed process was the only supervisor |
| `Stop.FinalizeStopping` | internal/driver/mount_stop.go:311-316 | The same for the path on which nothing was left to clean up |
| `Stop.Reconcile` | internal/driver/mount_stop.go:200-309 | Every command runs under the stopping record; that record stays as it was unless unit, supervisor and files are gone, and the mount too, surely so if the record names a process or no supervisor can come any more as the pass begins; on a settled host one pass cleans up everything, or the unit was running and the next pass can |
| `Stop.NothingIsOverlookedIff` | internal/driver/mount_stop.go:208-308 | Every pass that finds no process ends with an unmounted target if and only if the record names a process, or no supervisor can come any more as the pass begins |
| `Stop.OverlookedPass` | internal/driver/mount_stop.go:233-308 | For every record with startup paths and without a process there is a failing pass: the supervisor writes its file after it was looked for, outlives the stop of its unit, mounts the target after the mount was read, and dies before its file is read |
| `Stop.Converge` | internal/driver/mount_stop.go:233-308 | From any stopping record with unambiguous ownership two passes on a settled host clean up, however the unit ends |
| `Stop.CommitStopping` | internal/driver/mount_stop.go:60-97 | No command runs before the stopping record is durable; a settled host commits it when ownership is unambiguous |
| `Stop.Stop` | internal/driver/mount_stop.go:40-100 | Refused requests change nothing; otherwise the old record remains and nothing was touched, or the stopping record of the same attempt and intent is durable and all commands ran under it, or everything is gone: the mount as well if the record named a process, as every active one does, or no supervisor could come any more; a settled host commits and makes the progress of a pass |
| `Lifecycle.VerifyReadyService` | internal/driver/mount_reconcile_starting.go:194-215 | Success means that the process is a live supervisor; a settled host confirms the main process |
| `Lifecycle.PromoteActive` | internal/driver/mount_lifecycle.go:411-432 | Success means that the active record with this identity is on disk and no startup file is left; failure leaves the starting record or the promoted one |
| `Lifecycle.PollReadiness` | internal/driver/mount_lifecycle.go:345-385 | Ready means an accepted live supervisor; a settled host with a ready mount answers ready |
| `Lifecycle.WaitForMountAndPromote` | internal/driver/mount_lifecycle.go:335-398 | At most one poll per interval until the persisted deadline and one more; promotion only of an accepted process; a settled host promotes only a mounted target with its socket and a running unit of the attempt, and a ready mount at the first poll |
| `Lifecycle.PollsAreBounded` | internal/driver/mount_lifecycle.go:335-398 | Polls that are an interval apart and begin before the deadline number at most ceil(remaining / interval) + 1 |
| `LaunchRequest.ResumableIff` | internal/driver/mount_reconcile_starting.go:428-450 | A valid starting record can be resumed with given credentials if and only if they are clean and for the server that its argv names first |
| `LaunchRequest.ServerIsNamed` | internal/driver/mount_reconcile_starting.go:452-459 | The server that the scan finds is one that the argv names, and it finds one whenever there is one |
| `Starting.ResumeStarting` | internal/driver/mount_reconcile_starting.go:389-426 | Starts only under the record of the attempt and after a look at the mount; without credentials nothing happens; a settled host with matching credentials loads the service, and a prompt one promotes the attempt |
| `Starting.SwitchToFallback` | internal/driver/mount_reconcile_starting.go:461-518 | The attempt is replaced by exactly its fallback, with no startup files left; a settled host starts the fallback |
| `Starting.CommitFallback` | internal/driver/mount_reconcile_starting.go:489-512 | What is committed runs the stored fallback binary and argv at the same target |
| `Starting.UnmountDisconnected` | internal/driver/mount_reconcile_starting.go:536-562 | Success means an unmounted target |
| `Starting.RemoveFailedUnit` | internal/driver/mount_reconcile_starting.go:520-534 | Success means that the unit is not found |
| `Starting.ClearAbsent` | internal/driver/mount_reconcile_starting.go:356-363 | Success means that no unit, startup file or process-state file is left, nor a supervisor or mount in the sense of the look that it rests on: the one before, or a new one after a dead process |
| `Starting.DeleteStage` | internal/driver/mount_reconcile_starting.go:365-370 | The record of a first-time stage is deleted, and only when nothing of it is left in that sense; only a look from while the unit ran can miss a supervisor |
| `Starting.HandleAbsent` | internal/driver/mount_reconcile_starting.go:344-387 | A stage is deleted, a recovery resumed, switched to its fallback or left: never anything else; a settled host does what the deadline calls for |
| `Starting.AttributeExpired` | internal/driver/mount_reconcile_starting.go:224-249 | The process that may be killed passed an ownership check and is the only supervisor that there is or will be |
| `Starting.TearDownExpired` | internal/driver/mount_reconcile_starting.go:251-290 | Drain, stop, unmount and kill under the record of the attempt, each only after the one before; on a settled host exactly their combined effect |
| `Starting.AttemptIsLetGo` | internal/driver/mount_reconcile_starting.go:251-290 | After these steps on a settled host nothing of an unambiguous attempt lives, however the stopped unit ends |
| `Starting.RemoveTerminal` | internal/driver/mount_reconcile_starting.go:292-327 | Success means that the unit is not found and that no supervisor or process-state file is left, and no mount either if a process was killed |
| `Starting.FailExpired` | internal/driver/mount_reconcile_starting.go:217-335 | Kills name accepted identities only; what is started or deleted afterwards rests on a look at the mount from after the unit had gone, and from after the death of the verified process if there was one, so that the target is vacant beyond doubt; a settled host tears a stuck attempt down and moves on from it, now or in the next pass |
| `Starting.ObserveStarting` | internal/driver/mount_reconcile_starting.go:79-95 | What the three observations mean, depending on whether the unit ran and anything was alive at the first of them; a settled host answers for dead, stuck and ready attempts |
| `Starting.PromoteReady` | internal/driver/mount_reconcile_starting.go:96-107 | A ready mount is promoted, on a settled host only with its socket and a running unit of the attempt; nothing is started or deleted |
| `Starting.ReconcileGone` | internal/driver/mount_reconcile_starting.go:158-191 | The branches for a unit that does not run; after a dead process what is started or deleted rests on a new look at the mount |
| `Starting.WaitOrRetry` | internal/driver/mount_reconcile_starting.go:128-144 | The wait and the self-call after it, which happens once at most |
| `Starting.Reconcile` | internal/driver/mount_reconcile_starting.go:66-192 | Whatever fails: a service starts only under the record of its attempt, the record goes only for a first-time stage of which nothing is left, and all of it rests on a look at the mount from this pass; a supervisor is missed only if the unit ran as the pass began and had not lost its own; at most two passes; consumers keep their record, kills name accepted identities; without permission to clean up nothing is started or deleted; a settled host promotes what is ready, clears away what is dead and moves on from it, asks for the credentials that it lacks for that, and tears down what is stuck |
| `Starting.WindowIsSafeIff` | internal/driver/mount_reconcile_starting.go:79-95 | The absence that one pass observes is real if and only if nothing of the volume is alive as the pass begins; otherwise there is a schedule on which the target is mounted all the same |
| `Starting.OwnerIsSeenIff` | internal/driver/mount_reconcile_starting.go:79-95 | The absence of supervisors that one pass observes is real if and only if, as the pass began, the unit did not run or had lost the supervisor that it had spawned |
| `Starting.ExposedPass` | internal/driver/mount_reconcile_starting.go:79-95 | For every starting record there is a failing pass: the service has just been started, mounts its target and is gone with its file before the pass looks for it, and what the pass then may start finds the target mounted |
| `Starting.PassIsSafe` | internal/driver/mount_reconcile_starting.go:66-192 | Whatever a pass starts or deletes finds a vacant target beyond doubt if nothing of the volume is alive as it begins, and no other supervisor if none can come then |
| `Launch.CandidateIsAccepted` | internal/driver/mount_lifecycle.go:65-92 | Every valid request with a content-addressed binary gives an acceptable first record |
| `Launch.CommitCandidate` | internal/driver/mount_lifecycle.go:65-92 | The starting record is durable before any command and asks for exactly what was requested |
| `Launch.Launch` | internal/driver/mount_lifecycle.go:47-140 | What is left on record belongs to the request; its own start finds a vacant target beyond doubt; success is the active record on disk; a settled host starts the service of every valid request, and a prompt one succeeds |
| `Recovery.PlanIsComplete` | internal/driver/active_recovery.go:44-97 | A plan exists if and only if ownership is clear; it skips if and only if the mount is healthy; otherwise it ends in the only start, stops a service exactly if there is one, kills exactly an orphan, and drains exactly an orphan with a mount |
| `Recovery.MountIsUnmountedIff` | internal/driver/active_recovery.go:69-74 | A mount is unmounted, and last of all, in every row but the one for a service whose main process is verified and whose recorded one is not |
| `Recovery.ObserveActive` | internal/driver/active_recovery.go:260-345 | What is observed has clear ownership; on a settled host with unambiguous ownership it is exactly what the host shows |
| `Recovery.SurvivorIsNamed` | internal/driver/active_recovery.go:306-322 | After the unit has gone, a verified pid is observed if and only if a supervisor is left |
| `Recovery.TerminateOrphan` | internal/driver/active_recovery.go:563-587 | A KILL follows only a poll that saw the accepted identity alive; a settled host ends exactly this process |
| `Recovery.UnmountActive` | internal/driver/active_recovery.go:589-610 | A settled host unmounts the target |
| `Recovery.WaitForCollection` | internal/driver/active_recovery.go:636-670 | Success means that the unit is not found; a settled host succeeds if and only if the unit was not found or had failed under this attempt |
| `Recovery.EnsureAbsent` | internal/driver/active_recovery.go:612-634 | Success means that no unit, supervisor, process-state file or socket is left, and no mount either if the process whose death is checked was the only one or nothing was alive |
| `Recovery.RunActions` | internal/driver/active_recovery.go:436-461 | The actions run in order under one record; on a settled host exactly their combined effect |
| `Recovery.Revalidate` | internal/driver/active_recovery.go:403-435 | Nothing is touched unless the runtime still calls for the same plan and its process passes the checks again |
| `Recovery.Cleanup` | internal/driver/active_recovery.go:398-466 | Success means that nothing of the active runtime is left, with the active record still in place, and no mount; for a unit that does not run a settled host succeeds if and only if it is not found or has failed |
| `Recovery.CommitDesired` | internal/driver/active_recovery.go:366-378 | The record that follows runs the desired binary and argv and keeps exactly the active ones as fallback |
| `Recovery.PersistFallback` | internal/driver/active_recovery.go:380-389 | The fallback record runs exactly what was active |
| `Recovery.CleanupCandidate` | internal/driver/active_recovery.go:498-561 | Success means that the failed candidate has left nothing, startup files included, and no mount either if its process was found or no supervisor can come any more as this begins; on a settled host it succeeds or leaves a dead attempt for the next pass |
| `Recovery.FallBack` | internal/driver/active_recovery.go:234-257 | The exact fallback is started after a clean-up, or the attempt stays or is dead |
| `Recovery.Coordinate` | internal/driver/active_recovery.go:190-258 | The active record stays until nothing of its runtime is left; whatever fails, consumers keep a record at their target that runs the desired candidate or exactly what was active; nothing is ever started beside another supervisor, and the first start finds a vacant target beyond doubt; healthy if and only if the plan is to skip, and then nothing is touched; on a settled host without a running unit the desired candidate follows if and only if the unit is not found or has failed, and on a prompt one it recovers |
| `Recovery.InactiveIsNotRecovered` | internal/driver/active_recovery.go:636-670 | For every active record there is a host on which nothing is alive but whose stopped unit has stayed loaded and inactive: recovery commits nothing there |
| `NoState.ObserveNoState` | internal/driver/node_no_state.go:21-98 | An answer means that nothing is alive for a volume without a record; a settled host gives the one right answer |
| `NoState.ReconcileNoState` | internal/driver/node_no_state.go:100-148 | Success means that the host holds nothing for the volume, neither alive nor left behind; a settled host succeeds if what it was told still holds |
| `Staging.VerifyActiveLocally` | internal/driver/node_state_first.go:102-157 | On a settled host success means a mounted target with its socket, an active unit of this attempt and the recorded process alive in it; a healthy mount passes |
| `Staging.StopOrContinue` | internal/driver/driver.go:966-985 | A stop or the rest of one: cleaned means that everything is gone, and the mount too if the record names a process or no supervisor can come any more; with consumers nothing changes |
| `Staging.ReconcileStale` | internal/driver/driver.go:1353-1411 | A record at another target is touched only without consumers there and without a mount; a settled host clears it |
| `Staging.StageExisting` | internal/driver/driver.go:716-773 | The branches on an existing record keep its consumers; absent means no record, and on a settled host that nothing of the target is left |
| `Staging.StageVolume` | internal/driver/driver.go:630-900 | Consumers keep their record unless the caller has seen that there are none; success means an active record at the requested target; on a settled host a healthy or ready mount is done, a dead stage or a stop gives way to a fresh start, a dead recovery attempt is started again or gives way to its fallback, and a dead active mount recovers; fresh starts and recoveries succeed on a prompt one |
| `Staging.StageResuming` | internal/driver/driver.go:834-855 | With credentials a settled host starts the released attempt before its deadline and its fallback after it |
| `Staging.UnstageVolume` | internal/driver/driver.go:923-987 | With consumers, or without knowing, nothing happens; success means no record, no running unit and no supervisor, and no mount either if the record is active or names a process, if no supervisor can come any more, or on a settled host; a settled host unstages, or has stopped the unit for the next call |
| `Staging.UnstageConverges` | internal/driver/driver.go:923-987 | Two calls unstage a settled host |
| `Staging.RecoverOne` | internal/driver/node_recovery.go:84-251 | Whatever boot recovery finds and whatever fails, consumers keep their record; on a settled host stops finish, ready mounts are promoted, dead stages deleted, dead recovery attempts restarted and dead active mounts recovered |
| `PublishRecord.AccessAllowedIff` | internal/driver/driver.go:1710-1726 | The access check admits a new consumer if and only if all consumers of the staging mount then share one multi-writer mode |
| `PublishRecord.PendingKeepsConsistent` | internal/driver/driver.go:1053-1074 | An admitted pending record keeps the node consistent |
| `PublishRecord.StatusKeepsConsistent` | internal/driver/driver.go:1695-1705 | A change of status does, if published is only written over an honest mount |
| `PublishRecord.RecordKeepsConsistent` | internal/driver/driver.go:937-944 | A change of the mount record does, if it keeps consumers or there are none |
| `Node.Node.ScanConsumers` | internal/driver/driver.go:1612-1648 | The scan finds exactly the records of the volume and staging path, or fails |
| `Node.Node.Bind` | internal/driver/mount_linux.go:15-29 | A bind that stops before its read-only remount leaves a writable mount under a pending record, never under a published one |
| `Node.Node.PublishVolume` | internal/driver/driver.go:989-1128 | Success means an active mount record, the requested record published and no writable mount under a read-only one; a settled node finishes what an interrupted call began unless the record or the mount at the target stands in the way |
| `Node.Node.UnpublishVolume` | internal/driver/driver.go:1130-1204 | Success means that the record and the bind mount of the driver are gone; the record is unpublishing before the mount goes and is removed last |
| `Node.Node.StageVolume` | internal/driver/driver.go:630-900 | Staging with the consumers counted first keeps the node consistent |
| `Node.Node.UnstageVolume` | internal/driver/driver.go:923-987 | With a consumer nothing changes; without one success means no record and no supervisor, and no mount either if the record is active or names a process, or no supervisor can come any more |
| `Node.Node.Recover` | internal/driver/node_recovery.go:84-251 | Boot recovery keeps the node consistent |
| `Node.Node.Run` | internal/driver/driver.go:630-1204 | Over every sequence of calls, each of which may fail or be cut short at any operation: consumers keep their mount record, bind mounts have publish records, no read-only record labels a writable mount, consumers share one mode, and every kill named an accepted identity; every start and deletion is safe in the sense of the look at the mount that it rests on, until such a look from while the unit ran has missed a supervisor |
| `StateFile.TempIsNeverListed` | internal/driver/mount_state.go:607-618 | A temporary name is never taken for a mount or publish record and never is the record itself |
| `StateFile.Directory.WriteFully` | internal/driver/mount_state.go:593-605 | Any split into short writes ends in the whole body or in an error |
| `StateFile.Directory.WriteAtomic` | internal/driver/mount_state.go:607-656 | Every state on the way holds the complete old file or the complete synced new one and changes nothing else but the temporary file; success means the new one |
| `StartupFiles.EncodeNULTerminated` | internal/driver/mount_lifecycle.go:212-219 | The append loop builds the NUL-terminated encoding |
| `StartupFiles.ParseUndoesEncode` | cmd/drive9-csi-launcher/main.go:175-189 | Parsing an encoding gives back every non-empty list of NUL-free entries |
| `StartupFiles.EncodeUndoesParse` | cmd/drive9-csi-launcher/main.go:175-189 | The bodies that parse are exactly the encodings of such lists, and encoding gives them back |
| `StartupFiles.ParseLauncherEnvironment` | cmd/drive9-csi-launcher/main.go:144-162 | The loop accepts exactly the bodies whose entries have pairwise different non-empty keys |
| `StartupFiles.LaunchEnvironmentIsValid` | internal/driver/mount_lifecycle.go:94-99 | The environment of a launch has six different keys whatever the credentials are |
| `StartupFiles.LauncherAcceptsLaunch` | cmd/drive9-csi-launcher/main.go:144-189 | Environment and argv of every valid request are accepted by the launcher and come back entry for entry; both sides have the same limit on the bytes of a file |
| `StartupFiles.LauncherRuntime.Run` | cmd/drive9-csi-launcher/main.go:82-118 | Nothing is executed before both inputs are gone; what is executed is what they encoded; a reliable runtime executes every valid pair |
| `StartupFiles.LaunchIsExecuted` | internal/driver/mount_lifecycle.go:94-119 | The files that a launch publishes make the launcher execute exactly the launch |
| `PathPolicy.NormalizeParameter` | internal/driver/mount_policy.go:102-122 | The loop computes the normalised list |
| `PathPolicy.NormalizedIsNormal` | internal/driver/mount_policy.go:102-151 | What normalisation accepts is distinct, trimmed, single-line and valid |
| `PathPolicy.NormalizedOfJoinedIff` | internal/driver/mount_policy.go:102-122 | A list comes back unchanged from its line-by-line text if and only if it is such a list |
| `PathPolicy.AddToVolumeContext` | internal/driver/mount_policy.go:153-163 | Each list that is not empty is at its own key and every other key is left alone, so that an accepted policy is read back from the context exactly as it was |
| `PathPolicy.EffectiveIsAccepted` | internal/driver/mount_policy.go:27-64 | Every effective policy meets the contract of its profile and consists of normal lists |
| `PathPolicy.PolicyIsFixedPoint` | internal/driver/mount_policy.go:27-64 | Re-reading the volume context written from an accepted policy, with the same profile, gives the identical policy |
| `PathPolicy.AppendPolicy` | internal/driver/mount_args.go:59-67 | The three loops append the policy behind the arguments so far |
| `PathPolicy.PolicyDoesNotInterfere` | internal/driver/mount_args.go:31-100 | Adding an accepted policy never changes the outcome of argv validation, the supervisor check or the strict-flag count |
| `PathPolicy.PolicyIsShort` | internal/driver/mount_policy.go:66-100 | An accepted policy has at most 4369 arguments |
| `PathPolicy.PolicyAddsLittle` | internal/driver/mount_state.go:542-549 | In the indented record a policy costs its compact length and five bytes an argument at most |
| `PathPolicy.RecoveryRecordFits` | internal/driver/mount_policy.go:75-98 | A record that holds one accepted policy in its argv and another in its fallback argv fits the 1 MiB limit if everything else takes at most 400 KiB |
| `Installer.SafeResolves` | cmd/drive9-csi/install_host_binaries.go:436-468 | A desired link that resolved to a correctly hashed binary at the beginning does so in every safe state |
| `Installer.BinaryDirectory.WriteFull` | cmd/drive9-csi/install_host_binaries.go:562-574 | Any split into short writes ends in the whole body or in an error |
| `Installer.BinaryDirectory.WriteTemp` | cmd/drive9-csi/install_host_binaries.go:519-560 | A complete temporary file, or a failure that leaves temporary names only |
| `Installer.BinaryDirectory.InstallVersion` | cmd/drive9-csi/install_host_binaries.go:266-298 | Success means an intact version under its digest; an existing different file is refused and nothing else is touched |
| `Installer.BinaryDirectory.ReplaceLauncher` | cmd/drive9-csi/install_host_binaries.go:331-384 | Success means the complete new launcher; otherwise it is the old or the complete new one |
| `Installer.BinaryDirectory.RestoreDesired` | cmd/drive9-csi/install_host_binaries.go:498-517 | When no step of the rollback fails the link is the old one again |
| `Installer.BinaryDirectory.ReplaceDesired` | cmd/drive9-csi/install_host_binaries.go:436-468 | Success means that the new version is desired; after one failure the link is what it was, unless the rename that failed had taken effect |
| `Installer.BinaryDirectory.Install` | cmd/drive9-csi/install_host_binaries.go:91-141 | In every state on the way a link that resolved still resolves and earlier versions are untouched; success means the new version and launcher; an error after a single failure leaves the link as it was, unless the operation that failed had its effect; without failures only a directory with something else in one of the three places is refused |
| `BinaryGC.Inventory.ReadSnapshot` | internal/driver/binary_gc.go:216-247 | A snapshot holds exactly the records on disk, or there is none |
| `BinaryGC.Correlate` | internal/driver/binary_gc.go:56-80 | Exactly the desired binary and the binaries and fallbacks of the records are kept; two volumes with one unit are an error |
| `BinaryGC.KeepIsReferenced` | internal/driver/binary_gc.go:56-80 | So what is kept is exactly what is referenced |
| `BinaryGC.AccountForRuntime` | internal/driver/binary_gc.go:82-153 | Every artifact and unit on the host belongs to a record, or the collection is skipped |
| `BinaryGC.TakeInventory` | internal/driver/binary_gc.go:46-157 | The checks before the removal loop remove nothing, and end in the digests of the records and of the link as last read |
| `BinaryGC.RemoveUnkept` | internal/driver/binary_gc.go:158-189 | The loop does exactly what SweepResult says for the order of its entries and for those that cannot be inspected or removed |
| `BinaryGC.SkipsAfterRemovalsIff` | internal/driver/binary_gc.go:158-189 | The collector reports that it skipped after it has removed files if and only if an unkept regular version precedes the first entry that cannot be inspected and each such version before it can be removed |
| `BinaryGC.LinkIsBrokenIff` | internal/driver/binary_gc.go:154-189 | A completed collection has removed the version that the desired link names now if and only if the link was moved, after it was last read, to a version that no record refers to and that was there as a regular file when the directory was listed |
| `BinaryGC.RollbackBreaksLink` | internal/driver/binary_gc.go:307-336 | A schedule for that: the link is read as version 1, moved to version 2, and version 2 is removed |
| `BinaryGC.InstallBreaksLink` | internal/driver/binary_gc.go:154-162 | Another one: version 2 is installed after the link was read and before the directory is listed, the link is moved to it, and version 2 is removed |
| `BinaryGC.Run` | internal/driver/binary_gc.go:42-190 | No removed file is the binary or fallback of a record on disk, nor what the desired link named when it was last read; only what was listed is removed, and only by the loop; a completed run leaves, of what was listed, referenced versions only, so that the next one removes nothing while the link stays and nothing is installed |
| `ManagedVolume.PathsApart` | internal/driver/driver.go:1650-1668 | The index files lie outside every volume root, and they and the root marker lie apart |
| `ManagedVolume.Remote.MkdirAll` | internal/driver/drive9_client.go:118-143 | Only directories at or above the path are added; success means that the path is there |
| `ManagedVolume.UpsertIndex` | internal/driver/drive9_client.go:191-203 | An index that is there is validated and never overwritten |
| `ManagedVolume.ValidateNameIndex` | internal/driver/driver.go:1247-1262 | Success means that the name is free or belongs to this volume |
| `ManagedVolume.AdoptRoot` | internal/driver/driver.go:473-501 | A root without a marker is adopted, one with another volume's marker is refused, and nothing but the marker is written into it |
| `ManagedVolume.CreateVolume` | internal/driver/driver.go:438-525 | Success means that both indexes and the root marker hold the volume; a reliable remote creates whenever none of the three is somebody else's; no other file is lost or changed |
| `ManagedVolume.RecordsAreNotData` | internal/driver/driver.go:585-601 | What a delete may remove is never user data under the root |
| `ManagedVolume.DeleteVolume` | internal/driver/driver.go:527-603 | User data is kept; the index is never gone while the name index remains; success means that the index is gone, and of a partly deleted volume also the name index |
| `ManagedVolume.DeleteThenCreate` | internal/driver/driver.go:438-603 | From a completed create, through any number of failing deletes, no user data is lost and a create on a working remote returns the same volume with all three records |

## Left out

- Host.Host.WriteRecord: does not model the length of the encoded record, which `PathPolicy.RecoveryRecordFits` bounds; a record over 1 MiB is a write that fails, and a settled host has none.
- Host.Host.PublishStartupFile: does not model file contents, owner and mode; `StartupFiles.LauncherAcceptsLaunch` covers the contents and their size limit.
- Host.Host.StartUnit: promises a service that becomes ready on a prompt host only, because spawning is up to the environment; the command line of systemd-run is not modelled.
- Launch.Launch: is taken for its one caller, which asks for a stage after the volume was found to have no unit and no mount; a recovery request, which no code makes, would let the pass after a failed launch publish credentials under a promoted record.
- Recovery.TerminateOrphan: does not claim that the TERM hits an accepted process, because the code does not check it.
- Recovery.FallBack: promises its progress for a candidate with unambiguous ownership; how a failed start leaves the host is up to the environment.
- Starting.Reconcile: does not promise a vacant target for a pass that begins while something of the volume is alive, because the code does not make sure of it; after the first supervisor that is missed nothing is claimed about owners.
- Stop.Reconcile: does not promise an unmounted target for a record without a process and a unit that may still spawn one, because there are passes that fail (`Stop.OverlookedPass`).
- Recovery.CleanupCandidate: the same for a candidate whose process is not found.
- Installer.BinaryDirectory.Install: is proved without a collector beside it; `BinaryGC.InstallBreaksLink` shows what that one may do to it.
- Staging.StageVolume: does not promise progress for a record at another target beyond what `Staging.ReconcileStale` does, nor that a resumed recovery attempt is up on a prompt host.
- Node.Node.PublishVolume: takes the validity of the requested capability as an arbitrary input.
- BinaryGC.AccountForRuntime: takes the verification of each process and unit as a check that passes or fails, without the host model behind it.
- ManagedVolume.CreateVolume: models paths as segments, and index names as an injective function of the identifier.
- PathPolicy.PolicyDoesNotInterfere: takes the arguments before and after the policy as arbitrary, of the number that the argv builder writes at least.
- MountArgs: case folding covers ASCII letters only; bytes that are not valid UTF-8 are not modelled.
- Node capabilities, preflight probes, Kubernetes lookups and remote marker checks at stage time are checks that pass or fail (`Host.Host.Gate`).
- Workspace-root volumes, whose create and delete keep no metadata, and all controller parameters other than the path policy.
- Worker processes of Drive9 itself, the control socket protocol, ELF parsing and the exec of the launcher beyond its argv and environment.
- TTL, performance, gVisor and tuning parameters: single-branch checks that would add easy members only.
- Calls of other volumes at the same publish target, log output, error wording and gRPC status codes.
