/**
  * The durable record of one volume's mount, its validity and its transition relation
  * (internal/driver/mount_state.go), and the records that the reconcilers build from it.
  */
module MountRecord {
  import opened Text
  import opened RemotePath
  import opened MountArgs

  const SCHEMA_VERSION := 2
  const MAX_STARTUP_TIMEOUT := 90_000_000_000   // 90 s in nanoseconds

  type Target = string

  /** A volume ID; the ill-formed ones are those that volumeIDPattern rejects. */
  datatype VolumeID = VolumeID(hash: nat) | IllFormedVolume

  /** An attempt ID; 0 stands for every text that attemptIDPattern rejects. */
  type AttemptID = nat

  datatype BinaryPath = NoBinary | ContentAddressed(digest: nat) | OtherBinary

  datatype UnitName = UnitOf(volume: VolumeID) | OtherUnit

  /** A path below the host runtime directory; the hashes in the real names are taken as injective. */
  datatype RuntimePath =
    | NoPath
    | EnvFile(volume: VolumeID, attempt: AttemptID)
    | ArgsFile(volume: VolumeID, attempt: AttemptID)
    | ProcessStateFile(target: Target)
    | ControlSocket(target: Target)
    | OtherPath

  datatype Stamp = NoStamp | At(ns: int) | BadStamp

  datatype Phase = NoPhase | Starting | Active | Stopping
  datatype Reason = NoReason | Stage | Recovery
  datatype StopIntent = NoIntent | Unstage | StopForRecovery | CancelStart

  datatype MountState = MountState(
    schemaVersion: int,
    phase: Phase,
    reason: Reason,
    attemptID: AttemptID,
    volumeID: VolumeID,
    remoteRoot: string,
    stagingTarget: Target,
    systemdUnit: UnitName,
    binaryPath: BinaryPath,
    fallbackBinaryPath: BinaryPath,
    mountArgs: seq<string>,
    fallbackMountArgs: seq<string>,
    envPath: RuntimePath,
    argsPath: RuntimePath,
    createdAt: Stamp,
    startupDeadline: Stamp,
    pid: int,
    pidStartTime: nat,
    controlSocketPath: RuntimePath,
    processStatePath: RuntimePath,
    startedAt: Stamp,
    stopAttemptID: AttemptID,
    stopIntent: StopIntent,
    stoppingAt: Stamp)

  predicate WellFormedAttempt(attempt: AttemptID) { attempt != 0 }

  // ---- Validity ------------------------------------------------------------------------------

  predicate ValidMountState(s: MountState) {
    && s.schemaVersion == SCHEMA_VERSION
    && WellFormedAttempt(s.attemptID)
    && s.volumeID.VolumeID?
    && CanonicalRemoteRoot(s.remoteRoot)
    && CanonicalStagingTarget(s.stagingTarget)
    && s.systemdUnit == UnitOf(s.volumeID)
    && s.binaryPath.ContentAddressed?
    && ValidMountArgs(s.mountArgs, s.remoteRoot, s.stagingTarget)
    && s.createdAt.At?
    && match s.phase
       case NoPhase => false
       case Starting => ValidStarting(s)
       case Active => ValidActive(s)
       case Stopping => ValidStopping(s)
  }

  predicate StartupPathsOf(s: MountState) {
    s.envPath == EnvFile(s.volumeID, s.attemptID) && s.argsPath == ArgsFile(s.volumeID, s.attemptID)
  }

  predicate NoStop(s: MountState) {
    s.stopAttemptID == 0 && s.stopIntent.NoIntent? && s.stoppingAt.NoStamp?
  }

  predicate NoProcess(s: MountState) {
    && s.pid == 0 && s.pidStartTime == 0
    && s.controlSocketPath.NoPath? && s.processStatePath.NoPath? && s.startedAt.NoStamp?
  }

  predicate NoFallback(s: MountState) {
    s.fallbackBinaryPath.NoBinary? && s.fallbackMountArgs == []
  }

  predicate ValidStarting(s: MountState)
    requires s.createdAt.At?
  {
    && s.reason != NoReason
    && StartupPathsOf(s)
    && s.startupDeadline == At(s.createdAt.ns + MAX_STARTUP_TIMEOUT)
    && NoProcess(s)
    && NoStop(s)
    && (s.reason == Stage ==> NoFallback(s))
    && (s.fallbackBinaryPath.NoBinary? <==> s.fallbackMountArgs == [])
    && (s.fallbackBinaryPath.NoBinary? ||
        (s.fallbackBinaryPath.ContentAddressed? &&
         ValidMountArgs(s.fallbackMountArgs, s.remoteRoot, s.stagingTarget)))
  }

  predicate ValidProcessIdentity(s: MountState)
    requires s.createdAt.At?
  {
    && s.pid > 0 && s.pidStartTime > 0
    && s.controlSocketPath == ControlSocket(s.stagingTarget)
    && s.processStatePath == ProcessStateFile(s.stagingTarget)
    && s.startedAt.At? && s.createdAt.ns <= s.startedAt.ns
  }

  predicate ValidActive(s: MountState)
    requires s.createdAt.At?
  {
    && s.reason.NoReason? && s.startupDeadline.NoStamp?
    && s.envPath.NoPath? && s.argsPath.NoPath?
    && NoFallback(s)
    && NoStop(s)
    && ValidProcessIdentity(s)
  }

  predicate ValidStopping(s: MountState)
    requires s.createdAt.At?
  {
    && s.reason.NoReason? && s.startupDeadline.NoStamp?
    && NoFallback(s)
    && WellFormedAttempt(s.stopAttemptID)
    && s.stopIntent != NoIntent
    && s.stoppingAt.At? && s.createdAt.ns <= s.stoppingAt.ns
    && (s.envPath.NoPath? <==> s.argsPath.NoPath?)
    && (s.envPath.NoPath? || StartupPathsOf(s))
    && if s.pid == 0 then NoProcess(s) else ValidProcessIdentity(s)
  }

  // ---- Transitions ---------------------------------------------------------------------------

  predicate SameMountIdentity(a: MountState, b: MountState) {
    && a.volumeID == b.volumeID && a.remoteRoot == b.remoteRoot
    && a.stagingTarget == b.stagingTarget && a.systemdUnit == b.systemdUnit
  }

  /** What one attempt never changes: its candidate, its argv and its creation time. */
  predicate SameAttempt(a: MountState, b: MountState) {
    && a.attemptID == b.attemptID && a.binaryPath == b.binaryPath
    && a.mountArgs == b.mountArgs && a.createdAt == b.createdAt
  }

  predicate FallbackSwitch(current: MountState, next: MountState) {
    && current.reason == Recovery && next.reason == Recovery
    && !current.fallbackBinaryPath.NoBinary?
    && next.binaryPath == current.fallbackBinaryPath
    && next.mountArgs == current.fallbackMountArgs
    && NoFallback(next)
  }

  predicate RecoveryStart(current: MountState, next: MountState) {
    && next.reason == Recovery
    && next.attemptID != current.attemptID
    && next.fallbackBinaryPath == current.binaryPath
    && next.fallbackMountArgs == current.mountArgs
  }

  /** validateMountStateTransition. */
  predicate ValidTransition(current: Option<MountState>, next: MountState) {
    && ValidMountState(next)
    && match current
       case None => next.phase == Starting
       case Some(cur) =>
         && ValidMountState(cur)
         && SameMountIdentity(cur, next)
         && PhaseTransition(cur, next)
  }

  predicate PhaseTransition(cur: MountState, next: MountState) {
    match (cur.phase, next.phase)
    case (Starting, Starting) =>
      if cur.attemptID == next.attemptID then cur == next else FallbackSwitch(cur, next)
    case (Starting, Active) => SameAttempt(cur, next)
    case (Starting, Stopping) =>
      SameAttempt(cur, next) && next.envPath == cur.envPath && next.argsPath == cur.argsPath
    case (Active, Active) => cur == next
    case (Active, Starting) => RecoveryStart(cur, next)
    case (Active, Stopping) =>
      && SameAttempt(cur, next)
      && next.controlSocketPath == cur.controlSocketPath
      && next.processStatePath == cur.processStatePath
      && next.startedAt == cur.startedAt
    case (Stopping, Stopping) => cur == next
    case _ => false
  }

  /** mountStateStore.Delete accepts only records in these phases. */
  predicate Deletable(s: MountState) {
    s.phase == Starting || s.phase == Stopping
  }

  // ---- The records the driver builds -----------------------------------------------------------

  /** initializeStartingMountState. */
  function InitializeStarting(candidate: MountState, now: int): Option<MountState> {
    if candidate.schemaVersion != 0 || candidate.phase != NoPhase
       || candidate.createdAt != NoStamp || candidate.startupDeadline != NoStamp then None
    else
      var next := candidate.(
        schemaVersion := SCHEMA_VERSION, phase := Starting,
        createdAt := At(now), startupDeadline := At(now + MAX_STARTUP_TIMEOUT));
      if ValidMountState(next) then Some(next) else None
  }

  /** The blank record that every starting candidate fills in. */
  function Candidate(
    reason: Reason, attempt: AttemptID, volume: VolumeID, remoteRoot: string, target: Target,
    unit: UnitName, binary: BinaryPath, args: seq<string>, fallback: BinaryPath, fallbackArgs: seq<string>
  ): MountState {
    MountState(0, NoPhase, reason, attempt, volume, remoteRoot, target, unit, binary, fallback, args, fallbackArgs,
      EnvFile(volume, attempt), ArgsFile(volume, attempt), NoStamp, NoStamp,
      0, 0, NoPath, NoPath, NoStamp, 0, NoIntent, NoStamp)
  }

  /** The identity that an ownership check establishes. */
  datatype VerifiedProcess = VerifiedProcess(pid: nat, pidStartTime: nat, isLauncher: bool)

  /** copyVerifiedProcessIdentity: a verified process always carries the paths of its staging target. */
  function WithProcess(s: MountState, process: VerifiedProcess): MountState {
    s.(pid := process.pid, pidStartTime := process.pidStartTime,
       controlSocketPath := ControlSocket(s.stagingTarget), processStatePath := ProcessStateFile(s.stagingTarget))
  }

  /** The stopping record that Stop commits (mount_stop.go:81-95). */
  function StoppingRecord(
    s: MountState, intent: StopIntent, stopAttempt: AttemptID, now: int, process: Option<VerifiedProcess>
  ): MountState {
    var stopping := s.(
      phase := Stopping, reason := NoReason, startupDeadline := NoStamp,
      fallbackBinaryPath := NoBinary, fallbackMountArgs := [],
      stopAttemptID := stopAttempt, stopIntent := intent, stoppingAt := At(now));
    if process.Some? && !process.value.isLauncher then
      var identified := WithProcess(stopping, process.value);
      if s.phase == Starting then identified.(startedAt := At(now)) else identified
    else stopping
  }

  /** The active record that promoteActive commits (mount_lifecycle.go:415-427). */
  function ActiveRecord(s: MountState, process: VerifiedProcess, now: int): MountState {
    WithProcess(s, process).(
      phase := Active, reason := NoReason,
      fallbackBinaryPath := NoBinary, fallbackMountArgs := [],
      envPath := NoPath, argsPath := NoPath, startupDeadline := NoStamp,
      startedAt := At(now))
  }

  /** newActiveRecoveryCandidate. */
  function RecoveryCandidate(
    active: MountState, binary: BinaryPath, args: seq<string>, attempt: AttemptID, now: int
  ): Option<MountState> {
    if active.phase != Active || !UsesDirectMountStrict(args) || !WellFormedAttempt(attempt) then None
    else
      var candidate := InitializeStarting(
        Candidate(Recovery, attempt, active.volumeID, active.remoteRoot, active.stagingTarget,
          active.systemdUnit, binary, args, active.binaryPath, active.mountArgs), now);
      if candidate.Some? && ValidTransition(Some(active), candidate.value) then candidate else None
  }

  /** The fallback that switchToFallback and newFallbackRecoveryCandidate build, before any transition check. */
  function FallbackRecord(desired: MountState, attempt: AttemptID, now: int): Option<MountState> {
    InitializeStarting(
      Candidate(Recovery, attempt, desired.volumeID, desired.remoteRoot, desired.stagingTarget,
        desired.systemdUnit, desired.fallbackBinaryPath, desired.fallbackMountArgs, NoBinary, []), now)
  }

  /** newFallbackRecoveryCandidate. */
  function FallbackCandidate(desired: MountState, attempt: AttemptID, now: int): Option<MountState> {
    if desired.phase != Starting || desired.reason != Recovery || desired.fallbackBinaryPath.NoBinary?
       || !UsesDirectMountStrict(desired.fallbackMountArgs) || !WellFormedAttempt(attempt) then None
    else
      var fallback := FallbackRecord(desired, attempt, now);
      if fallback.Some? && ValidTransition(Some(desired), fallback.value) then fallback else None
  }

  // ---- The code refines its own transition relation ---------------------------------------------

  /** Whatever ownership check Stop relied on, the record it commits is accepted from the current one. */
  lemma StoppingRecordAccepted(
    s: MountState, intent: StopIntent, stopAttempt: AttemptID, now: int, process: Option<VerifiedProcess>
  )
    requires ValidMountState(s) && s.phase in {Active, Starting}
    requires intent != NoIntent && WellFormedAttempt(stopAttempt) && s.createdAt.ns <= now
    requires process.Some? ==> process.value.pid > 0 && process.value.pidStartTime > 0
    ensures ValidTransition(Some(s), StoppingRecord(s, intent, stopAttempt, now, process))
    ensures StoppingRecord(s, intent, stopAttempt, now, process).attemptID == s.attemptID
    ensures s.phase == Active <==> StoppingRecord(s, intent, stopAttempt, now, process).envPath.NoPath?
  {
    hide ValidMountArgs, CanonicalRemoteRoot, CanonicalStagingTarget;
  }

  /** Promotion is accepted exactly from a starting record of the same attempt with a clock not behind it. */
  lemma ActiveRecordAcceptedIff(s: MountState, process: VerifiedProcess, now: int)
    requires ValidMountState(s) && s.phase == Starting
    ensures ValidTransition(Some(s), ActiveRecord(s, process, now)) <==>
      process.pid > 0 && process.pidStartTime > 0 && s.createdAt.ns <= now
  {
    hide ValidMountArgs, CanonicalRemoteRoot, CanonicalStagingTarget;
  }

  /**
    * A desired candidate is built from a valid active record exactly when its attempt is fresh and its
    * argv is acceptable; it then starts the recovery that keeps the active binary and argv as fallback.
    */
  lemma RecoveryCandidateBuiltIff(
      active: MountState, binary: BinaryPath, args: seq<string>, attempt: AttemptID, now: int
  )
    requires ValidMountState(active) && active.phase == Active
    ensures RecoveryCandidate(active, binary, args, attempt, now).Some? <==>
      && WellFormedAttempt(attempt) && attempt != active.attemptID
      && binary.ContentAddressed?
      && UsesDirectMountStrict(args) && ValidMountArgs(args, active.remoteRoot, active.stagingTarget)
    ensures RecoveryCandidate(active, binary, args, attempt, now).Some? ==>
      var next := RecoveryCandidate(active, binary, args, attempt, now).value;
      && ValidTransition(Some(active), next)
      && (next.binaryPath, next.mountArgs) == (binary, args)
      && (next.fallbackBinaryPath, next.fallbackMountArgs) == (active.binaryPath, active.mountArgs)
  {
    hide ValidMountArgs, CanonicalRemoteRoot, CanonicalStagingTarget, UsesDirectMountStrict;
    if UsesDirectMountStrict(args) && ValidMountArgs(args, active.remoteRoot, active.stagingTarget) {
      ValidArgsAreNotEmpty(active.mountArgs, active.remoteRoot, active.stagingTarget);
    }
  }

  lemma ValidArgsAreNotEmpty(args: seq<string>, remoteRoot: string, target: Target)
    requires ValidMountArgs(args, remoteRoot, target)
    ensures args != []
  {
    hide UsesInBinarySupervisor, CleanArgument;
  }

  /** The fallback of a valid recovery candidate is built exactly for a fresh attempt and a strict argv. */
  lemma FallbackCandidateBuiltIff(desired: MountState, attempt: AttemptID, now: int)
    requires ValidMountState(desired) && desired.phase == Starting
    ensures FallbackCandidate(desired, attempt, now).Some? <==>
      && WellFormedAttempt(attempt) && attempt != desired.attemptID
      && !desired.fallbackBinaryPath.NoBinary?
      && UsesDirectMountStrict(desired.fallbackMountArgs)
    ensures FallbackCandidate(desired, attempt, now).Some? ==>
      var next := FallbackCandidate(desired, attempt, now).value;
      && ValidTransition(Some(desired), next)
      && (next.binaryPath, next.mountArgs) == (desired.fallbackBinaryPath, desired.fallbackMountArgs)
      && NoFallback(next)
  {
    hide ValidMountArgs, CanonicalRemoteRoot, CanonicalStagingTarget, UsesDirectMountStrict;
  }

  /** switchToFallback skips newFallbackRecoveryCandidate's own transition check, and does not need it. */
  lemma FallbackRecordAccepted(desired: MountState, attempt: AttemptID, now: int)
    requires ValidMountState(desired) && desired.phase == Starting && !desired.fallbackBinaryPath.NoBinary?
    requires WellFormedAttempt(attempt) && attempt != desired.attemptID
    ensures FallbackRecord(desired, attempt, now).Some?
    ensures ValidTransition(Some(desired), FallbackRecord(desired, attempt, now).value)
  {
    hide ValidMountArgs, CanonicalRemoteRoot, CanonicalStagingTarget;
  }

  // ---- Runs of accepted writes ---------------------------------------------------------------

  /** Every record of the run is accepted after the one before it. */
  ghost predicate AcceptedRun(run: seq<MountState>) {
    forall i | 0 <= i < |run| - 1 :: ValidTransition(Some(run[i]), run[i + 1])
  }

  /** The candidate of a recovery: its own binary and argv with the fallback kept, or exactly the fallback. */
  predicate KeepsFallback(s: MountState, binary: BinaryPath, args: seq<string>) {
    && s.phase == Starting && s.reason == Recovery
    && (|| (s.fallbackBinaryPath == binary && s.fallbackMountArgs == args)
        || (s.binaryPath == binary && s.mountArgs == args && NoFallback(s)))
  }

  ghost function Attempts(run: seq<MountState>): set<AttemptID> {
    set i | 0 <= i < |run| :: run[i].attemptID
  }

  /** The first record of a recovery repeats until k, and from k on one fallback record does. */
  ghost predicate SwitchesOnceAt(run: seq<MountState>, k: nat) {
    && 1 < k <= |run|
    && (forall i | 1 <= i < k :: run[i] == run[1] && !NoFallback(run[i]))
    && (forall i | k <= i < |run| :: run[i] == run[k] && NoFallback(run[i]))
  }

  /**
    * After an active record with binary B and argv A, and until the next active or stopping record,
    * every accepted record either stores (B, A) as its fallback or runs exactly (B, A) without one;
    * the ones that store it all equal the first, and the others all equal each other.
    */
  lemma {:induction false} ExactFallback(run: seq<MountState>)
    requires |run| >= 2 && AcceptedRun(run)
    requires run[0].phase == Active && ValidMountState(run[0])
    requires forall i | 1 <= i < |run| :: run[i].phase == Starting
    ensures forall i | 1 <= i < |run| :: KeepsFallback(run[i], run[0].binaryPath, run[0].mountArgs)
    ensures exists k: nat :: SwitchesOnceAt(run, k)
  {
    hide ValidTransition, ValidMountState, KeepsFallback, NoFallback;
    var last := |run| - 1;
    assert ValidTransition(Some(run[last - 1]), run[last]);
    if last == 1 {
      RecoveryBegins(run[0], run[1]);
      assert SwitchesOnceAt(run, 2);
    } else {
      var prefix := run[..last];
      assert forall i | 0 <= i < |prefix| - 1 :: ValidTransition(Some(prefix[i]), prefix[i + 1]);
      ExactFallback(prefix);
      var k: nat :| SwitchesOnceAt(prefix, k);
      assert forall i | 0 <= i < last :: run[i] == prefix[i];
      RecoveryContinues(run[last - 1], run[last], run[0].binaryPath, run[0].mountArgs);
      if k == last && run[last] == run[last - 1] {
        assert SwitchesOnceAt(run, last + 1);
      } else {
        assert SwitchesOnceAt(run, k);
      }
    }
  }

  lemma RecoveryBegins(active: MountState, next: MountState)
    requires ValidMountState(active) && active.phase == Active && next.phase == Starting
    requires ValidTransition(Some(active), next)
    ensures KeepsFallback(next, active.binaryPath, active.mountArgs) && !NoFallback(next)
  {
    hide ValidMountArgs, CanonicalRemoteRoot, CanonicalStagingTarget;
    ValidArgsAreNotEmpty(active.mountArgs, active.remoteRoot, active.stagingTarget);
  }

  /** A candidate with a fallback repeats or gives way to it; one without only repeats. */
  lemma RecoveryContinues(current: MountState, next: MountState, binary: BinaryPath, args: seq<string>)
    requires KeepsFallback(current, binary, args) && next.phase == Starting && ValidTransition(Some(current), next)
    ensures KeepsFallback(next, binary, args)
    ensures next == current || (!NoFallback(current) && NoFallback(next))
  {
    hide ValidMountArgs, CanonicalRemoteRoot, CanonicalStagingTarget;
  }

  /** So a recovery tries at most two attempts before it ends. */
  lemma AtMostTwoCandidates(run: seq<MountState>)
    requires |run| >= 2 && AcceptedRun(run)
    requires run[0].phase == Active && ValidMountState(run[0])
    requires forall i | 1 <= i < |run| :: run[i].phase == Starting
    ensures |Attempts(run[1..])| <= 2
  {
    hide ValidMountState, ValidTransition;
    ExactFallback(run);
    var k: nat :| SwitchesOnceAt(run, k);
    var two := {run[1].attemptID, if k < |run| then run[k].attemptID else run[1].attemptID};
    forall attempt | attempt in Attempts(run[1..]) ensures attempt in two {
      var i :| 0 <= i < |run[1..]| && run[1..][i].attemptID == attempt;
      assert run[1..][i] == run[i + 1];
    }
    SubsetIsSmaller(Attempts(run[1..]), two);
  }

  lemma {:induction false} SubsetIsSmaller<T>(small: set<T>, large: set<T>)
    requires small <= large
    ensures |small| <= |large|
  {
    if small != {} {
      var x :| x in small;
      SubsetIsSmaller(small - {x}, large - {x});
    }
  }

  /** Retrying the write that produced the current record is always accepted. */
  lemma RewriteAccepted(current: Option<MountState>, next: MountState)
    requires ValidTransition(current, next)
    ensures ValidTransition(Some(next), next)
  {
    hide ValidMountArgs, CanonicalRemoteRoot, CanonicalStagingTarget;
  }

  /**
    * A stopping record is only ever rewritten as itself, so nothing but deletion ends a stop, and
    * nothing after it can resume the mount.
    */
  lemma {:induction false} StoppingIsFinal(run: seq<MountState>)
    requires run != [] && AcceptedRun(run) && run[0].phase == Stopping
    ensures forall i | 0 <= i < |run| :: run[i] == run[0]
  {
    hide ValidMountState;
    if |run| > 1 {
      assert ValidTransition(Some(run[0]), run[1]);
      assert forall i | 0 <= i < |run[1..]| :: run[1..][i] == run[i + 1];
      StoppingIsFinal(run[1..]);
    }
  }

  // ---- Consumers ------------------------------------------------------------------------------

  /** A record under which published consumers may keep using the staging mount. */
  predicate ServesConsumers(s: MountState) {
    s.phase == Active || (s.phase == Starting && s.reason == Recovery)
  }

  predicate KeepsConsumers(before: Option<MountState>, after: Option<MountState>) {
    before.Some? && ServesConsumers(before.value) ==>
      && after.Some? && ServesConsumers(after.value)
      && after.value.stagingTarget == before.value.stagingTarget
  }

  /** No accepted write takes the mount away from its consumers, except the one that begins a stop. */
  lemma WriteKeepsConsumers(current: MountState, next: MountState)
    requires ValidTransition(Some(current), next) && next.phase != Stopping
    ensures KeepsConsumers(Some(current), Some(next))
  {
    hide ValidMountState;
  }
}
