/** Stopping a mount (internal/driver/mount_stop.go, runtime_artifact_cleanup.go, mount_lifecycle.go:451-469). */
module Stop {
  import opened Text
  import opened MountRecord
  import opened MountArgs
  import RemotePath
  import opened World
  import opened Host
  import opened Ownership

  const PID_KILL_ATTEMPTS := 20
  const PID_KILL_WAIT := 5_000_000_000 / PID_KILL_ATTEMPTS

  datatype StopResult = Cleaned | Preserved

  predicate Live(service: Option<UnitState>) {
    service == Some(UnitActive) || service == Some(UnitActivating)
  }

  function Owning(state: MountState, process: Option<VerifiedProcess>): MountState {
    if process.Some? then WithProcess(state, process.value) else state
  }

  /** The identity on a record; only meaningful if its pid is positive. */
  function RecordedIdent(state: MountState): Ident {
    Ident(if state.pid > 0 then state.pid else 0, state.pidStartTime)
  }

  predicate KnownIdent(w: World, state: MountState) {
    state.pid > 0 ==> RecordedIdent(state) in w.born
  }

  /** Commands only under the given record, kills only of accepted identities, and no start. */
  predicate CleansUp(before: Past, after: Past, record: Option<MountState>) {
    && after.starts == before.starts
    && after.deletions == before.deletions
    && before.accepted.Keys <= after.accepted.Keys
    && after.killed <= before.killed + after.accepted.Keys
    && after.commandsUnder <= before.commandsUnder + {record}
    && before.drains <= after.drains && before.published <= after.published
  }

  lemma CleansUpTwice(p: Past, q: Past, r: Past, record: Option<MountState>)
    requires CleansUp(p, q, record) && CleansUp(q, r, record)
    ensures CleansUp(p, r, record)
  {
  }

  // ---- Artifacts -----------------------------------------------------------------------------

  /** removeAttemptStartupFiles: all four removals are tried whatever happens to the others. */
  method RemoveAttemptStartupFiles(host: Host, state: MountState) returns (ok: bool)
    requires host.Inv()
    modifies host.runtime, host`past
    ensures host.Moved() && CleansUp(old(host.past), host.past, host.record)
    ensures ok && host.record.Some? && host.record.value.attemptID == state.attemptID ==> host.runtime.startup == {}
    ensures host.settled ==> host.View() == old(host.View()).(startup := host.runtime.startup)
    ensures host.settled && StartupPathsOf(state) ==> ok
  {
    hide Host.Inv, Evolves;
    ghost var a := host.View();
    ok := false;
    if !StartupPathsOf(state) {
      host.Interfere();
    } else {
      var env := host.RemoveStartupFile(StartupFile(state.attemptID, Env));
      ghost var b := host.View();
      var envTemp := host.RemoveStartupFile(StartupFile(state.attemptID, EnvTemp));
      ghost var c := host.View();
      EvolvesTwice(a, b, c);
      var args := host.RemoveStartupFile(StartupFile(state.attemptID, Args));
      ghost var d := host.View();
      EvolvesTwice(a, c, d);
      var argsTemp := host.RemoveStartupFile(StartupFile(state.attemptID, ArgsTemp));
      EvolvesTwice(a, d, host.View());
      ok := env && envTemp && args && argsTemp;
      if ok && host.record.Some? && host.record.value.attemptID == state.attemptID {
        host.Sound();
        NoKindIsLeft(b, c, d, host.View(), state.attemptID);
      }
    }
  }

  lemma NoKindIsLeft(a: World, b: World, c: World, d: World, attempt: AttemptID)
    requires Evolves(a, b) && Evolves(b, c) && Evolves(c, d) && StartupFilesOwned(d)
    requires d.record.Some? && d.record.value.attemptID == attempt
    requires StartupFile(attempt, Env) !in a.startup && StartupFile(attempt, EnvTemp) !in b.startup
    requires StartupFile(attempt, Args) !in c.startup && StartupFile(attempt, ArgsTemp) !in d.startup
    ensures d.startup == {}
  {
    assert forall file | file in d.startup ::
      file.kind.Env? || file.kind.EnvTemp? || file.kind.Args? || file.kind.ArgsTemp?;
  }

  /** The process-state file is absent, or names a dead process. */
  predicate NamesNobody(w: World, target: Target) {
    target in w.processStates ==> w.processStates[target].Names? && !Alive(w, w.processStates[target].ident)
  }

  /** The condition under which a settled host lets the artifacts of a target go. */
  predicate ArtifactsDead(w: World, target: Target) {
    target !in w.mounts && NamesNobody(w, target)
  }

  predicate ArtifactPathsMatch(state: MountState) {
    && (state.processStatePath.NoPath? || state.processStatePath == ProcessStateFile(state.stagingTarget))
    && (state.controlSocketPath.NoPath? || state.controlSocketPath == ControlSocket(state.stagingTarget))
  }

  /** The mount was read as absent in a, and the process as absent or dead after it: is the target unmounted? */
  ghost predicate DeadCheckHolds(a: World, target: Target) {
    forall b: World | EnvStep(a, b) && NamesNobody(b, target) :: target !in b.mounts
  }

  /**
    * Exactly if nothing is alive when the mount is read. Otherwise a survivor may mount the target and die
    * between the two reads, which are in this order; a process check before the mount check would do.
    */
  lemma DeadCheckHoldsIff(a: World, target: Target)
    requires Consistent(a) && !a.lost && RecordFor(a, target) && target !in a.mounts && !Running(a.unit)
    ensures DeadCheckHolds(a, target) <==> NoSupervisor(a)
  {
    if NoSupervisor(a) {
      forall b: World | EnvStep(a, b) ensures target !in b.mounts {
        EnvStepEvolves(a, b);
      }
    } else {
      var b := MountedAndGone(a, target);
      MountedAndGoneIsAStep(a, target);
      SurvivorsAreNamed(a, target);
      assert NamesNobody(b, target) && target in b.mounts;
    }
  }

  lemma SurvivorsAreNamed(w: World, target: Target)
    requires Consistent(w) && RecordFor(w, target) && !Running(w.unit) && !NoSupervisor(w)
    ensures NamesNobody(WithoutSupervisors(w), target)
  {
    var pid :| pid in w.procs && w.procs[pid].origin.Supervisor?;
    assert RecordedAt(w, target, Ident(pid, w.procs[pid].start));
  }

  /** The artifacts of a target are gone, and so is its mount if nothing was alive when it was read as absent. */
  predicate ArtifactsGone(seen: World, w: World, target: Target) {
    && NoSupervisor(w) && (w.lost || (target !in w.processStates && target !in w.sockets))
    && target !in seen.mounts && (Quiet(seen) ==> w.lost || target !in w.mounts)
  }

  /** On a settled host removals only take away. */
  predicate OnlyRemoved(a: World, b: World) {
    Shrinks(a.processStates, b.processStates) && b.mounts <= a.mounts
  }

  /**
    * removeVerifiedDeadRuntimeArtifacts: called once the unit no longer runs. Success means that no
    * supervisor is left and that its two artifacts are gone. The target is unmounted then if nothing was
    * alive when its mount was read, in the world `seen`; DeadCheckHoldsIff says that this is exact.
    */
  method RemoveVerifiedDeadRuntimeArtifacts(host: Host, state: MountState) returns (ok: bool, ghost seen: World)
    requires host.Inv()
    requires !Running(host.runtime.unit)
    requires host.record.Some? ==> RecordFor(host.View(), state.stagingTarget)
    modifies host.runtime, host`past
    ensures host.Moved() && CleansUp(old(host.past), host.past, host.record)
    ensures Evolves(old(host.View()), seen) && Evolves(seen, host.View())
    ensures ok ==> ArtifactsGone(seen, host.View(), state.stagingTarget)
    ensures host.settled && ok ==> Quiet(seen)
    ensures host.settled ==> OnlyRemoved(old(host.View()), host.View())
    ensures host.settled && ArtifactsDead(old(host.View()), state.stagingTarget) && ArtifactPathsMatch(state) ==> ok
  {
    hide Persists, OnlySurvivors, NoSupervisor;
    EvolvesComposes();
    var target := state.stagingTarget;
    seen := host.View();
    EvolvesReflexive(seen);
    ok := false;
    if !ArtifactPathsMatch(state) {
      host.Interfere();
    } else {
      var mounted := host.IsMountPoint(target);
      seen := host.View();
      EvolvesReflexive(seen);
      if mounted == Known(false) {
        ok := RemoveDead(host, target);
      }
    }
  }

  /** The process and the socket, after the mount (runtime_artifact_cleanup.go:33-79). */
  method RemoveDead(host: Host, target: Target) returns (ok: bool)
    requires host.Inv() && !Running(host.runtime.unit) && target !in host.runtime.mounts
    requires host.record.Some? ==> RecordFor(host.View(), target)
    modifies host.runtime, host`past
    ensures host.Moved() && CleansUp(old(host.past), host.past, host.record)
    ensures ok ==> ArtifactsGone(old(host.View()), host.View(), target)
    ensures host.settled && ok ==> Quiet(old(host.View()))
    ensures host.settled ==> OnlyRemoved(old(host.View()), host.View())
    ensures host.settled && ArtifactsDead(old(host.View()), target) ==> ok
  {
    hide Persists, OnlySurvivors, NoSupervisor;
    EvolvesComposes();
    ok := false;
    var processState := InspectProcessState(host, target);
    if processState != Unreadable {
      var socket := host.LstatControlSocket(target);
      if socket.Known? && socket.value != NotASocket {
        ok := RemoveArtifacts(host, target, processState == Present, socket == Known(RealSocket));
      }
    }
  }

  /** The process-state part of the check: Present is the file of a dead process. */
  method InspectProcessState(host: Host, target: Target) returns (answer: Presence)
    requires host.Inv() && !Running(host.runtime.unit)
    requires host.record.Some? ==> RecordFor(host.View(), target)
    modifies host.runtime
    ensures host.Observed()
    ensures answer != Unreadable ==> NoSupervisor(host.View())
    ensures answer == Absent ==> target !in host.runtime.processStates
    ensures host.settled && target !in old(host.runtime.processStates) ==> answer == Absent
    ensures host.settled && target in old(host.runtime.processStates) && NamesNobody(old(host.View()), target) ==>
      answer == Present
  {
    hide Evolves, Host.Inv, NoSupervisor;
    ghost var start := host.View();
    answer := host.LstatProcessState(target);
    ghost var atFile := host.View();
    NotRunningStays(start, atFile);
    host.Sound();
    if answer == Absent {
      NobodyIsRecorded(atFile, target);
    } else if answer == Present {
      answer := InspectRecorded(host, target);
      EvolvesTwice(start, atFile, host.View());
    }
  }

  lemma NobodyWithoutRecord(w: World)
    requires Consistent(w) && w.record.None?
    ensures NoSupervisor(w)
  {
  }

  lemma NobodyIsRecorded(w: World, target: Target)
    requires Consistent(w) && !Running(w.unit) && (w.record.Some? ==> RecordFor(w, target))
    requires target !in w.processStates
    ensures NoSupervisor(w)
  {
  }

  /** The process that the file names must be dead. */
  method InspectRecorded(host: Host, target: Target) returns (answer: Presence)
    requires host.Inv() && !Running(host.runtime.unit)
    requires host.record.Some? ==> RecordFor(host.View(), target)
    modifies host.runtime
    ensures host.Observed() && answer != Absent
    ensures answer == Present ==> NoSupervisor(host.View())
    ensures host.settled && target in old(host.runtime.processStates) && NamesNobody(old(host.View()), target) ==>
      answer == Present
  {
    hide Evolves, Host.Inv, NoSupervisor;
    ghost var start := host.View();
    answer := Unreadable;
    var recorded := host.ReadProcessState(target);
    if recorded.Known? {
      ghost var atRead := host.View();
      NotRunningStays(start, atRead);
      host.Sound();
      var alive := host.ReadStartTime(recorded.value.pid);
      EvolvesTwice(start, atRead, host.View());
      if alive != UnreadableStart && alive != StartedAt(recorded.value.start) {
        host.Sound();
        if host.record.Some? {
          DeadRecordMeansNoSupervisor(atRead, host.View(), target, recorded.value);
        } else {
          NobodyWithoutRecord(host.View());
        }
        answer := Present;
      }
    }
  }

  method RemoveArtifacts(host: Host, target: Target, processState: bool, socket: bool) returns (ok: bool)
    requires host.Inv() && !Running(host.runtime.unit) && NoSupervisor(host.View())
    requires host.lost || (!processState ==> target !in host.runtime.processStates)
    requires host.lost || (!socket ==> target !in host.runtime.sockets)
    modifies host.runtime, host`past
    ensures host.Moved() && CleansUp(old(host.past), host.past, host.record)
    ensures ok ==> host.lost || (target !in host.runtime.processStates && target !in host.runtime.sockets)
    ensures host.settled ==> ok && OnlyRemoved(old(host.View()), host.View())
  {
    hide Persists, OnlySurvivors, NoSupervisor, Host.Inv;
    EvolvesComposes();
    host.Interfere();
    ok := true;
    if processState {
      ok := host.RemoveProcessState(target);
    }
    if socket {
      var removed := host.RemoveControlSocket(target);
      ok := ok && removed;
    }
  }

  // ---- Processes -----------------------------------------------------------------------------

  /** stoppingPIDAlive. */
  method StoppingPIDAlive(host: Host, state: MountState) returns (answer: Answer<bool>)
    requires host.Inv() && KnownIdent(host.View(), state)
    modifies host.runtime, host`past
    ensures host.Observed()
    ensures answer == Known(true) ==>
      && state.pid > 0 && Alive(host.View(), RecordedIdent(state))
      && host.past == old(host.past).(lastAlive := Some(RecordedIdent(state)))
    ensures answer != Known(true) ==> host.past == old(host.past)
    ensures answer == Known(false) && state.pid > 0 && state.pidStartTime > 0 ==>
      !Alive(host.View(), RecordedIdent(state))
    ensures host.settled ==>
      answer == Known(state.pid > 0 && state.pidStartTime > 0 && Alive(host.View(), RecordedIdent(state)))
  {
    if state.pid <= 0 || state.pidStartTime == 0 {
      host.Interfere();
      return Known(false);
    }
    var start := host.ReadStartTime(state.pid);
    match start
    case NoSuchProcess => return Known(false);
    case UnreadableStart => return Unknown;
    case StartedAt(_) =>
      if start.start != state.pidStartTime {
        return Known(false);
      }
      host.SawAlive(RecordedIdent(state));
      return Known(true);
  }

  lemma NothingCleanedUp(p: Past, q: Past, record: Option<MountState>)
    requires OnlyAccepts(p, q) || p == q
    ensures CleansUp(p, q, record)
  {
  }

  /** A kill of an accepted identity, and a look at a process. */
  lemma KillCleansUp(p: Past, q: Past, record: Option<MountState>, id: Ident)
    requires q == p.(commandsUnder := p.commandsUnder + {record}, killed := p.killed + {id}) && id in p.accepted
    ensures CleansUp(p, q, record)
  {
  }

  lemma LookCleansUp(p: Past, q: Past, record: Option<MountState>)
    requires q.(lastAlive := None) == p.(lastAlive := None)
    ensures CleansUp(p, q, record)
  {
  }

  /** Up to twenty liveness checks after a KILL. */
  method AwaitKilled(host: Host, state: MountState) returns (gone: bool)
    requires host.Inv() && state.pid > 0 && state.pidStartTime > 0 && KnownIdent(host.View(), state)
    modifies host.runtime, host`past
    ensures host.Moved() && CleansUp(old(host.past), host.past, host.record)
    ensures gone ==> !Alive(host.View(), RecordedIdent(state))
    ensures host.settled && !Alive(old(host.View()), RecordedIdent(state)) ==> gone && host.View() == old(host.View())
  {
    hide Host.Inv, Evolves, CleansUp, NoSupervisor;
    ghost var start, begun := host.View(), host.past;
    EvolvesReflexive(start);
    LookCleansUp(begun, begun, host.record);
    for i := 0 to PID_KILL_ATTEMPTS
      invariant host.Inv() && host.record == old(host.record) && Evolves(start, host.View())
      invariant CleansUp(begun, host.past, host.record) && KnownIdent(host.View(), state)
      invariant host.settled && !Alive(start, RecordedIdent(state)) ==> i == 0 && host.View() == start
    {
      ghost var before, p := host.View(), host.past;
      var alive := StoppingPIDAlive(host, state);
      ghost var seen, q := host.View(), host.past;
      EvolvesTwice(start, before, seen);
      LookCleansUp(p, q, host.record);
      CleansUpTwice(begun, p, q, host.record);
      KnownIdentEvolves(before, seen, state);
      if alive.Unknown? {
        return false;
      }
      if !alive.value {
        return true;
      }
      var waited := host.Wait(PID_KILL_WAIT);
      EvolvesTwice(start, seen, host.View());
      KnownIdentEvolves(seen, host.View(), state);
      if !waited {
        return false;
      }
    }
    return false;
  }

  /** killStoppingPID: KILL, then up to twenty liveness checks. */
  method KillStoppingPID(host: Host, state: MountState) returns (ok: bool)
    requires host.Inv() && state.pid > 0 && state.pidStartTime > 0
    requires host.past.lastAlive == Some(RecordedIdent(state))
    requires RecordedIdent(state) in host.past.accepted
    modifies host.runtime, host`past
    ensures host.Moved() && CleansUp(old(host.past), host.past, host.record)
    ensures ok ==> !Alive(host.View(), RecordedIdent(state))
    ensures host.settled ==>
      ok && host.View() == old(host.View()).(procs := old(host.runtime.procs) - {RecordedIdent(state).pid})
  {
    hide Host.Inv, Evolves, CleansUp, NoSupervisor;
    ghost var start, begun := host.View(), host.past;
    LookCleansUp(begun, begun, host.record);
    host.Sound();
    ok := false;
    var attempt := host.NewAttemptID();
    if attempt.None? {
      host.Interfere();
    } else {
      ok := host.Kill(RecordedIdent(state));
      ghost var killed, p := host.View(), host.past;
      KillCleansUp(begun, p, host.record, RecordedIdent(state));
      KnownIdentEvolves(start, killed, state);
      if ok {
        ok := AwaitKilled(host, state);
        EvolvesTwice(start, killed, host.View());
        CleansUpTwice(begun, p, host.past, host.record);
      }
    }
  }

  // ---- Ownership -----------------------------------------------------------------------------

  /** Everything that a stop looks at on a settled host belongs to the record beyond doubt. */
  predicate Unambiguous(w: World, state: MountState) {
    var target := state.stagingTarget;
    && (target in w.processStates ==>
          && w.processStates[target].Names?
          && w.processStates[target].ident in w.born
          && (Alive(w, w.processStates[target].ident) ==>
                Attributed(w, w.processStates[target].ident, target, state.binaryPath)))
    && (state.pid > 0 ==>
          && state.pidStartTime > 0
          && (Alive(w, RecordedIdent(state)) ==> Attributed(w, RecordedIdent(state), target, state.binaryPath)))
    && (state.pid <= 0 ==> state.pidStartTime == 0)
    && (w.unit.Loaded? ==> w.unit.attempt == state.attemptID)
    && (Running(w.unit) ==>
          if state.envPath.NoPath? && state.argsPath.NoPath? then MainAttributed(w, state, false)
          else UnitWithoutMain(w.unit, state.attemptID) || MainAttributed(w, state, true))
  }

  /** The identity on record, if it still lives, must pass the ownership check. */
  method VerifyRecordedProcess(host: Host, state: MountState) returns (answer: Answer<Option<VerifiedProcess>>)
    requires host.Inv() && KnownIdent(host.View(), state)
    modifies host.runtime, host`past
    ensures host.Observed() && OnlyAccepts(old(host.past), host.past)
    ensures answer == Known(None) ==> state.pid <= 0 || !Alive(host.View(), RecordedIdent(state))
    ensures answer.Known? && answer.value.Some? ==>
      && !answer.value.value.isLauncher && IdentOf(answer.value.value) == RecordedIdent(state)
      && LiveSupervisor(host.View(), answer.value.value)
      && Accepts(old(host.past), host.past, answer.value.value)
      && (host.settled ==> Trusted(host.View(), state, answer.value.value))
    ensures host.settled && Unambiguous(old(host.View()), state) ==> answer.Known?
  {
    hide Persists, OnlySurvivors, Shrinks, NoSupervisor;
    EvolvesComposes();
    if state.pid <= 0 && state.pidStartTime == 0 {
      host.Interfere();
      return Known(None);
    }
    if state.pid <= 0 || state.pidStartTime == 0 {
      host.Interfere();
      return Unknown;
    }
    var start := host.ReadStartTime(state.pid);
    match start
    case NoSuchProcess => return Known(None);
    case UnreadableStart => return Unknown;
    case StartedAt(_) =>
      if start.start != state.pidStartTime {
        return Known(None);
      }
      var id := RecordedIdent(state);
      var ok := VerifyHostPIDOwnership(host, id, state.stagingTarget, state.binaryPath, true);
      answer := if ok then Known(Some(VerifiedProcess(id.pid, id.start, false))) else Unknown;
  }

  lemma OneSupervisor(w: World, p: VerifiedProcess, q: VerifiedProcess)
    requires Consistent(w) && !w.lost && LiveSupervisor(w, p) && LiveSupervisor(w, q)
    ensures p.pid == q.pid && p.pidStartTime == q.pidStartTime
  {
  }

  lemma DeadStaysDead(a: World, b: World, state: MountState)
    requires Evolves(a, b) && KnownIdent(a, state) && state.pid > 0
    requires !Alive(a, RecordedIdent(state))
    ensures !Alive(b, RecordedIdent(state))
  {
  }

  /** observeStopProcess. */
  method ObserveStopProcess(host: Host, state: MountState) returns (answer: Answer<Option<VerifiedProcess>>)
    requires host.Inv() && KnownIdent(host.View(), state)
    modifies host.runtime, host`past
    ensures host.Observed() && OnlyAccepts(old(host.past), host.past)
    ensures answer == Known(None) ==>
      && (state.pid <= 0 || !Alive(host.View(), RecordedIdent(state)))
      && (!Running(old(host.runtime.unit)) && RecordFor(host.View(), state.stagingTarget) ==>
            NoSupervisor(host.View()))
    ensures answer.Known? && answer.value.Some? ==>
      && !answer.value.value.isLauncher
      && answer.value.value.pid > 0 && answer.value.value.pidStartTime > 0
      && IdentOf(answer.value.value) in host.past.accepted && OnlyOne(host.View(), IdentOf(answer.value.value))
      && (host.settled ==>
            LiveSupervisor(host.View(), answer.value.value) && Trusted(host.View(), state, answer.value.value))
    ensures host.settled && Unambiguous(old(host.View()), state) ==> answer.Known?
  {
    hide Evolves, NoSupervisor, Host.Inv, OnlyOne, OnlyAccepts;
    ghost var start, begun := host.View(), host.past;
    answer := Unknown;
    var recorded := VerifyRecordedProcess(host, state);
    if recorded.Known? {
      ghost var atRecorded, between := host.View(), host.past;
      host.Sound();
      KnownIdentEvolves(start, atRecorded, state);
      NotRunningStays(start, atRecorded);
      if recorded.value.Some? {
        LiveSupervisorIsOnly(atRecorded, recorded.value.value);
      }
      var process := ObserveStartingProcess(host, state);
      host.Sound();
      EvolvesTwice(start, atRecorded, host.View());
      NothingAccepted(between);
      NothingAccepted(host.past);
      OnlyAcceptsTwice(begun, between, host.past);
      if process.ProcessVerified? {
        LiveSupervisorIsOnly(host.View(), process.process);
        if host.settled && recorded.value.Some? {
          OneSupervisor(host.View(), recorded.value.value, process.process);
        }
        if recorded.value.None? || IdentOf(recorded.value.value) == IdentOf(process.process) {
          answer := Known(Some(process.process));
        }
      } else if !process.ProcessMismatch? {
        if recorded.value.Some? {
          OnlyOneStays(atRecorded, host.View(), IdentOf(recorded.value.value));
        } else if state.pid > 0 {
          DeadStaysDead(atRecorded, host.View(), state);
        }
        answer := recorded;
      }
    }
  }

  lemma NothingAccepted(past: Past)
    ensures OnlyAccepts(past, past)
  {
  }

  /** verifyStopServiceProcess: a running service must be attributable, and to the same process. */
  method VerifyStopServiceProcess(
    host: Host, state: MountState, service: Option<UnitState>, process: Option<VerifiedProcess>
  ) returns (answer: Answer<Option<VerifiedProcess>>)
    requires host.Inv() && KnownIdent(host.View(), state)
    requires process.Some? ==>
      && process.value.pid > 0 && process.value.pidStartTime > 0
      && IdentOf(process.value) in host.past.accepted && OnlyOne(host.View(), IdentOf(process.value))
      && (host.settled ==> LiveSupervisor(host.View(), process.value) && Trusted(host.View(), state, process.value))
    modifies host.runtime, host`past
    ensures host.Observed() && OnlyAccepts(old(host.past), host.past)
    ensures answer.Known? && answer.value.None? ==> process.None?
    ensures answer.Known? && !Live(service) ==> answer.value == process
    ensures answer.Known? && answer.value.Some? ==>
      && answer.value.value.pid > 0 && answer.value.value.pidStartTime > 0
      && IdentOf(answer.value.value) in host.past.accepted && OnlyOne(host.View(), IdentOf(answer.value.value))
      && (host.settled ==>
            LiveSupervisor(host.View(), answer.value.value) && Trusted(host.View(), state, answer.value.value))
    ensures host.settled && Unambiguous(old(host.View()), state) ==>
      ((Live(service) ==> Running(old(host.runtime.unit))) ==> answer.Known?)
  {
    hide Evolves, NoSupervisor, Host.Inv, OnlyOne, Unambiguous, MainAttributed;
    ghost var start := host.View();
    answer := Unknown;
    if !Live(service) {
      host.Interfere();
      answer := Known(process);
    } else {
      var main := VerifyServiceMain(host, state);
      if main.Known? && main.value.Some? {
        if host.settled && process.Some? {
          host.Sound();
          OneSupervisor(host.View(), process.value, main.value.value);
        }
        if process.None? || IdentOf(process.value) == IdentOf(main.value.value) {
          answer := main;
        }
      } else if main.Known? {
        answer := Known(process);
      }
    }
    if process.Some? {
      OnlyOneStays(start, host.View(), IdentOf(process.value));
    }
  }

  /** The main process of a running service: None for a starting attempt whose unit has none yet. */
  method VerifyServiceMain(host: Host, state: MountState) returns (main: Answer<Option<VerifiedProcess>>)
    requires host.Inv()
    modifies host.runtime, host`past
    ensures host.Observed() && OnlyAccepts(old(host.past), host.past)
    ensures main.Known? && main.value.Some? ==>
      && LiveSupervisor(host.View(), main.value.value) && OnlyOne(host.View(), IdentOf(main.value.value))
      && IdentOf(main.value.value) in host.past.accepted
      && (host.settled ==> Trusted(host.View(), state, main.value.value))
    ensures host.settled && Unambiguous(old(host.View()), state) && Running(old(host.runtime.unit)) ==> main.Known?
  {
    hide Evolves, NoSupervisor, Host.Inv, OnlyOne;
    main := Unknown;
    if !state.envPath.NoPath? || !state.argsPath.NoPath? {
      main := VerifyStartingMainPID(host, state);
    } else {
      var active := VerifySystemdMainPID(host, state);
      main := if active.Known? then Known(Some(active.value)) else Unknown;
    }
    if main.Known? && main.value.Some? {
      host.Sound();
      LiveSupervisorIsOnly(host.View(), main.value.value);
    }
  }

  // ---- The stop transaction --------------------------------------------------------------------

  predicate ResourcesAbsent(w: World, owned: MountState) {
    && w.unit.NotFound? && owned.stagingTarget !in w.mounts
    && (owned.pid > 0 ==> !Alive(w, RecordedIdent(owned)))
  }

  /** stoppingResourcesAbsent. */
  method StoppingResourcesAbsent(host: Host, owned: MountState) returns (answer: Answer<bool>)
    requires host.Inv() && KnownIdent(host.View(), owned)
    modifies host.runtime, host`past
    ensures host.Observed() && CleansUp(old(host.past), host.past, host.record)
    ensures answer == Known(true) ==> host.runtime.unit.NotFound?
    ensures answer == Known(true) && owned.pid > 0 && owned.pidStartTime > 0 ==>
      !Alive(host.View(), RecordedIdent(owned))
    ensures host.settled && ResourcesAbsent(old(host.View()), owned) ==> answer == Known(true)
  {
    hide Persists, OnlySurvivors, Shrinks, NoSupervisor, Host.Inv;
    EvolvesComposes();
    var mounted := host.IsMountPoint(owned.stagingTarget);
    if mounted.Unknown? {
      return Unknown;
    }
    var alive := StoppingPIDAlive(host, owned);
    if alive.Unknown? {
      return Unknown;
    }
    ghost var atAlive := host.View();
    var service := host.QueryUnit();
    if service.Unknown? {
      return Unknown;
    }
    if !alive.value && owned.pid > 0 && owned.pidStartTime > 0 {
      DeadStaysDead(atAlive, host.View(), owned);
    }
    return Known(!mounted.value && !alive.value && service.value.None?);
  }

  predicate RuntimePathsMatch(state: MountState) {
    && ArtifactPathsMatch(state)
    && (StartupPathsOf(state) || (state.envPath.NoPath? && state.argsPath.NoPath?))
  }

  /** removeStoppingArtifacts. */
  method RemoveStoppingArtifacts(host: Host, state: MountState) returns (ok: bool, ghost seen: World)
    requires host.Inv() && !Running(host.runtime.unit)
    requires RecordFor(host.View(), state.stagingTarget) && host.record.value.attemptID == state.attemptID
    requires host.record.value.envPath == state.envPath
    modifies host.runtime, host`past
    ensures host.Moved() && CleansUp(old(host.past), host.past, host.record)
    ensures Evolves(old(host.View()), seen)
    ensures ok ==> host.runtime.startup == {} && ArtifactsGone(seen, host.View(), state.stagingTarget)
    ensures host.settled && ok ==> Quiet(seen)
    ensures host.settled ==> OnlyRemoved(old(host.View()), host.View())
    ensures host.settled && ArtifactsDead(old(host.View()), state.stagingTarget) && RuntimePathsMatch(state) ==> ok
  {
    hide Persists, OnlySurvivors, Shrinks, NoSupervisor;
    EvolvesComposes();
    host.Interfere();
    var startup := true;
    if !state.envPath.NoPath? || !state.argsPath.NoPath? {
      startup := RemoveAttemptStartupFiles(host, state);
    } else {
      assert host.runtime.startup == {};
    }
    var artifacts: bool;
    artifacts, seen := RemoveVerifiedDeadRuntimeArtifacts(host, state);
    ok := startup && artifacts;
  }

  /** Everything of the record is gone: what a cleaned stop leaves. */
  predicate Gone(w: World, target: Target) {
    && w.record.None? && Vacant(w, target) && w.startup == {}
    && (w.lost || (target !in w.processStates && target !in w.sockets))
  }

  /** The same but for the mount, which is gone if nothing was alive when it was read as absent. */
  predicate GoneSince(seen: World, w: World, target: Target) {
    && w.record.None? && w.unit.NotFound? && w.startup == {}
    && !Running(seen.unit) && ArtifactsGone(seen, w, target)
  }

  lemma GoneSinceQuiet(seen: World, w: World, target: Target)
    requires GoneSince(seen, w, target) && Quiet(seen)
    ensures Gone(w, target)
  {
  }

  /** Once only the record is left. */
  lemma OnlyRecordIsLeft(seen: World, w: World, target: Target)
    requires w.unit.NotFound? && w.startup == {} && !Running(seen.unit) && ArtifactsGone(seen, w, target)
    ensures GoneSince(seen, w.(record := None), target)
  {
  }

  lemma GoneSinceStays(seen: World, a: World, b: World, target: Target)
    requires GoneSince(seen, a.(record := None), target) && Evolves(a.(record := b.record), b) && b.record.None?
    ensures GoneSince(seen, b, target)
  {
  }

  /** What a stop leaves of the durable record: itself, or nothing with everything else gone. */
  predicate StopOutcome(before: Option<MountState>, after: World, target: Target, result: StopResult, seen: World) {
    && (result == Cleaned ==> GoneSince(seen, after, target))
    && (after.record == before || GoneSince(seen, after, target))
  }

  /** Clean-up under the given record, and at most deletions that rest on this look at the mount of a stopped unit. */
  ghost predicate Stops(before: Past, after: Past, record: Option<MountState>, seen: World) {
    && before.deletions <= after.deletions
    && CleansUp(before, after.(deletions := before.deletions), record)
    && ActsSee(before, after, seen) && (after.deletions != before.deletions ==> !Running(seen.unit))
  }

  lemma StopsAfterCleanup(p: Past, q: Past, r: Past, record: Option<MountState>, seen: World)
    requires CleansUp(p, q, record) && Stops(q, r, record, seen)
    ensures Stops(p, r, record, seen)
  {
  }

  lemma StopsNothing(p: Past, q: Past, record: Option<MountState>, seen: World)
    requires OnlyAccepts(p, q) || p == q
    ensures Stops(p, q, record, seen)
  {
  }

  lemma StopsAfterAccepting(p: Past, q: Past, r: Past, record: Option<MountState>, seen: World)
    requires OnlyAccepts(p, q) && Stops(q, r, record, seen)
    ensures Stops(p, r, record, seen)
  {
  }

  /** finalizeStoppingAfterArtifacts. */
  method FinalizeAfterArtifacts(host: Host, state: MountState, ghost seen: World) returns (result: StopResult)
    requires host.Inv() && host.record == Some(state) && state.phase == Stopping
    requires GoneSince(seen, host.View().(record := None), state.stagingTarget)
    modifies host.runtime, host`record, host`past
    ensures host.Inv() && Evolves(old(host.View()).(record := host.record), host.View())
    ensures StopOutcome(old(host.record), host.View(), state.stagingTarget, result, seen)
    ensures Stops(old(host.past), host.past, old(host.record), seen)
    ensures host.settled ==> result == Cleaned
  {
    hide Host.Inv, Evolves, ActsSee;
    ghost var start := host.View();
    var deleted := host.DeleteRecord(state, seen);
    if host.record.None? {
      GoneSinceStays(seen, start, host.View(), state.stagingTarget);
    }
    result := if deleted then Cleaned else Preserved;
  }

  /** finalizeStopping. */
  method FinalizeStopping(host: Host, state: MountState) returns (result: StopResult, ghost seen: World)
    requires host.Inv() && host.record == Some(state) && state.phase == Stopping
    requires host.runtime.unit.NotFound?
    modifies host.runtime, host`record, host`past
    ensures host.Inv() && Evolves(old(host.View()).(record := host.record), host.View())
    ensures Evolves(old(host.View()), seen)
    ensures StopOutcome(old(host.record), host.View(), state.stagingTarget, result, seen)
    ensures Stops(old(host.past), host.past, old(host.record), seen)
    ensures host.settled && result == Cleaned ==> Quiet(seen)
    ensures host.settled && ValidMountState(state) && ArtifactsDead(old(host.View()), state.stagingTarget) ==>
      result == Cleaned
  {
    hide ValidMountArgs, RemotePath.CanonicalRemoteRoot, RemotePath.CanonicalStagingTarget, Host.Inv, Evolves,
      NoSupervisor, CleansUp, Stops, ArtifactsDead, ArtifactsGone;
    ghost var start, begun := host.View(), host.past;
    var removed: bool;
    removed, seen := RemoveStoppingArtifacts(host, state);
    ghost var atRemoval, between := host.View(), host.past;
    NotRunningStays(start, seen);
    AbsenceEvolves(start, atRemoval);
    result := Preserved;
    EvolvesReflexive(atRemoval);
    StopsNothing(between, between, host.record, seen);
    if removed {
      OnlyRecordIsLeft(seen, atRemoval, state.stagingTarget);
      result := FinalizeAfterArtifacts(host, state, seen);
    }
    EvolvesThrough(start, atRemoval, host.View());
    StopsAfterCleanup(begun, between, host.past, Some(state), seen);
  }

  lemma UnambiguousEvolves(a: World, b: World, state: MountState)
    requires Unambiguous(a, state) && Evolves(a, b) && !Running(b.unit)
    requires Shrinks(a.processStates, b.processStates)
    requires b.unit.Loaded? ==> b.unit.attempt == state.attemptID
    requires KnownIdent(a, state)
    ensures Unambiguous(b, state)
  {
  }

  /** With no supervisor left, an unambiguous process-state file names a dead process. */
  lemma NoSupervisorMeansDead(w: World, state: MountState)
    requires Unambiguous(w, state) && !w.lost && NoSupervisor(w) && state.stagingTarget !in w.mounts
    ensures ArtifactsDead(w, state.stagingTarget)
  {
  }

  /** Unmount, lazily if needed (mount_stop.go:264-281). */
  method UnmountTarget(host: Host, target: Target)
    requires host.Inv()
    modifies host.runtime, host`past
    ensures host.Moved() && CleansUp(old(host.past), host.past, host.record)
    ensures host.settled ==> host.View() == old(host.View()).(mounts := old(host.runtime.mounts) - {target})
  {
    hide Persists, OnlySurvivors, Shrinks, NoSupervisor, Host.Inv;
    EvolvesComposes();
    var mounted := host.IsMountPoint(target);
    if mounted == Known(true) {
      var unmounted := host.KernelUnmount(target, false);
      mounted := host.IsMountPoint(target);
      if mounted == Known(true) {
        unmounted := host.KernelUnmount(target, true);
      }
    }
  }

  /** Stop the unit if it runs, unload it otherwise (mount_stop.go:254-262). */
  method StopService(host: Host, service: Option<UnitState>)
    requires host.Inv()
    modifies host.runtime, host`past
    ensures host.Moved() && CleansUp(old(host.past), host.past, host.record)
    ensures host.settled && Live(service) ==> StopEffect(old(host.View()), host.View())
    ensures host.settled && !Live(service) && !Running(old(host.runtime.unit)) ==>
      ((service.Some? <==> old(host.runtime.unit).Loaded?) ==>
         host.View() == old(host.View()).(unit := NotFound))
  {
    if Live(service) {
      var stopped := host.StopUnit();
    } else if service.Some? {
      var reset := host.ResetFailed();
    } else {
      host.Interfere();
    }
  }

  /** Kill the owned process if it is still alive (mount_stop.go:283-290). */
  method KillIfAlive(host: Host, owned: MountState)
    requires host.Inv() && KnownIdent(host.View(), owned)
    requires owned.pid > 0 ==> owned.pidStartTime > 0
    requires owned.pid > 0 && Alive(host.View(), RecordedIdent(owned)) ==> RecordedIdent(owned) in host.past.accepted
    modifies host.runtime, host`past
    ensures host.Moved() && CleansUp(old(host.past), host.past, host.record)
    ensures host.settled ==> host.View() == old(host.View()).(procs :=
      if owned.pid > 0 && Alive(old(host.View()), RecordedIdent(owned))
      then old(host.runtime.procs) - {RecordedIdent(owned).pid} else old(host.runtime.procs))
  {
    hide Shrinks, NoSupervisor, Host.Inv;
    EvolvesComposes();
    var alive := StoppingPIDAlive(host, owned);
    if alive == Known(true) {
      hide Persists, OnlySurvivors;
      var killed := KillStoppingPID(host, owned);
    }
  }

  /** How a settled host looks after a pass that could not finish: ready for one that can. */
  predicate ReadyToFinish(w: World, state: MountState) {
    w.record == Some(state) && !Running(w.unit) && Unambiguous(w, state)
  }

  /** What the clean-up commands do on a settled host, once the unit has been dealt with. */
  function Released(w: World, owned: MountState): World {
    w.(mounts := w.mounts - {owned.stagingTarget},
       procs := if owned.pid > 0 && Alive(w, RecordedIdent(owned)) then w.procs - {RecordedIdent(owned).pid}
                else w.procs)
  }

  /** What RunCleanup leaves on a settled host. */
  predicate CleanedUp(w: World, stopped: World, b: World, owned: MountState, service: Option<UnitState>) {
    if Live(service) then StopEffect(w, stopped) && b == Released(stopped, owned)
    else !Running(w.unit) && (service.Some? <==> w.unit.Loaded?) ==> b == Released(w.(unit := NotFound), owned)
  }

  /** runDrain, then stop or unload the unit (mount_stop.go:249-262). */
  method DrainAndStop(host: Host, service: Option<UnitState>)
    requires host.Inv()
    modifies host.runtime, host`past
    ensures host.Moved() && CleansUp(old(host.past), host.past, host.record)
    ensures host.past.drains > old(host.past).drains
    ensures host.settled && Live(service) ==> StopEffect(old(host.View()), host.View())
    ensures host.settled && !Live(service) && !Running(old(host.runtime.unit)) ==>
      ((service.Some? <==> old(host.runtime.unit).Loaded?) ==>
         host.View() == old(host.View()).(unit := NotFound))
  {
    hide Evolves, Host.Inv, StopEffect;
    ghost var start := host.View();
    var drained := host.Drain();
    ghost var atDrain := host.View();
    StopService(host, service);
    EvolvesTwice(start, atDrain, host.View());
  }

  /** Unmount and kill (mount_stop.go:264-290). */
  method UnmountAndKill(host: Host, owned: MountState)
    requires host.Inv() && KnownIdent(host.View(), owned)
    requires owned.pid > 0 ==> owned.pidStartTime > 0
    requires owned.pid > 0 && Alive(host.View(), RecordedIdent(owned)) ==> RecordedIdent(owned) in host.past.accepted
    modifies host.runtime, host`past
    ensures host.Moved() && CleansUp(old(host.past), host.past, host.record)
    ensures host.settled ==> host.View() == Released(old(host.View()), owned)
  {
    hide Shrinks, NoSupervisor, Host.Inv;
    ghost var start, begun := host.View(), host.past;
    UnmountTarget(host, owned.stagingTarget);
    ghost var atUnmount, between := host.View(), host.past;
    if owned.pid > 0 && Alive(atUnmount, RecordedIdent(owned)) {
      IdentityPersists(start, atUnmount, RecordedIdent(owned));
    }
    hide Persists, OnlySurvivors;
    KillIfAlive(host, owned);
    EvolvesTwice(start, atUnmount, host.View());
    CleansUpTwice(begun, between, host.past, host.record);
  }

  /** Drain, stop or unload, unmount and kill (mount_stop.go:249-290). */
  method RunCleanup(host: Host, owned: MountState, service: Option<UnitState>) returns (ghost stopped: World)
    requires host.Inv() && KnownIdent(host.View(), owned)
    requires owned.pid > 0 ==> owned.pidStartTime > 0
    requires owned.pid > 0 && Alive(host.View(), RecordedIdent(owned)) ==> RecordedIdent(owned) in host.past.accepted
    modifies host.runtime, host`past
    ensures host.Moved() && CleansUp(old(host.past), host.past, host.record)
    ensures host.past.drains > old(host.past).drains
    ensures host.settled ==> CleanedUp(old(host.View()), stopped, host.View(), owned, service)
  {
    hide Shrinks, NoSupervisor, StopEffect, Host.Inv;
    ghost var start, begun := host.View(), host.past;
    DrainAndStop(host, service);
    stopped := host.View();
    ghost var between := host.past;
    if owned.pid > 0 && Alive(stopped, RecordedIdent(owned)) {
      IdentityPersists(start, stopped, RecordedIdent(owned));
    }
    hide Persists, OnlySurvivors;
    UnmountAndKill(host, owned);
    EvolvesTwice(start, stopped, host.View());
    CleansUpTwice(begun, between, host.past, host.record);
  }

  /** What one clean-up pass achieves on a settled, unambiguous host. */
  lemma ReleasedIsClean(w: World, b: World, state: MountState, process: Option<VerifiedProcess>)
    requires Consistent(w) && !w.lost && Unambiguous(w, state) && KnownIdent(w, state)
    requires process.Some? ==> LiveSupervisor(w, process.value)
    requires process.None? ==> NoSupervisor(w)
    requires process.None? && state.pid > 0 ==> !Alive(w, RecordedIdent(state))
    requires b == Released(w.(unit := NotFound), Owning(state, process))
    ensures ResourcesAbsent(b, Owning(state, process))
    ensures ArtifactsDead(b, state.stagingTarget)
  {
    assert NoSupervisor(b);
  }

  /** After a stop that left the unit loaded or a late survivor, the host is ready for the next pass. */
  lemma StoppedIsReady(w: World, stopped: World, b: World, state: MountState, owned: MountState)
    requires Unambiguous(w, state) && KnownIdent(w, state) && w.record == Some(state)
    requires w.unit.Loaded? ==> w.unit.attempt == state.attemptID
    requires StopEffect(w, stopped) && b == Released(stopped, owned)
    ensures ReadyToFinish(b, state)
  {
  }

  lemma ReadyEvolves(a: World, b: World, state: MountState)
    requires ReadyToFinish(a, state) && Evolves(a, b) && OnlyRemoved(a, b) && Consistent(b) && KnownIdent(a, state)
    ensures ReadyToFinish(b, state)
  {
    UnambiguousEvolves(a, b, state);
  }

  /** Remove the artifacts and the record if every resource is absent (mount_stop.go:292-308). */
  method FinishIfTerminal(host: Host, state: MountState, owned: MountState)
    returns (result: StopResult, ghost seen: World)
    requires host.Inv() && host.record == Some(state) && state.phase == Stopping
    requires KnownIdent(host.View(), owned) && RuntimePathsMatch(owned)
    requires owned.stagingTarget == state.stagingTarget && owned.attemptID == state.attemptID
    requires owned.envPath == state.envPath
    modifies host.runtime, host`record, host`past
    ensures host.Inv() && Evolves(old(host.View()).(record := host.record), host.View())
    ensures Evolves(old(host.View()), seen)
    ensures StopOutcome(old(host.record), host.View(), state.stagingTarget, result, seen)
    ensures Stops(old(host.past), host.past, old(host.record), seen)
    ensures host.record != old(host.record) && owned.pid > 0 && owned.pidStartTime > 0 ==>
      (OnlyOne(old(host.View()), RecordedIdent(owned)) ==> Quiet(seen))
    ensures host.settled && result == Cleaned ==> Quiet(seen)
    ensures host.settled && ResourcesAbsent(old(host.View()), owned) ==>
      (ArtifactsDead(old(host.View()), state.stagingTarget) ==> result == Cleaned)
    ensures host.settled && result != Cleaned ==>
      host.record == old(host.record) && OnlyRemoved(old(host.View()), host.View())
  {
    hide NoSupervisor, Host.Inv, Evolves, CleansUp, Stops, ArtifactsGone, OnlyOne, Alive;
    ghost var start, begun := host.View(), host.past;
    var terminal := StoppingResourcesAbsent(host, owned);
    var finished := terminal == Known(true);
    ghost var atAbsent, p := host.View(), host.past;
    seen := atAbsent;
    StopsNothing(p, p, host.record, seen);
    OwnerIsDead(start, atAbsent, owned);
    if finished {
      finished, seen := RemoveStoppingArtifacts(host, owned);
      EvolvesTwice(start, atAbsent, seen);
      QuietStays(atAbsent, seen);
      AbsenceEvolves(atAbsent, host.View());
      EvolvesTwice(start, atAbsent, host.View());
    }
    ghost var removed, q := host.View(), host.past;
    StopsNothing(q, q, host.record, seen);
    result := Preserved;
    EvolvesReflexive(removed);
    if finished {
      OnlyRecordIsLeft(seen, removed, state.stagingTarget);
      result := FinalizeAfterArtifacts(host, state, seen);
    }
    StopsAfterCleanup(p, q, host.past, Some(state), seen) by {
      NothingCleanedUp(p, p, Some(state));
    }
    StopsAfterCleanup(begun, p, host.past, Some(state), seen);
    EvolvesThrough(start, removed, host.View());
  }

  /** The only supervisor of a unit that is gone, once it is dead. */
  lemma OwnerIsDead(a: World, b: World, owned: MountState)
    requires Evolves(a, b)
    ensures OnlyOne(a, RecordedIdent(owned)) && !Alive(b, RecordedIdent(owned)) && b.unit.NotFound? ==> Quiet(b)
  {
    if OnlyOne(a, RecordedIdent(owned)) && !Alive(b, RecordedIdent(owned)) {
      OnlyOneStays(a, b, RecordedIdent(owned));
      OnlyOneDies(b, RecordedIdent(owned));
    }
  }

  /** What the observations before the clean-up have established about the process that it may kill. */
  predicate Accounted(w: World, past: Past, state: MountState, process: Option<VerifiedProcess>) {
    if process.Some? then
      && process.value.pid > 0 && process.value.pidStartTime > 0 && IdentOf(process.value) in past.accepted
      && OnlyOne(w, IdentOf(process.value))
    else state.pid > 0 ==> !Alive(w, RecordedIdent(state))
  }

  /** The same on a settled host, where nothing has moved since. */
  predicate Settled(w: World, process: Option<VerifiedProcess>, service: Option<UnitState>) {
    && (if process.Some? then LiveSupervisor(w, process.value) else !Running(w.unit) ==> NoSupervisor(w))
    && service == if w.unit.Loaded? then Some(w.unit.state) else None
  }

  lemma CleanupProgress(
    w: World, past: Past, stopped: World, b: World, state: MountState, process: Option<VerifiedProcess>,
    service: Option<UnitState>
  )
    requires Consistent(w) && !w.lost && Unambiguous(w, state) && ValidMountState(state) && w.record == Some(state)
    requires Accounted(w, past, state, process)
    requires Settled(w, process, service)
    requires CleanedUp(w, stopped, b, Owning(state, process), service)
    ensures if Live(service) then ReadyToFinish(b, state)
            else ResourcesAbsent(b, Owning(state, process)) && ArtifactsDead(b, state.stagingTarget)
  {
    if Live(service) {
      StoppedIsReady(w, stopped, b, state, Owning(state, process));
    } else {
      ReleasedIsClean(w, b, state, process);
    }
  }

  lemma OwningIsSound(w: World, past: Past, state: MountState, process: Option<VerifiedProcess>)
    requires Consistent(w) && w.record == Some(state)
    requires ValidMountState(state) && state.phase == Stopping && Accounted(w, past, state, process)
    requires forall id | id in past.accepted :: id in w.born
    ensures var owned := Owning(state, process);
      && RuntimePathsMatch(owned) && KnownIdent(w, owned) && (owned.pid > 0 ==> owned.pidStartTime > 0)
      && (owned.pid > 0 && Alive(w, RecordedIdent(owned)) ==> RecordedIdent(owned) in past.accepted)
      && owned.stagingTarget == state.stagingTarget && owned.attemptID == state.attemptID
      && owned.envPath == state.envPath
  {
    hide ValidMountArgs, RemotePath.CanonicalRemoteRoot, RemotePath.CanonicalStagingTarget;
  }

  lemma StopKeepsReady(a: World, b: World, state: MountState)
    requires ReadyToFinish(a, state) && Consistent(a) && Evolves(a.(record := b.record), b) && Consistent(b)
    requires b.record == Some(state) && OnlyRemoved(a, b)
    ensures ReadyToFinish(b, state)
  {
    assert a.(record := b.record) == a;
    ReadyEvolves(a, b, state);
  }

  lemma AccountedEvolves(a: World, b: World, past: Past, state: MountState, process: Option<VerifiedProcess>)
    requires Accounted(a, past, state, process) && Evolves(a, b) && KnownIdent(a, state)
    ensures Accounted(b, past, state, process) && KnownIdent(b, state)
    ensures a.unit.NotFound? ==> b.unit.NotFound?
  {
    if process.Some? {
      OnlyOneStays(a, b, IdentOf(process.value));
    } else if state.pid > 0 {
      DeadStaysDead(a, b, state);
    }
  }

  /** What a stop converges from: a valid stopping record that owns what is on the host beyond doubt. */
  predicate Stoppable(w: World, state: MountState) {
    w.record == Some(state) && ValidMountState(state) && state.phase == Stopping && Unambiguous(w, state)
  }

  /** The owned part of Reconcile, from the drain on (mount_stop.go:249-308). */
  method CleanUpOwned(host: Host, state: MountState, process: Option<VerifiedProcess>, service: Option<UnitState>)
    returns (result: StopResult, ghost seen: World)
    requires host.Inv() && host.record == Some(state) && state.phase == Stopping && ValidMountState(state)
    requires Accounted(host.View(), host.past, state, process)
    requires host.settled ==> Settled(host.View(), process, service)
    modifies host.runtime, host`record, host`past
    ensures host.Inv() && Evolves(old(host.View()).(record := host.record), host.View())
    ensures Evolves(old(host.View()), seen)
    ensures StopOutcome(old(host.record), host.View(), state.stagingTarget, result, seen)
    ensures Stops(old(host.past), host.past, old(host.record), seen)
    ensures host.record != old(host.record) && process.Some? ==> Quiet(seen)
    ensures host.settled && result == Cleaned ==> Quiet(seen)
    ensures host.settled && Unambiguous(old(host.View()), state) ==>
      result == Cleaned || (Live(service) && ReadyToFinish(host.View(), state))
  {
    hide Host.Inv, ValidMountState, Unambiguous, StopEffect, Consistent, Evolves, NoSupervisor, CleanedUp,
      ResourcesAbsent, ArtifactsDead, Settled, Accounted, ReadyToFinish, Owning, RuntimePathsMatch, Stops, CleansUp,
      StopOutcome, Alive, ValidTransition, OnlyRemoved, OnlyOne, Quiet;
    ghost var start, begun := host.View(), host.past;
    var owned := Owning(state, process);
    host.Sound();
    OwningIsSound(start, host.past, state, process);
    ghost var stopped := RunCleanup(host, owned, service);
    ghost var released, between := host.View(), host.past;
    host.Sound();
    OwnerIsKnown(start, released, begun, state, process);
    KnownIdentEvolves(start, released, owned);
    result, seen := FinishIfTerminal(host, state, owned);
    host.Sound();
    EvolvesTwice(start, released, seen);
    EvolvesThrough(start, released, host.View());
    StopsAfterCleanup(begun, between, host.past, Some(state), seen);
    if host.settled && Unambiguous(start, state) {
      CleanupProgress(start, begun, stopped, released, state, process, service);
      if Live(service) && result != Cleaned {
        StopKeepsReady(released, host.View(), state);
      }
    }
  }

  lemma OwnerIsKnown(a: World, b: World, past: Past, state: MountState, process: Option<VerifiedProcess>)
    requires Accounted(a, past, state, process) && Evolves(a, b)
    ensures var owned := Owning(state, process);
      process.Some? ==> owned.pid > 0 && owned.pidStartTime > 0 && OnlyOne(b, RecordedIdent(owned))
  {
    if process.Some? {
      OnlyOneStays(a, b, IdentOf(process.value));
    }
  }

  /** A pass that begins like this finds every process that is or will be there. */
  predicate PassIsSure(w: World, state: MountState) {
    NoneToCome(w) || state.pid > 0
  }

  /** So once it has found none, none is left. */
  lemma NoneIsLeft(a: World, b: World, state: MountState)
    requires Consistent(b) && b.record == Some(state) && Evolves(a, b) && PassIsSure(a, state)
    requires state.pid > 0 ==> !Alive(b, RecordedIdent(state))
    requires !Running(a.unit) ==> NoSupervisor(b)
    ensures NoneLeft(b)
  {
    if state.pid > 0 {
      OnlyOneDies(b, RecordedIdent(state));
    } else {
      NoneLeftStays(a, b);
    }
  }

  /**
    * The answers of a pass that finds no process: none is recorded alive in p, the unit does not run in u or
    * has no main process yet, after its stop it is gone in s, the target is read as unmounted in m, and nobody
    * is recorded alive in d, before the record goes.
    */
  predicate FindsNobody(a: World, p: World, u: World, s: World, m: World, d: World, state: MountState) {
    var target := state.stagingTarget;
    && EnvStep(a, p) && NamesNobody(p, target) && (state.pid > 0 ==> !Alive(p, RecordedIdent(state)))
    && EnvStep(p, u) && (Running(u.unit) ==> StartupPathsOf(state) && UnitWithoutMain(u.unit, state.attemptID))
    && (EnvStep(u, s) || StopEffect(u, s)) && s.unit.NotFound?
    && EnvStep(s, m) && target !in m.mounts
    && EnvStep(m, d) && NamesNobody(d, target)
  }

  /** Is the target of every such pass unmounted in the end? */
  ghost predicate NothingIsOverlooked(a: World, state: MountState) {
    forall p, u, s, m, d | FindsNobody(a, p, u, s, m, d, state) :: state.stagingTarget !in d.mounts
  }

  /**
    * Exactly if no supervisor can come any more as the pass begins, or the record names it. Otherwise one
    * survives the unit unseen, mounts the target after the mount was read, and dies before its file is read.
    */
  lemma NothingIsOverlookedIff(a: World, state: MountState)
    requires Consistent(a) && !a.lost
    requires a.record == Some(state) || (state.pid <= 0 && RecordFor(a, state.stagingTarget))
    ensures NothingIsOverlooked(a, state) <==> PassIsSure(a, state)
  {
    if PassIsSure(a, state) {
      forall p, u, s, m, d | FindsNobody(a, p, u, s, m, d, state) ensures state.stagingTarget !in d.mounts {
        NobodyIsLeft(a, p, u, s, m, d, state);
      }
    } else {
      var p, u, m, d := Overlooking(a, state);
    }
  }

  lemma NobodyIsLeft(a: World, p: World, u: World, s: World, m: World, d: World, state: MountState)
    requires Consistent(a) && !a.lost && PassIsSure(a, state) && FindsNobody(a, p, u, s, m, d, state)
    requires a.record == Some(state) || (state.pid <= 0 && RecordFor(a, state.stagingTarget))
    ensures state.stagingTarget !in d.mounts
  {
    hide OnlySurvivors, Persists;
    EnvStepKeepsConsistent(a, p);
    EnvStepEvolves(a, p);
    NobodyIsLeftAt(a, p, state);
    EnvStepKeepsConsistent(p, u);
    EnvStepEvolves(p, u);
    if StopEffect(u, s) {
      StopEffectIsAStep(u, s);
    }
    EnvStepKeepsConsistent(u, s);
    EnvStepEvolves(u, s);
    NoneLeftStays(p, u);
    NoneLeftStays(u, s);
    EnvStepKeepsConsistent(s, m);
    EnvStepEvolves(s, m);
    QuietStays(s, m);
    EnvStepEvolves(m, d);
  }

  lemma NobodyIsLeftAt(a: World, p: World, state: MountState)
    requires Consistent(a) && Consistent(p) && EnvStep(a, p) && Evolves(a, p) && PassIsSure(a, state)
    requires NamesNobody(p, state.stagingTarget) && (state.pid > 0 ==> !Alive(p, RecordedIdent(state)))
    requires a.record == Some(state) || (state.pid <= 0 && RecordFor(a, state.stagingTarget))
    ensures NoneLeft(p)
  {
    if state.pid > 0 {
      OnlyOneDies(p, RecordedIdent(state));
    } else if Running(a.unit) {
      NoneLeftStays(a, p);
    }
  }

  /** The schedule: the file is not there yet in p, and in u the unit is gone and its supervisor is not. */
  lemma Overlooking(a: World, state: MountState) returns (p: World, u: World, m: World, d: World)
    requires Consistent(a) && !a.lost && RecordFor(a, state.stagingTarget) && !PassIsSure(a, state)
    ensures FindsNobody(a, p, u, u, m, d, state) && state.stagingTarget in d.mounts
  {
    var target := state.stagingTarget;
    p := a.(processStates := a.processStates - {target});
    FileMayVanish(a, target);
    var id := SurvivorOf(p);
    u := Survivor(p, id);
    m := u.(mounts := u.mounts - {target});
    d := MountedAndGone(m, target);
    hide EnvStep, Consistent;
    EnvStepKeepsConsistent(p, u);
    EnvStepReflexive(u);
    MountMayVanish(u, target);
    MountedAndGoneIsAStep(m, target);
    SurvivorsAreNamed(m, target);
  }

  lemma FileMayVanish(w: World, target: Target)
    requires Consistent(w) && Running(w.unit)
    ensures var b := w.(processStates := w.processStates - {target}); EnvStep(w, b) && Consistent(b)
  {
  }

  lemma MountMayVanish(w: World, target: Target)
    requires Consistent(w)
    ensures var b := w.(mounts := w.mounts - {target}); EnvStep(w, b) && Consistent(b)
  {
  }

  /** The supervisor of a service that has just been started, once it has written its file. */
  function Launched(state: MountState, id: Ident): World {
    Survivor(JustStarted(state), id).(unit := Loaded(UnitActivating, state.attemptID, true, 0))
  }

  /** What the removal of every artifact leaves. */
  function WithoutArtifacts(w: World, target: Target): World {
    w.(processStates := w.processStates - {target}, sockets := w.sockets - {target}, startup := {})
  }

  /**
    * So there are stops, and clean-ups of a failed candidate, that fail although every step succeeds. The service
    * has just been started and no process is recorded; its supervisor writes its file after that and outlives
    * the stop of the unit; the target is read as unmounted; the supervisor mounts it and dies, and is read as
    * dead. The record goes, be it stopping or starting, and the mount stays.
    */
  lemma OverlookedPass(state: MountState, id: Ident)
    requires ValidMountState(state) && StartupPathsOf(state) && state.pid == 0
    ensures var a, u, target := JustStarted(state), Launched(state, id), state.stagingTarget;
      var s := u.(unit := NotFound);
      var d := MountedAndGone(s, target);
      && Consistent(a) && FindsNobody(a, a, u, s, s, d, state) && Running(u.unit) && StopEffect(u, s)
      && target in d.mounts && SafeDeletion(Deletion(WithoutArtifacts(d, target), s))
  {
    hide ValidMountState;
    var a, u, target := JustStarted(state), Launched(state, id), state.stagingTarget;
    EnvStepReflexive(a);
    assert EnvStep(a, u);
    EnvStepKeepsConsistent(a, u);
    var s := u.(unit := NotFound);
    StopEffectEvolves(u, s);
    EnvStepReflexive(s);
    MountedAndGoneIsAStep(s, target);
  }

  datatype Owner = Owner(service: Option<UnitState>, process: Option<VerifiedProcess>)

  /** Query the unit and, if it is loaded, check that its description names the attempt. */
  method ObserveService(host: Host, state: MountState) returns (answer: Answer<Option<UnitState>>)
    requires host.Inv()
    modifies host.runtime
    ensures host.Observed()
    ensures answer == Known(None) ==> host.runtime.unit.NotFound?
    ensures host.settled && answer.Known? ==>
      answer.value == if host.runtime.unit.Loaded? then Some(host.runtime.unit.state) else None
    ensures host.settled && (old(host.runtime.unit).Loaded? ==> old(host.runtime.unit).attempt == state.attemptID) ==>
      answer.Known?
  {
    hide Evolves, Host.Inv;
    ghost var start := host.View();
    answer := host.QueryUnit();
    if answer.Known? && answer.value.Some? {
      ghost var atUnit := host.View();
      var described := VerifyUnitDescription(host, state);
      EvolvesTwice(start, atUnit, host.View());
      if !described {
        return Unknown;
      }
    }
  }

  /** The ownership checks that precede every destructive step (mount_stop.go:60-76 and 208-224). */
  method VerifyOwner(host: Host, state: MountState) returns (answer: Answer<Owner>)
    requires host.Inv() && host.record == Some(state)
    modifies host.runtime, host`past
    ensures host.Observed() && OnlyAccepts(old(host.past), host.past)
    ensures KnownIdent(host.View(), state)
    ensures answer.Known? ==>
      && Accounted(host.View(), host.past, state, answer.value.process)
      && (answer.value.service.None? ==> host.runtime.unit.NotFound?)
      && (host.settled ==> Settled(host.View(), answer.value.process, answer.value.service))
    ensures answer.Known? && answer.value.process.None? && PassIsSure(old(host.View()), state) ==>
      NoneLeft(host.View())
    ensures host.settled && answer.Known? && answer.value.process.Some? ==>
      Trusted(host.View(), state, answer.value.process.value)
    ensures host.settled && Unambiguous(old(host.View()), state) ==> answer.Known?
  {
    hide Host.Inv, Evolves, Unambiguous, NoSupervisor, LiveSupervisor, Alive, Trusted, OnlyAccepts, OnlyOne;
    ghost var start := host.View();
    host.Sound();
    RecordIsKnown(start, state);
    answer := Unknown;
    var process := ObserveStopProcess(host, state);
    ghost var atProcess, first := host.View(), host.past;
    KnownIdentEvolves(start, atProcess, state);
    if process.Known? {
      answer := VerifyOwnerService(host, state, process.value);
      EvolvesTwice(start, atProcess, host.View());
      KnownIdentEvolves(atProcess, host.View(), state);
      OnlyAcceptsTwice(old(host.past), first, host.past);
      NotRunningStays(start, atProcess);
      if answer.Known? && answer.value.process.None? {
        QuietStays(atProcess, host.View());
        if PassIsSure(start, state) {
          host.Sound();
          NoneIsLeft(start, host.View(), state);
        }
      }
    }
  }

  /** The unit and its main process, after the process that the records name. */
  method VerifyOwnerService(host: Host, state: MountState, process: Option<VerifiedProcess>)
    returns (answer: Answer<Owner>)
    requires host.Inv() && KnownIdent(host.View(), state) && Accounted(host.View(), host.past, state, process)
    requires host.settled ==>
      if process.Some? then LiveSupervisor(host.View(), process.value) && Trusted(host.View(), state, process.value)
      else !Running(host.runtime.unit) ==> NoSupervisor(host.View())
    modifies host.runtime, host`past
    ensures host.Observed() && OnlyAccepts(old(host.past), host.past)
    ensures answer.Known? ==>
      && Accounted(host.View(), host.past, state, answer.value.process)
      && (answer.value.service.None? ==> host.runtime.unit.NotFound?)
      && (host.settled ==> Settled(host.View(), answer.value.process, answer.value.service))
      && (answer.value.process.None? ==> process.None?)
    ensures host.settled && answer.Known? && answer.value.process.Some? ==>
      Trusted(host.View(), state, answer.value.process.value)
    ensures host.settled && Unambiguous(old(host.View()), state) ==> answer.Known?
  {
    hide Host.Inv, Evolves, Unambiguous, NoSupervisor, LiveSupervisor, Alive, Attributed, MainAttributed,
      OnlyAccepts, OnlyOne, Trusted;
    ghost var start := host.View();
    UnitIsAttempts(start, state);
    NothingAccepted(host.past);
    answer := Unknown;
    var service := ObserveService(host, state);
    ghost var atUnit := host.View();
    KnownIdentEvolves(start, atUnit, state);
    AccountedEvolves(start, atUnit, host.past, state, process);
    if service.Known? {
      var owner := VerifyStopServiceProcess(host, state, service.value, process);
      EvolvesTwice(start, atUnit, host.View());
      AbsenceEvolves(atUnit, host.View());
      if owner.Known? {
        if owner.value.None? && state.pid > 0 {
          DeadStaysDead(atUnit, host.View(), state);
        }
        answer := Known(Owner(service.value, owner.value));
      }
    }
  }

  lemma UnitIsAttempts(w: World, state: MountState)
    ensures Unambiguous(w, state) && w.unit.Loaded? ==> w.unit.attempt == state.attemptID
  {
  }

  lemma RecordIsKnown(w: World, state: MountState)
    requires Consistent(w) && w.record == Some(state)
    ensures KnownIdent(w, state) && RecordFor(w, state.stagingTarget)
  {
  }

  lemma KnownIdentEvolves(a: World, b: World, state: MountState)
    requires KnownIdent(a, state) && Evolves(a, b)
    ensures KnownIdent(b, state)
  {
  }

  lemma AbsenceEvolves(a: World, b: World)
    requires Evolves(a, b)
    ensures a.unit.NotFound? ==> b.unit.NotFound?
  {
  }

  lemma OnlyAcceptsTwice(p: Past, q: Past, r: Past)
    requires OnlyAccepts(p, q) && OnlyAccepts(q, r)
    ensures OnlyAccepts(p, r)
  {
  }

  /** resetFailedUnit and the query that confirms it. */
  method UnloadUnit(host: Host) returns (unloaded: bool)
    requires host.Inv()
    modifies host.runtime, host`past
    ensures host.Moved() && CleansUp(old(host.past), host.past, host.record)
    ensures unloaded ==> host.runtime.unit.NotFound?
    ensures host.settled && !Running(old(host.runtime.unit)) ==>
      unloaded && host.View() == old(host.View()).(unit := NotFound)
  {
    hide Evolves, Host.Inv;
    ghost var start := host.View();
    var reset := host.ResetFailed();
    if !reset {
      return false;
    }
    ghost var atReset := host.View();
    var service := host.QueryUnit();
    EvolvesTwice(start, atReset, host.View());
    unloaded := service == Known(None);
  }

  /** No process, no mount and no running unit: unload the unit and delete the record (mount_stop.go:233-247). */
  method FinishDead(host: Host, state: MountState, service: Option<UnitState>)
    returns (result: StopResult, ghost seen: World)
    requires host.Inv() && host.record == Some(state) && state.phase == Stopping && ValidMountState(state)
    requires service.None? ==> host.runtime.unit.NotFound?
    modifies host.runtime, host`record, host`past
    ensures host.Inv() && Evolves(old(host.View()).(record := host.record), host.View())
    ensures Evolves(old(host.View()), seen)
    ensures StopOutcome(old(host.record), host.View(), state.stagingTarget, result, seen)
    ensures Stops(old(host.past), host.past, old(host.record), seen)
    ensures host.settled && result == Cleaned ==> Quiet(seen)
    ensures host.settled && !Running(old(host.runtime.unit)) && ArtifactsDead(old(host.View()), state.stagingTarget) ==>
      result == Cleaned
  {
    hide Evolves, NoSupervisor, Host.Inv, ValidMountState, GoneSince, CleansUp, Stops;
    ghost var start, begun := host.View(), host.past;
    EvolvesReflexive(start);
    NothingCleanedUp(begun, begun, host.record);
    var unloaded := true;
    if service.Some? {
      unloaded := UnloadUnit(host);
    }
    ghost var atUnload, between := host.View(), host.past;
    result, seen := Preserved, atUnload;
    EvolvesReflexive(atUnload);
    StopsNothing(between, between, host.record, seen);
    if unloaded {
      result, seen := FinalizeStopping(host, state);
    }
    EvolvesTwice(start, atUnload, seen);
    EvolvesThrough(start, atUnload, host.View());
    StopsAfterCleanup(begun, between, host.past, Some(state), seen);
  }

  lemma PreservedOutcome(before: World, after: World, target: Target, seen: World)
    requires after.record == before.record
    ensures StopOutcome(before.record, after, target, Preserved, seen)
  {
  }

  lemma DeletedIsStopped(
    before: Option<MountState>, after: World, target: Target, result: StopResult, seen: World
  )
    requires StopOutcome(before, after, target, result, seen)
    ensures after.record != before ==> !Running(seen.unit)
  {
  }

  lemma LiveUnitRuns(w: World, owner: Owner)
    ensures Live(owner.service) && Settled(w, owner.process, owner.service) ==> Running(w.unit)
  {
  }

  /** One pass cleans up, unless the unit was still running: then the next pass can. */
  predicate Progress(before: World, after: World, state: MountState, result: StopResult) {
    result == Cleaned || (Running(before.unit) && ReadyToFinish(after, state))
  }

  /** Finish if nothing is left to clean up, and clean up otherwise (mount_stop.go:232-308). */
  method CleanUpVerified(host: Host, state: MountState, owner: Owner, mounted: bool)
    returns (result: StopResult, ghost seen: World)
    requires host.Inv() && host.record == Some(state) && state.phase == Stopping && ValidMountState(state)
    requires Accounted(host.View(), host.past, state, owner.process)
    requires owner.service.None? ==> host.runtime.unit.NotFound?
    requires host.settled ==>
      && Settled(host.View(), owner.process, owner.service)
      && mounted == (state.stagingTarget in host.runtime.mounts)
    modifies host.runtime, host`record, host`past
    ensures host.Inv() && Evolves(old(host.View()).(record := host.record), host.View())
    ensures Evolves(old(host.View()), seen)
    ensures StopOutcome(old(host.record), host.View(), state.stagingTarget, result, seen)
    ensures Stops(old(host.past), host.past, old(host.record), seen)
    ensures host.record != old(host.record) && owner.process.Some? ==> Quiet(seen)
    ensures host.settled && result == Cleaned ==> Quiet(seen)
    ensures host.settled && Unambiguous(old(host.View()), state) ==>
      result == Cleaned || (Live(owner.service) && ReadyToFinish(host.View(), state))
  {
    hide NoSupervisor, Host.Inv, ValidMountState, Unambiguous, Evolves, Consistent, Stops, Accounted,
      StopOutcome, ReadyToFinish, ArtifactsDead, LiveSupervisor, Quiet;
    ghost var start := host.View();
    if owner.process.None? && !mounted && !Live(owner.service) {
      result, seen := FinishDead(host, state, owner.service);
      if host.settled && Unambiguous(start, state) {
        NoSupervisorMeansDead(start, state);
      }
    } else {
      result, seen := CleanUpOwned(host, state, owner.process, owner.service);
    }
  }

  /** The observations of one pass (mount_stop.go:208-232). */
  method ObserveOwned(host: Host, state: MountState) returns (answer: Answer<(Owner, bool)>)
    requires host.Inv() && host.record == Some(state)
    modifies host.runtime, host`past
    ensures host.Observed() && OnlyAccepts(old(host.past), host.past)
    ensures answer.Known? ==>
      && Accounted(host.View(), host.past, state, answer.value.0.process)
      && (answer.value.0.service.None? ==> host.runtime.unit.NotFound?)
      && (host.settled ==>
            && Settled(host.View(), answer.value.0.process, answer.value.0.service)
            && answer.value.1 == (state.stagingTarget in host.runtime.mounts))
    ensures answer.Known? && answer.value.0.process.None? && PassIsSure(old(host.View()), state) ==>
      NoneLeft(host.View())
    ensures host.settled && Unambiguous(old(host.View()), state) ==> answer.Known?
  {
    hide Host.Inv, Unambiguous, Evolves, Consistent, Accounted, LiveSupervisor, NoSupervisor, Settled, OnlyAccepts;
    ghost var start := host.View();
    var owner := VerifyOwner(host, state);
    if owner.Unknown? {
      return Unknown;
    }
    ghost var verified := host.View();
    var mounted := host.IsMountPoint(state.stagingTarget);
    EvolvesTwice(start, verified, host.View());
    if mounted.Unknown? {
      return Unknown;
    }
    AccountedEvolves(verified, host.View(), host.past, state, owner.value.process);
    NoneLeftStays(verified, host.View());
    return Known((owner.value, mounted.value));
  }

  /**
    * mountStopper.Reconcile. Whatever fails or is interrupted, every command runs under the stopping
    * record, and that record is left as it was unless nothing else is left: no unit, no supervisor, no
    * file, and no mount if nothing was alive when the pass last read it, which is certain if the record names a
    * process or no supervisor can come any more as the pass begins; NothingIsOverlookedIff says that this is
    * exact. On a settled host with unambiguous ownership one pass cleans up, or the unit was still running and
    * the next pass can.
    */
  method Reconcile(host: Host, state: MountState) returns (result: StopResult, ghost seen: World)
    requires host.Inv() && host.record == Some(state)
    modifies host.runtime, host`record, host`past
    ensures host.Inv() && Evolves(old(host.View()).(record := host.record), host.View())
    ensures StopOutcome(old(host.record), host.View(), state.stagingTarget, result, seen)
    ensures Stops(old(host.past), host.past, old(host.record), seen)
    ensures host.record != old(host.record) && PassIsSure(old(host.View()), state) ==> Quiet(seen)
    ensures host.settled && result == Cleaned ==> Quiet(seen)
    ensures state.phase != Stopping ==> host.record == old(host.record) && host.past == old(host.past)
    ensures host.settled && Stoppable(old(host.View()), state) ==>
      Progress(old(host.View()), host.View(), state, result)
  {
    hide NoSupervisor, Host.Inv, ValidMountState, Unambiguous, Evolves, Consistent, Stops, Accounted,
      LiveSupervisor, OnlyAccepts, ReadyToFinish, StopOutcome, Settled, Running, CleansUp, Live, Quiet;
    ghost var start, begun := host.View(), host.past;
    seen := start;
    EvolvesReflexive(start);
    StopsNothing(begun, begun, Some(state), seen);
    PreservedOutcome(start, start, state.stagingTarget, seen);
    var cancelled := host.Cancelled();
    result := Preserved;
    if !cancelled && ValidMountState(state) && state.phase == Stopping {
      var observed := ObserveOwned(host, state);
      ghost var atObserve, between := host.View(), host.past;
      StopsNothing(begun, between, Some(state), seen);
      PreservedOutcome(start, atObserve, state.stagingTarget, seen);
      if observed.Known? {
        LiveUnitRuns(atObserve, observed.value.0);
        result, seen := CleanUpVerified(host, state, observed.value.0, observed.value.1);
        NoneLeftStays(atObserve, seen);
        DeletedIsStopped(Some(state), host.View(), state.stagingTarget, result, seen);
        EvolvesThrough(start, atObserve, host.View());
        StopsAfterAccepting(begun, between, host.past, Some(state), seen);
      }
    }
  }

  /** At most two passes clean up a settled host, whatever the passes before them left. */
  method Converge(host: Host, state: MountState) returns (result: StopResult)
    requires host.Inv() && host.settled && Stoppable(host.View(), state)
    modifies host.runtime, host`record, host`past
    ensures host.Inv() && result == Cleaned && Gone(host.View(), state.stagingTarget)
  {
    hide ValidMountState, Unambiguous, Consistent, Evolves, Stops, Gone, GoneSince;
    ghost var seen: World;
    result, seen := Reconcile(host, state);
    if result == Preserved {
      result, seen := Reconcile(host, state);
    }
    GoneSinceQuiet(seen, host.View(), state.stagingTarget);
  }

  lemma StillSure(a: World, b: World, state: MountState, next: MountState)
    requires Evolves(a.(record := b.record), b) && (state.pid > 0 ==> next.pid > 0)
    ensures PassIsSure(a, state) ==> PassIsSure(b, next)
  {
    QuietStays(a.(record := b.record), b);
  }

  predicate ValidIntent(intent: StopIntent) {
    intent != NoIntent
  }

  /** What Stop checks before it observes anything (mount_stop.go:41-58). */
  predicate MayStop(state: MountState, consumers: int, intent: StopIntent) {
    && consumers <= 0
    && (state.phase == Active || state.phase == Starting)
    && ValidMountState(state)
    && ValidIntent(intent)
  }

  /** The stopping record of the same attempt, with this intent. */
  predicate CommitsTo(state: MountState, intent: StopIntent, stopping: MountState) {
    && stopping.phase == Stopping && stopping.stopIntent == intent
    && ValidTransition(Some(state), stopping)
    && stopping.stagingTarget == state.stagingTarget && stopping.attemptID == state.attemptID
    && (state.pid > 0 ==> stopping.pid > 0)
  }

  /** The identity that Stop records is known, and no startup file outlives the paths that name it. */
  lemma StoppingRecordIsSound(
    w: World, past: Past, state: MountState, intent: StopIntent, stopAttempt: AttemptID, now: int,
    process: Option<VerifiedProcess>
  )
    requires Consistent(w) && w.record == Some(state) && ValidMountState(state)
    requires state.phase == Active || state.phase == Starting
    requires Accounted(w, past, state, process)
    requires forall id | id in past.accepted :: id in w.born
    ensures var stopping := StoppingRecord(state, intent, stopAttempt, now, process);
      && KnownIdent(w, stopping) && (stopping.pid > 0 ==> OnlyOne(w, RecordedIdent(stopping)))
      && (state.pid > 0 ==> stopping.pid > 0) && (stopping.envPath.NoPath? ==> w.startup == {})
      && stopping.phase == Stopping && stopping.stopIntent == intent
      && stopping.attemptID == state.attemptID && stopping.stagingTarget == state.stagingTarget
  {
  }

  /** What it takes to commit a stop: clear ownership, and a clock that is not behind the record. */
  predicate Committable(w: World, state: MountState) {
    Unambiguous(w, state) && state.createdAt.At? && state.createdAt.ns <= w.clock
  }

  /** On a settled host the record that Stop commits owns what is on the host as clearly as the one before it. */
  lemma StoppingStaysUnambiguous(
    w: World, state: MountState, intent: StopIntent, stopAttempt: AttemptID, now: int, process: Option<VerifiedProcess>
  )
    requires Unambiguous(w, state) && ValidMountState(state) && (state.phase == Active || state.phase == Starting)
    requires process.Some? ==> LiveSupervisor(w, process.value) && Trusted(w, state, process.value)
    ensures var stopping := StoppingRecord(state, intent, stopAttempt, now, process);
      Unambiguous(w.(record := Some(stopping)), stopping)
  {
    hide ValidMountArgs, RemotePath.CanonicalRemoteRoot, RemotePath.CanonicalStagingTarget;
  }

  lemma StoppingIsCommitted(
    w: World, past: Past, state: MountState, intent: StopIntent, stopAttempt: AttemptID, now: int, owner: Owner
  )
    requires Unambiguous(w, state) && ValidMountState(state) && (state.phase == Active || state.phase == Starting)
    requires ValidIntent(intent) && WellFormedAttempt(stopAttempt) && state.createdAt.ns <= now
    requires Settled(w, owner.process, owner.service)
    requires owner.process.Some? ==> Trusted(w, state, owner.process.value)
    ensures var stopping := StoppingRecord(state, intent, stopAttempt, now, owner.process);
      ValidTransition(Some(state), stopping) && Stoppable(w.(record := Some(stopping)), stopping)
  {
    hide Unambiguous, ValidMountState, Trusted, StoppingRecord;
    StoppingRecordAccepted(state, intent, stopAttempt, now, owner.process);
    StoppingStaysUnambiguous(w, state, intent, stopAttempt, now, owner.process);
    StoppingRecordIsStopping(state, intent, stopAttempt, now, owner.process);
  }

  lemma StoppingRecordIsStopping(
    state: MountState, intent: StopIntent, stopAttempt: AttemptID, now: int, process: Option<VerifiedProcess>
  )
    ensures StoppingRecord(state, intent, stopAttempt, now, process).phase == Stopping
  {
  }

  /** observeStopProcess up to the write of the stopping record (mount_stop.go:60-97): no command runs. */
  method CommitStopping(host: Host, state: MountState, intent: StopIntent)
    returns (committed: bool, stopping: MountState)
    requires host.Inv() && host.record == Some(state)
    requires ValidMountState(state) && (state.phase == Active || state.phase == Starting)
    modifies host.runtime, host`record, host`past
    ensures host.Inv() && OnlyAccepts(old(host.past), host.past)
    ensures Evolves(old(host.View()).(record := host.record), host.View())
    ensures committed ==> host.record == Some(stopping) && CommitsTo(state, intent, stopping)
    ensures host.record == old(host.record) || (host.record == Some(stopping) && CommitsTo(state, intent, stopping))
    ensures host.settled && ValidIntent(intent) && Committable(old(host.View()), state) ==>
      committed && Stoppable(host.View(), stopping) && host.runtime.unit == old(host.runtime.unit)
  {
    hide Host.Inv, NoSupervisor, Unambiguous, Evolves, ValidMountState, ValidTransition, Settled, OnlyAccepts,
      Accounted, Trusted, CommitsTo, Stoppable;
    ghost var start := host.View();
    stopping, committed := state, false;
    var owner := VerifyOwner(host, state);
    ghost var verified := host.View();
    if owner.Known? {
      var stopAttempt := host.NewAttemptID();
      if stopAttempt.Some? {
        committed, stopping := WriteStopping(host, state, intent, owner.value, stopAttempt.value);
        EvolvesThrough(start, verified, host.View());
      }
    }
  }

  /** Write the stopping record of a verified owner (mount_stop.go:78-97). */
  method WriteStopping(host: Host, state: MountState, intent: StopIntent, owner: Owner, stopAttempt: AttemptID)
    returns (committed: bool, stopping: MountState)
    requires host.Inv() && host.record == Some(state) && WellFormedAttempt(stopAttempt)
    requires ValidMountState(state) && (state.phase == Active || state.phase == Starting)
    requires Accounted(host.View(), host.past, state, owner.process) && KnownIdent(host.View(), state)
    requires host.settled ==>
      && Settled(host.View(), owner.process, owner.service)
      && (owner.process.Some? ==> Trusted(host.View(), state, owner.process.value))
    modifies host.runtime, host`record
    ensures host.Inv() && Evolves(old(host.View()).(record := host.record), host.View())
    ensures committed ==> host.record == Some(stopping) && CommitsTo(state, intent, stopping)
    ensures host.record == old(host.record) || (host.record == Some(stopping) && CommitsTo(state, intent, stopping))
    ensures host.settled && ValidIntent(intent) && Committable(old(host.View()), state) ==>
      committed && Stoppable(host.View(), stopping) && host.runtime.unit == old(host.runtime.unit)
  {
    hide Host.Inv, NoSupervisor, Unambiguous, Evolves, ValidMountState, ValidTransition, Settled, StoppingRecord,
      KeepsConsumers, Accounted, Trusted, OnlyOne, Stoppable;
    ghost var start := host.View();
    var now := host.Now();
    ghost var atNow := host.View();
    AccountedEvolves(start, atNow, host.past, state, owner.process);
    stopping := StoppingRecord(state, intent, stopAttempt, now, owner.process);
    host.Sound();
    StoppingRecordIsSound(atNow, host.past, state, intent, stopAttempt, now, owner.process);
    if host.settled && ValidIntent(intent) && Committable(start, state) {
      StoppingIsCommitted(atNow, host.past, state, intent, stopAttempt, now, owner);
    }
    committed := host.WriteRecord(stopping);
    EvolvesThrough(start, atNow, host.View());
  }

  /**
    * mountStopper.Stop. No command runs before the stopping record is durable, and then all run under
    * it; the result is Cleaned only if everything including the record is gone; otherwise the record is
    * the old one and nothing was touched, or it is the stopping one, or everything is gone already. On a
    * settled host with clear ownership it commits the stopping record and makes the progress of one pass.
    */
  method Stop(host: Host, state: MountState, consumers: int, intent: StopIntent)
    returns (result: StopResult, ghost stopping: MountState, ghost seen: World)
    requires host.Inv() && host.record == Some(state)
    modifies host.runtime, host`record, host`past
    ensures host.Inv() && Evolves(old(host.View()).(record := host.record), host.View())
    ensures !MayStop(state, consumers, intent) ==>
      result == Preserved && host.past == old(host.past) && host.record == old(host.record)
    ensures host.record == old(host.record) ==> result == Preserved && OnlyAccepts(old(host.past), host.past)
    ensures host.record != old(host.record) ==>
      && CommitsTo(state, intent, stopping)
      && StopOutcome(Some(stopping), host.View(), state.stagingTarget, result, seen)
      && Stops(old(host.past), host.past, Some(stopping), seen)
    ensures host.record.None? && PassIsSure(old(host.View()), state) ==> Quiet(seen)
    ensures host.settled && result == Cleaned ==> Quiet(seen)
    ensures host.settled && MayStop(state, consumers, intent) && Committable(old(host.View()), state) ==>
      host.record != old(host.record) && Progress(old(host.View()), host.View(), stopping, result)
  {
    hide NoSupervisor, Unambiguous, Evolves, Consistent, ValidMountState, Host.Inv, Stops, Quiet;
    ghost var start, begun := host.View(), host.past;
    seen := start;
    EvolvesReflexive(start);
    StopsNothing(begun, begun, Some(state), seen);
    result, stopping := Preserved, state;
    var cancelled := host.Cancelled();
    if !cancelled && MayStop(state, consumers, intent) {
      var committed: bool;
      var next: MountState;
      committed, next := CommitStopping(host, state, intent);
      stopping := next;
      ghost var atCommit, between := host.View(), host.past;
      StopsNothing(begun, between, Some(next), seen);
      if committed {
        StillSure(start, atCommit, state, next);
        result, seen := Reconcile(host, next);
        StopsAfterAccepting(begun, between, host.past, Some(next), seen);
        EvolvesThrough(start.(record := Some(next)), atCommit, host.View());
      }
    }
  }
}
