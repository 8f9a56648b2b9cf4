/**
  * Which host processes belong to a volume (internal/driver/host_process.go, systemd.go:165-379,
  * mount_reconcile_starting.go:568-613).
  */
module Ownership {
  import opened Text
  import opened MountRecord
  import opened World
  import opened Host

  datatype StartingProcess = ProcessAbsent | ProcessDead | ProcessVerified(process: VerifiedProcess) | ProcessMismatch

  function IdentOf(process: VerifiedProcess): Ident {
    Ident(process.pid, process.pidStartTime)
  }

  /** What an ownership check on a settled host accepts. */
  predicate Attributed(w: World, id: Ident, target: Target, binary: BinaryPath) {
    && id.pid > 0 && id.start > 0 && Alive(w, id)
    && w.procs[id.pid].origin.Supervisor?
    && w.procs[id.pid].exe == Drive9Exe(binary)
    && w.procs[id.pid].argv == MountArgv(target)
  }

  predicate LauncherAttributed(w: World, id: Ident, attempt: AttemptID) {
    && id.pid > 0 && id.start > 0 && Alive(w, id)
    && w.procs[id.pid].origin.Supervisor?
    && w.procs[id.pid].exe == LauncherExe
    && w.procs[id.pid].argv == LauncherArgv(attempt)
  }

  /** What every successful check establishes at its last read: a live supervisor of the volume's unit. */
  predicate LiveSupervisor(w: World, process: VerifiedProcess) {
    && process.pid > 0 && process.pidStartTime > 0
    && IdentOf(process) in w.born
    && Alive(w, IdentOf(process)) && Supervises(w, process.pid)
  }

  /** An owner leaves no room for another one: the unit has spawned it, and nothing else. */
  lemma LiveSupervisorIsOnly(w: World, process: VerifiedProcess)
    requires Consistent(w) && LiveSupervisor(w, process)
    ensures OnlyOne(w, IdentOf(process))
  {
  }

  /** What a check accepts on a settled host as more than a launcher is the mount process itself. */
  predicate Trusted(w: World, state: MountState, process: VerifiedProcess) {
    process.isLauncher || Attributed(w, IdentOf(process), state.stagingTarget, state.binaryPath)
  }

  /** A check that succeeded records its acceptance and nothing else. */
  predicate Accepts(before: Past, after: Past, process: VerifiedProcess) {
    && OnlyAccepts(before, after)
    && IdentOf(process) in after.accepted
  }

  predicate OnlyAccepts(before: Past, after: Past) {
    && after.(accepted := map[]) == before.(accepted := map[])
    && before.accepted.Keys <= after.accepted.Keys
  }

  /**
    * verifyHostPIDOwnership. The argv, cgroup and executable are three separate reads of a numeric pid
    * that may be reused between them; the second read of the start time is what makes them one process.
    */
  method VerifyHostPIDOwnership(host: Host, id: Ident, target: Target, binary: BinaryPath, stable: bool)
    returns (ok: bool)
    requires host.Inv() && id in host.runtime.born
    modifies host.runtime, host`past
    ensures host.Observed()
    ensures ok && stable ==>
      && Alive(host.View(), id) && Owned(host.View(), id, Drive9Exe(binary))
      && host.past == old(host.past).(accepted := old(host.past).accepted[id := Drive9Exe(binary)])
    ensures !(ok && stable) ==> host.past == old(host.past)
    ensures ok ==> id.pid > 0 && id.start > 0
    ensures host.settled && Attributed(old(host.View()), id, target, binary) ==> ok
    ensures host.settled && stable && ok ==> Attributed(host.View(), id, target, binary)
  {
    hide Evolves, NoSupervisor, Host.Inv;
    ghost var start := host.View();
    ok := false;
    if id.pid == 0 || id.start == 0 {
      host.Interfere();
      return;
    }
    var argv := host.ReadCommandLine(id.pid);
    ghost var atArgv := host.View();
    if argv == Known(MountArgv(target)) {
      var cgroup := host.ReadCgroup(id.pid);
      ghost var atCgroup := host.View();
      EvolvesTwice(start, atArgv, atCgroup);
      if cgroup == Known(true) {
        var exe := host.ReadExecutable(id.pid);
        ghost var atExe := host.View();
        EvolvesTwice(start, atCgroup, atExe);
        ok := exe == Known(Drive9Exe(binary));
        if ok && stable {
          ok := ConfirmIdentity(host, id, Drive9Exe(binary), atCgroup);
          EvolvesTwice(start, atExe, host.View());
        }
      }
    }
  }

  /** The second look at the start time, which ties what was read of a numeric pid to one process. */
  method ConfirmIdentity(host: Host, id: Ident, exe: Executable, ghost atCgroup: World) returns (ok: bool)
    requires host.Inv() && id in atCgroup.born && Evolves(atCgroup, host.View())
    requires Supervises(atCgroup, id.pid) && id.pid in host.runtime.procs && host.runtime.procs[id.pid].exe == exe
    modifies host.runtime, host`past
    ensures host.Observed()
    ensures ok ==>
      && Alive(host.View(), id) && Owned(host.View(), id, exe)
      && host.past == old(host.past).(accepted := old(host.past).accepted[id := exe])
    ensures !ok ==> host.past == old(host.past)
    ensures host.settled && Alive(old(host.View()), id) ==> ok
  {
    hide Evolves, NoSupervisor, Host.Inv;
    ghost var before := host.View();
    var start := host.ReadStartTime(id.pid);
    ok := start == StartedAt(id.start);
    if ok {
      SameIdentity(atCgroup, before, host.View(), id, exe);
      host.Accept(id, exe);
    }
  }

  lemma SameIdentity(a: World, b: World, c: World, id: Ident, exe: Executable)
    requires Evolves(a, b) && Evolves(b, c) && id in a.born && Alive(c, id)
    requires Supervises(a, id.pid) && id.pid in b.procs && b.procs[id.pid].exe == exe
    ensures Owned(c, id, exe) && id in c.born
  {
    IdentityPersists(b, c, id);
    IdentityPersists(a, b, id);
  }

  /** verifyStartingLauncherPID. */
  method VerifyStartingLauncherPID(host: Host, state: MountState, id: Ident) returns (ok: bool)
    requires host.Inv() && id in host.runtime.born
    modifies host.runtime, host`past
    ensures host.Observed()
    ensures ok ==>
      && Alive(host.View(), id) && Owned(host.View(), id, LauncherExe)
      && host.past == old(host.past).(accepted := old(host.past).accepted[id := LauncherExe])
      && id.pid > 0 && id.start > 0
    ensures !ok ==> host.past == old(host.past)
    ensures host.settled && StartupPathsOf(state) && LauncherAttributed(old(host.View()), id, state.attemptID) ==> ok
  {
    hide Evolves, NoSupervisor, Host.Inv, StartupPathsOf;
    ghost var start := host.View();
    ok := false;
    if !StartupPathsOf(state) || id.pid == 0 || id.start == 0 {
      host.Interfere();
      return;
    }
    var argv := host.ReadCommandLine(id.pid);
    ghost var atArgv := host.View();
    if argv == Known(LauncherArgv(state.attemptID)) {
      var cgroup := host.ReadCgroup(id.pid);
      ghost var atCgroup := host.View();
      EvolvesTwice(start, atArgv, atCgroup);
      BornStays(start, atCgroup, id);
      if cgroup == Known(true) {
        var exe := host.ReadExecutable(id.pid);
        ghost var atExe := host.View();
        EvolvesTwice(start, atCgroup, atExe);
        if exe == Known(LauncherExe) {
          ok := ConfirmIdentity(host, id, LauncherExe, atCgroup);
          EvolvesTwice(start, atExe, host.View());
        }
      }
    }
  }

  /** verifyProcessOwnership: the process-state file must name a live process that passes the check. */
  method VerifyProcessOwnership(host: Host, state: MountState, expected: Option<Ident>)
    returns (answer: Answer<VerifiedProcess>)
    requires host.Inv()
    modifies host.runtime, host`past
    ensures host.Observed()
    ensures answer.Known? ==> !answer.value.isLauncher
    ensures answer.Known? && expected.None? ==>
      LiveSupervisor(host.View(), answer.value) && Accepts(old(host.past), host.past, answer.value)
    ensures host.settled && answer.Known? && expected.None? ==> Trusted(host.View(), state, answer.value)
    ensures answer.Known? && expected.Some? ==>
      IdentOf(answer.value) == expected.value && host.past == old(host.past)
    ensures answer.Unknown? ==> host.past == old(host.past)
    ensures forall id |
      host.settled && RecordedAt(old(host.View()), state.stagingTarget, id)
      && Attributed(old(host.View()), id, state.stagingTarget, state.binaryPath)
      && (expected.None? || expected == Some(id)) ::
      answer == Known(VerifiedProcess(id.pid, id.start, false))
  {
    hide Persists, OnlySurvivors, Shrinks, NoSupervisor;
    EvolvesComposes();
    var recorded := host.ReadProcessState(state.stagingTarget);
    if recorded.Unknown? {
      return Unknown;
    }
    var id := recorded.value;
    if expected.Some? && id.pid != expected.value.pid {
      return Unknown;
    }
    var start := host.ReadStartTime(id.pid);
    if !start.StartedAt? {
      return Unknown;
    }
    if (expected.Some? && start.start != expected.value.start) || start.start != id.start {
      return Unknown;
    }
    var ok := VerifyHostPIDOwnership(host, id, state.stagingTarget, state.binaryPath, expected.None?);
    answer := if ok then Known(VerifiedProcess(id.pid, id.start, false)) else Unknown;
  }

  /** What observeStartingProcess returns on a settled host. */
  predicate Observation(w: World, state: MountState, process: StartingProcess) {
    var target := state.stagingTarget;
    if target !in w.processStates then process == ProcessAbsent
    else (process.ProcessVerified? ==> Trusted(w, state, process.process)) && match w.processStates[target]
         case Malformed => true
         case Names(id) =>
           && (!Alive(w, id) ==> process == ProcessDead)
           && (Attributed(w, id, target, state.binaryPath) ==>
                 process == ProcessVerified(VerifiedProcess(id.pid, id.start, false)))
  }

  /**
    * observeStartingProcess. When the unit does not run at entry, an absent or dead process means that
    * no supervisor of the volume is left: a survivor would have been found in its process-state file.
    */
  method ObserveStartingProcess(host: Host, state: MountState) returns (process: StartingProcess)
    requires host.Inv()
    modifies host.runtime, host`past
    ensures host.Observed()
    ensures process.ProcessVerified? ==>
      && !process.process.isLauncher
      && LiveSupervisor(host.View(), process.process)
      && Accepts(old(host.past), host.past, process.process)
    ensures !process.ProcessVerified? ==> host.past == old(host.past)
    ensures process.ProcessAbsent? ==> state.stagingTarget !in host.runtime.processStates
    ensures process.ProcessAbsent? || process.ProcessDead? ==>
      (!Running(old(host.runtime.unit)) && RecordFor(host.View(), state.stagingTarget) ==> NoSupervisor(host.View()))
    ensures host.settled ==> Observation(old(host.View()), state, process)
  {
    hide Evolves, NoSupervisor, Host.Inv, Attributed, Consistent;
    ghost var start := host.View();
    process := ProcessMismatch;
    var present := host.LstatProcessState(state.stagingTarget);
    ghost var atFile := host.View();
    if present == Absent {
      process := ProcessAbsent;
      host.Sound();
      AbsentMeansNoSupervisor(start, atFile, state.stagingTarget);
    } else if present == Present {
      process := ObserveRecordedProcess(host, state);
      EvolvesTwice(start, atFile, host.View());
      NotRunningStays(start, atFile);
    }
  }

  /** The part of observeStartingProcess that has found a process-state file. */
  method ObserveRecordedProcess(host: Host, state: MountState) returns (process: StartingProcess)
    requires host.Inv()
    modifies host.runtime, host`past
    ensures host.Observed() && !process.ProcessAbsent?
    ensures process.ProcessVerified? ==>
      && !process.process.isLauncher
      && LiveSupervisor(host.View(), process.process)
      && Accepts(old(host.past), host.past, process.process)
    ensures !process.ProcessVerified? ==> host.past == old(host.past)
    ensures process.ProcessDead? ==>
      (!Running(old(host.runtime.unit)) && RecordFor(host.View(), state.stagingTarget) ==> NoSupervisor(host.View()))
    ensures host.settled && state.stagingTarget in old(host.runtime.processStates) ==>
      Observation(old(host.View()), state, process)
  {
    hide Evolves, NoSupervisor, Host.Inv, Consistent;
    ghost var start := host.View();
    process := ProcessMismatch;
    var recorded := host.ReadProcessState(state.stagingTarget);
    if recorded.Known? {
      ghost var atRead := host.View();
      host.Sound();
      var started := host.ReadStartTime(recorded.value.pid);
      ghost var atStart := host.View();
      EvolvesTwice(start, atRead, atStart);
      if started.StartedAt? && started.start == recorded.value.start {
        var verified := VerifyProcessOwnership(host, state, None);
        EvolvesTwice(start, atStart, host.View());
        process := if verified.Known? then ProcessVerified(verified.value) else ProcessMismatch;
      } else if !started.UnreadableStart? {
        process := ProcessDead;
        NotRunningStays(start, atRead);
        DeadRecordMeansNoSupervisor(atRead, atStart, state.stagingTarget, recorded.value);
      }
    }
  }

  lemma NotRunningStays(a: World, b: World)
    requires Evolves(a, b)
    ensures !Running(a.unit) ==> !Running(b.unit)
  {
  }

  /** Without a process-state file nothing has survived a unit that does not run. */
  lemma AbsentMeansNoSupervisor(a: World, b: World, target: Target)
    requires Consistent(b) && Evolves(a, b) && target !in b.processStates
    ensures !Running(a.unit) && RecordFor(b, target) ==> NoSupervisor(b)
  {
  }

  /** A supervisor that outlived its unit is the one its process-state file names. */
  lemma DeadRecordMeansNoSupervisor(a: World, b: World, target: Target, id: Ident)
    requires Consistent(a) && Evolves(a, b)
    requires RecordedAt(a, target, id) && !Alive(b, id)
    ensures !Running(a.unit) && RecordFor(b, target) ==> NoSupervisor(b)
  {
  }

  /** verifyMountSystemdUnitDescription. */
  method VerifyUnitDescription(host: Host, state: MountState) returns (ok: bool)
    requires host.Inv()
    modifies host.runtime
    ensures host.Observed()
    ensures ok ==> host.runtime.unit.Loaded? && host.runtime.unit.attempt == state.attemptID
    ensures host.settled && old(host.runtime.unit).Loaded? && old(host.runtime.unit).attempt == state.attemptID ==> ok
  {
    var description := host.QueryDescription();
    ok := description == Known(Some(state.attemptID));
  }

  /** The main process of a unit that a settled host attributes to this attempt. */
  predicate MainAttributed(w: World, state: MountState, launcherToo: bool) {
    && w.unit.Loaded? && w.unit.attempt == state.attemptID && w.unit.mainPID in w.procs
    && var id := Ident(w.unit.mainPID, w.procs[w.unit.mainPID].start);
      || Attributed(w, id, state.stagingTarget, state.binaryPath)
      || (launcherToo && StartupPathsOf(state) && LauncherAttributed(w, id, state.attemptID))
  }

  function MainIdent(w: World): Ident
    requires w.unit.Loaded? && w.unit.mainPID in w.procs
  {
    Ident(w.unit.mainPID, w.procs[w.unit.mainPID].start)
  }

  predicate UnitWithoutMain(unit: Unit, attempt: AttemptID) {
    unit.Loaded? && unit.attempt == attempt && unit.mainPID == 0
  }

  /** The identity of the main process of the unit that the description names: None without a main process. */
  method ReadMainIdent(host: Host, state: MountState) returns (answer: Answer<Option<Ident>>)
    requires host.Inv()
    modifies host.runtime
    ensures host.Observed()
    ensures answer.Known? && answer.value.Some? ==>
      answer.value.value in host.runtime.born && answer.value.value.pid > 0
    ensures host.settled && MainAttributed(old(host.View()), state, true) && old(host.runtime.unit).mainPID > 0 ==>
      answer == Known(Some(MainIdent(old(host.View()))))
    ensures host.settled && UnitWithoutMain(old(host.runtime.unit), state.attemptID) ==> answer == Known(None)
    ensures host.settled && answer.Known? ==>
      host.runtime.unit.Loaded? && host.runtime.unit.attempt == state.attemptID
  {
    hide Evolves, NoSupervisor, Host.Inv, Attributed, LauncherAttributed;
    ghost var start := host.View();
    answer := Unknown;
    var ok := VerifyUnitDescription(host, state);
    if ok {
      ghost var described := host.View();
      var mainPID := host.QueryMainPID();
      ghost var atMain := host.View();
      EvolvesTwice(start, described, atMain);
      if mainPID == Known(0) {
        answer := Known(None);
      } else if mainPID.Known? {
        var started := host.ReadStartTime(mainPID.value);
        EvolvesTwice(start, atMain, host.View());
        if started.StartedAt? {
          host.Sound();
          answer := Known(Some(Ident(mainPID.value, started.start)));
        }
      }
    }
  }

  /** verifySystemdMainPIDOwnership. */
  method VerifySystemdMainPID(host: Host, state: MountState) returns (answer: Answer<VerifiedProcess>)
    requires host.Inv()
    modifies host.runtime, host`past
    ensures host.Observed() && OnlyAccepts(old(host.past), host.past)
    ensures answer.Known? ==>
      && !answer.value.isLauncher
      && LiveSupervisor(host.View(), answer.value)
      && Accepts(old(host.past), host.past, answer.value)
    ensures host.settled && MainAttributed(old(host.View()), state, false) ==>
      answer.Known? && answer.value.pid == old(host.runtime.unit).mainPID
    ensures host.settled && answer.Known? ==>
      && host.runtime.unit.Loaded? && host.runtime.unit.attempt == state.attemptID
      && Trusted(host.View(), state, answer.value)
  {
    hide Evolves, NoSupervisor, Host.Inv;
    ghost var start := host.View();
    answer := Unknown;
    var main := ReadMainIdent(host, state);
    ghost var atMain := host.View();
    if main.Known? && main.value.Some? {
      var ok := VerifyHostPIDOwnership(host, main.value.value, state.stagingTarget, state.binaryPath, true);
      EvolvesTwice(start, atMain, host.View());
      if ok {
        host.Sound();
        answer := Known(VerifiedProcess(main.value.value.pid, main.value.value.start, false));
      }
    }
  }

  /** verifyStartingSystemdMainPIDOwnership: None is a unit without a main process. */
  method VerifyStartingMainPID(host: Host, state: MountState) returns (answer: Answer<Option<VerifiedProcess>>)
    requires host.Inv()
    modifies host.runtime, host`past
    ensures host.Observed() && OnlyAccepts(old(host.past), host.past)
    ensures answer.Known? && answer.value.Some? ==>
      && LiveSupervisor(host.View(), answer.value.value)
      && Accepts(old(host.past), host.past, answer.value.value)
      && (host.settled ==> Trusted(host.View(), state, answer.value.value))
    ensures host.settled && MainAttributed(old(host.View()), state, true) ==>
      && answer.Known?
      && (answer.value.Some? <==> old(host.runtime.unit).mainPID > 0)
      && (answer.value.Some? ==> answer.value.value.pid == old(host.runtime.unit).mainPID)
    ensures host.settled && UnitWithoutMain(old(host.runtime.unit), state.attemptID) ==> answer == Known(None)
    ensures host.settled && answer.Known? ==> host.runtime.unit.Loaded? && host.runtime.unit.attempt == state.attemptID
  {
    hide Evolves, NoSupervisor, Host.Inv;
    ghost var start := host.View();
    answer := Unknown;
    var main := ReadMainIdent(host, state);
    ghost var atMain := host.View();
    if main == Known(None) {
      answer := Known(None);
    } else if main.Known? {
      var process := VerifyMain(host, state, main.value.value);
      EvolvesTwice(start, atMain, host.View());
      if process.Some? {
        answer := Known(process);
      }
    }
  }

  /** The mount process, or else the launcher that is about to become it. */
  method VerifyMain(host: Host, state: MountState, id: Ident) returns (process: Option<VerifiedProcess>)
    requires host.Inv() && id in host.runtime.born
    modifies host.runtime, host`past
    ensures host.Observed() && OnlyAccepts(old(host.past), host.past)
    ensures process.Some? ==>
      && process.value.pid == id.pid
      && LiveSupervisor(host.View(), process.value) && Accepts(old(host.past), host.past, process.value)
      && (host.settled ==> Trusted(host.View(), state, process.value))
    ensures host.settled && Attributed(old(host.View()), id, state.stagingTarget, state.binaryPath) ==> process.Some?
    ensures host.settled && StartupPathsOf(state) && LauncherAttributed(old(host.View()), id, state.attemptID) ==>
      process.Some?
  {
    hide Evolves, NoSupervisor, Host.Inv, Attributed, LauncherAttributed;
    ghost var start := host.View();
    process := None;
    var ok := VerifyHostPIDOwnership(host, id, state.stagingTarget, state.binaryPath, true);
    if ok {
      host.Sound();
      process := Some(VerifiedProcess(id.pid, id.start, false));
    } else {
      ghost var atMount := host.View();
      BornStays(start, atMount, id);
      ok := VerifyStartingLauncherPID(host, state, id);
      EvolvesTwice(start, atMount, host.View());
      if ok {
        host.Sound();
        process := Some(VerifiedProcess(id.pid, id.start, true));
      }
    }
  }

  lemma BornStays(a: World, b: World, id: Ident)
    requires id in a.born && Evolves(a, b)
    ensures id in b.born
  {
  }
}
