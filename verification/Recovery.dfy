/** Recovering an active mount (internal/driver/active_recovery.go). */
module Recovery {
  import opened Text
  import opened MountRecord
  import opened MountArgs
  import opened LaunchRequest
  import opened World
  import opened Host
  import opened Ownership
  import opened Stop
  import opened Lifecycle
  import opened Starting

  const COLLECTION_ATTEMPTS := 20
  const TERM_WAIT := 250_000_000

  // ---- The decision table --------------------------------------------------------------------------

  datatype RecoveryObservation = RecoveryObservation(
    serviceExists: bool,
    pidVerified: bool,
    processStateVerified: bool,
    mainPIDOwned: bool,
    mountExists: bool,
    socketExists: bool,
    pidOwnershipMismatch: bool,
    queryAmbiguous: bool)

  datatype Action = Skip | StopService | DrainOrphan | KillPID | Unmount | CleanArtifacts | StartDesired

  datatype Decision = Plan(actions: seq<Action>) | AmbiguousQuery | AmbiguousOwnership

  /** decideActiveRecovery. */
  function DecideRecovery(o: RecoveryObservation): Decision {
    if o.queryAmbiguous then AmbiguousQuery
    else if o.pidOwnershipMismatch then AmbiguousOwnership
    else if o.serviceExists && !o.pidVerified && !o.mainPIDOwned then AmbiguousOwnership
    else if Healthy(o) then Plan([Skip])
    else if o.serviceExists && o.pidVerified && o.mountExists then Plan([StopService, Unmount, StartDesired])
    else if o.serviceExists && o.pidVerified then Plan([StopService, StartDesired])
    else if o.serviceExists && o.mainPIDOwned then Plan([StopService, CleanArtifacts, StartDesired])
    else if o.pidVerified && o.mountExists then Plan([DrainOrphan, KillPID, Unmount, StartDesired])
    else if o.pidVerified then Plan([KillPID, CleanArtifacts, StartDesired])
    else if o.mountExists then Plan([Unmount, CleanArtifacts, StartDesired])
    else Plan([StartDesired])
  }

  /** activeRecoveryCleanupPlan: the actions that touch the old runtime. */
  function CleanupPlan(actions: seq<Action>): seq<Action> {
    if actions == [] then []
    else
      (if actions[0] == StartDesired || actions[0] == CleanArtifacts then [] else [actions[0]])
      + CleanupPlan(actions[1..])
  }

  predicate Healthy(o: RecoveryObservation) {
    o.serviceExists && o.pidVerified && o.processStateVerified && o.mountExists && o.socketExists
  }

  /** Whatever is running belongs to somebody: the condition under which recovery touches anything. */
  predicate OwnershipClear(o: RecoveryObservation) {
    !o.queryAmbiguous && !o.pidOwnershipMismatch && (o.serviceExists ==> o.pidVerified || o.mainPIDOwned)
  }

  /**
    * A plan exists exactly when ownership is clear. It is to skip exactly when everything is healthy;
    * otherwise it ends with the one start, stops a service exactly if there is one, kills exactly an
    * orphan, and only after a drain when it still serves a mount.
    */
  lemma PlanIsComplete(o: RecoveryObservation)
    ensures DecideRecovery(o).Plan? <==> OwnershipClear(o)
    ensures DecideRecovery(o) == Plan([Skip]) <==> OwnershipClear(o) && Healthy(o)
    ensures DecideRecovery(o).Plan? && !Healthy(o) ==>
      var plan := DecideRecovery(o).actions;
      && plan[|plan| - 1] == StartDesired && StartDesired !in plan[..|plan| - 1] && Skip !in plan
      && (StopService in plan <==> o.serviceExists)
      && (KillPID in plan <==> !o.serviceExists && o.pidVerified)
      && (DrainOrphan in plan <==> !o.serviceExists && o.pidVerified && o.mountExists)
  {
  }

  /**
    * A mount is unmounted, and last of all, in every row but one: a service with a verified main process
    * and no verified recorded one is stopped without an unmount, so what it leaves waits for the next pass.
    */
  lemma MountIsUnmountedIff(o: RecoveryObservation)
    requires OwnershipClear(o) && !Healthy(o)
    ensures Unmount in DecideRecovery(o).actions <==> o.mountExists && !(o.serviceExists && !o.pidVerified)
    ensures Unmount in DecideRecovery(o).actions ==>
      CleanupPlan(DecideRecovery(o).actions)[|CleanupPlan(DecideRecovery(o).actions)| - 1] == Unmount
  {
    assert CleanupPlan([StopService, Unmount, StartDesired]) == [StopService, Unmount];
    assert CleanupPlan([DrainOrphan, KillPID, Unmount, StartDesired]) == [DrainOrphan, KillPID, Unmount];
    assert CleanupPlan([Unmount, CleanArtifacts, StartDesired]) == [Unmount];
  }

  // ---- Observation -----------------------------------------------------------------------------------

  /** What an observation says about a host on which nothing moves. */
  predicate Faithful(w: World, target: Target, o: RecoveryObservation) {
    && o.mountExists == (target in w.mounts)
    && o.serviceExists == Running(w.unit)
    && (o.pidVerified ==> !NoSupervisor(w))
    && (o.socketExists ==> target in w.sockets)
    && OwnershipClear(o)
  }

  /** An active record that owns what is on the host beyond doubt. */
  predicate ActiveIsClear(w: World, active: MountState) {
    w.record == Some(active) && ValidMountState(active) && active.phase == Active && Unambiguous(w, active)
  }

  /** The recorded process is alive, and so is the one that the process-state file names. */
  predicate RecordedLives(w: World, active: MountState) {
    active.pid > 0 && Alive(w, RecordedIdent(active))
  }

  predicate NamedLives(w: World, target: Target) {
    target in w.processStates && w.processStates[target].Names? && Alive(w, w.processStates[target].ident)
  }

  /** What a settled host shows of such a record. */
  function RecoveryView(w: World, active: MountState): RecoveryObservation {
    RecoveryObservation(
      Running(w.unit), RecordedLives(w, active) || NamedLives(w, active.stagingTarget),
      NamedLives(w, active.stagingTarget),
      Running(w.unit), active.stagingTarget in w.mounts, active.stagingTarget in w.sockets, false, false)
  }

  /** Of a unit that no longer runs only the supervisor that its process-state file names can be left. */
  lemma SurvivorIsNamed(w: World, active: MountState)
    requires Consistent(w) && !w.lost && ActiveIsClear(w, active) && !Running(w.unit)
    ensures RecoveryView(w, active).pidVerified <==> !NoSupervisor(w)
  {
    hide ValidMountState;
    assert RecordFor(w, active.stagingTarget);
  }

  /**
    * The identity on record and the one in the process-state file (active_recovery.go:281-322): the pid they
    * agree on.
    */
  method ObserveProcesses(host: Host, active: MountState) returns (answer: Answer<(Option<nat>, bool)>)
    requires host.Inv() && host.record == Some(active)
    modifies host.runtime, host`past
    ensures host.Observed() && OnlyAccepts(old(host.past), host.past)
    ensures host.settled && answer.Known? && answer.value.0.Some? ==> Supervises(host.View(), answer.value.0.value)
    ensures answer.Known? && answer.value.1 ==> answer.value.0.Some?
    ensures host.settled && ActiveIsClear(old(host.View()), active) ==>
      && answer.Known? && answer.value.1 == RecoveryView(host.View(), active).processStateVerified
      && (answer.value.0.Some? <==> RecoveryView(host.View(), active).pidVerified)
  {
    hide Evolves, Host.Inv, NoSupervisor, Attributed, Consistent, ValidMountState;
    ghost var start, begun := host.View(), host.past;
    host.Sound();
    RecordIsKnown(start, active);
    answer := Unknown;
    var recorded := VerifyRecordedProcess(host, active);
    if recorded.Known? {
      ghost var atRecorded := host.View();
      var process := ObserveStartingProcess(host, active);
      EvolvesTwice(start, atRecorded, host.View());
      if host.settled && recorded.value.Some? && process.ProcessVerified? {
        OneSupervisor(start, recorded.value.value, process.process);
      }
      match process
      case ProcessMismatch =>
      case ProcessVerified(verified) =>
        if recorded.value.Some? ==> recorded.value.value.pid == verified.pid {
          answer := Known((Some(verified.pid), true));
        }
      case _ =>
        answer := Known((if recorded.value.Some? then Some(recorded.value.value.pid) else None, false));
    }
  }

  /**
    * The main process of a running service, which must be the verified one if there is one
    * (active_recovery.go:324-335).
    */
  method ObserveMain(host: Host, active: MountState, serviceExists: bool, verified: Option<nat>) returns (ok: bool)
    requires host.Inv()
    modifies host.runtime, host`past
    ensures host.Observed() && OnlyAccepts(old(host.past), host.past)
    ensures !serviceExists ==> ok
    ensures host.settled && ActiveIsClear(old(host.View()), active) ==>
      ((serviceExists ==> Running(old(host.runtime.unit))) ==>
         ((verified.Some? ==> Supervises(old(host.View()), verified.value)) ==> ok))
  {
    hide Host.Inv, NoSupervisor, Evolves;
    host.Sound();
    ok := true;
    if serviceExists {
      var main := VerifySystemdMainPID(host, active);
      ok := main.Known? && (verified.Some? ==> main.value.pid == verified.value);
    } else {
      host.Interfere();
    }
  }

  /** The ownership part of observeActiveRecovery (active_recovery.go:281-344). */
  method ObserveOwnership(host: Host, active: MountState, mounted: bool, serviceExists: bool)
    returns (answer: Answer<RecoveryObservation>)
    requires host.Inv() && host.record == Some(active)
    modifies host.runtime, host`past
    ensures host.Observed() && OnlyAccepts(old(host.past), host.past)
    ensures answer.Known? ==> OwnershipClear(answer.value)
    ensures answer.Known? ==> answer.value.mountExists == mounted && answer.value.serviceExists == serviceExists
    ensures host.settled && answer.Known? ==>
      && (answer.value.pidVerified ==> !NoSupervisor(host.View()))
      && (answer.value.socketExists ==> active.stagingTarget in host.runtime.sockets)
    ensures host.settled && ActiveIsClear(old(host.View()), active) ==>
      (mounted == (active.stagingTarget in host.runtime.mounts) && serviceExists == Running(host.runtime.unit) ==>
         answer == Known(RecoveryView(host.View(), active)))
  {
    hide Evolves, Host.Inv, OnlyAccepts, ActiveIsClear, RecordedLives, NamedLives;
    ghost var start, begun := host.View(), host.past;
    answer := Unknown;
    var processes := ObserveProcesses(host, active);
    ghost var atProcesses, between := host.View(), host.past;
    if processes.Known? {
      var ok := ObserveMain(host, active, serviceExists, processes.value.0);
      ghost var atMain := host.View();
      EvolvesTwice(start, atProcesses, atMain);
      OnlyAcceptsTwice(begun, between, host.past);
      if ok {
        var socket := host.LstatControlSocket(active.stagingTarget);
        EvolvesTwice(start, atMain, host.View());
        if socket.Known? {
          answer := Known(RecoveryObservation(serviceExists, processes.value.0.Some?, processes.value.1, serviceExists,
            mounted, socket.value == RealSocket, false, false));
        }
      }
    }
  }

  /** observeActiveRecovery: Unknown stands for its error returns, on which no caller does anything. */
  method ObserveActive(host: Host, active: MountState) returns (answer: Answer<RecoveryObservation>)
    requires host.Inv() && host.record == Some(active)
    modifies host.runtime, host`past
    ensures host.Observed() && OnlyAccepts(old(host.past), host.past)
    ensures answer.Known? ==> OwnershipClear(answer.value)
    ensures host.settled && answer.Known? ==> Faithful(host.View(), active.stagingTarget, answer.value)
    ensures host.settled && ActiveIsClear(old(host.View()), active) ==>
      answer == Known(RecoveryView(host.View(), active))
  {
    hide Evolves, Host.Inv, NoSupervisor, ActiveIsClear, RecoveryView;
    ghost var start := host.View();
    answer := Unknown;
    var mounted := host.IsMountPoint(active.stagingTarget);
    ghost var atMount := host.View();
    if mounted.Known? {
      var service := host.QueryUnit();
      ghost var atUnit := host.View();
      EvolvesTwice(start, atMount, atUnit);
      if service.Known? {
        answer := ObserveOwnership(host, active, mounted.value, Live(service.value));
        EvolvesTwice(start, atUnit, host.View());
      }
    }
  }

  // ---- Commands on the old runtime ---------------------------------------------------------------

  /** If the process to be terminated is alive, it has passed an ownership check. */
  predicate KillIsOwned(w: World, past: Past, owned: MountState) {
    && KnownIdent(w, owned) && owned.pid > 0 && owned.pidStartTime > 0
    && (Alive(w, RecordedIdent(owned)) ==> RecordedIdent(owned) in past.accepted)
  }

  lemma KillStaysOwned(a: World, p: Past, b: World, q: Past, owned: MountState)
    requires KillIsOwned(a, p, owned) && Cleans(a, p, b, q)
    ensures KillIsOwned(b, q, owned)
  {
  }

  /** Poll until the process is dead: Known(false) when it outlives every poll, the last of which saw it alive. */
  method AwaitDeath(host: Host, owned: MountState) returns (answer: Answer<bool>)
    requires host.Inv() && KillIsOwned(host.View(), host.past, owned)
    modifies host.runtime, host`past
    ensures host.Inv() && Cleans(old(host.View()), old(host.past), host.View(), host.past)
    ensures answer == Known(false) ==>
      host.past.lastAlive == Some(RecordedIdent(owned)) && RecordedIdent(owned) in host.past.accepted
    ensures host.settled && !Alive(old(host.View()), RecordedIdent(owned)) ==>
      answer == Known(true) && host.View() == old(host.View())
  {
    hide Host.Inv, Evolves, CleansUp, Cleans, Alive, KnownIdent;
    ghost var start, begun := host.View(), host.past;
    CleansIsReflexive(start, begun);
    for i := 0 to PID_KILL_ATTEMPTS
      invariant host.Inv() && Cleans(start, begun, host.View(), host.past)
      invariant KillIsOwned(host.View(), host.past, owned)
      invariant host.settled && !Alive(start, RecordedIdent(owned)) ==> i == 0 && host.View() == start
      invariant i > 0 ==>
        host.past.lastAlive == Some(RecordedIdent(owned)) && RecordedIdent(owned) in host.past.accepted
    {
      ghost var before, p := host.View(), host.past;
      var alive := StoppingPIDAlive(host, owned);
      ghost var seen, q := host.View(), host.past;
      CleansLooking(before, p, seen, q);
      CleansTwice(start, begun, before, p, seen, q);
      if alive != Known(true) {
        return if alive.Known? then Known(true) else Unknown;
      }
      KillStaysOwned(before, p, seen, q, owned);
      var waited := host.Wait(TERM_WAIT);
      CleansLooking(seen, q, host.View(), host.past);
      CleansTwice(start, begun, seen, q, host.View(), host.past);
      KillStaysOwned(seen, q, host.View(), host.past, owned);
      if !waited {
        return Unknown;
      }
    }
    return Known(false);
  }

  lemma CleansIsReflexive(w: World, past: Past)
    ensures Cleans(w, past, w, past)
  {
  }

  /** Looking at a process changes nothing but what was last seen alive. */
  lemma CleansLooking(a: World, p: Past, b: World, q: Past)
    requires Evolves(a, b) && b.record == a.record && q.(lastAlive := None) == p.(lastAlive := None)
    ensures Cleans(a, p, b, q)
  {
  }

  /**
    * terminateOrphan. The TERM goes to the numeric pid without a fresh liveness check; the KILL only
    * follows a poll that saw the accepted identity alive.
    */
  method TerminateOrphan(host: Host, owned: MountState) returns (ok: bool)
    requires host.Inv() && KillIsOwned(host.View(), host.past, owned)
    modifies host.runtime, host`past
    ensures host.Inv() && Cleans(old(host.View()), old(host.past), host.View(), host.past)
    ensures host.settled ==>
      ok && host.View() == old(host.View()).(procs := old(host.runtime.procs) - {RecordedIdent(owned).pid})
  {
    hide Host.Inv, Evolves, CleansUp, Cleans, KnownIdent;
    ghost var start, begun := host.View(), host.past;
    CleansIsReflexive(start, begun);
    ok := false;
    var attempt := host.NewAttemptID();
    if attempt.Some? {
      ok := SendTerm(host, owned);
      ghost var sent, p := host.View(), host.past;
      KillStaysOwned(start, begun, sent, p, owned);
      if ok {
        var dead := AwaitDeath(host, owned);
        ghost var awaited, q := host.View(), host.past;
        CleansTwice(start, begun, sent, p, awaited, q);
        ok := dead == Known(true);
        if dead == Known(false) {
          ok := KillOwned(host, owned);
          CleansTwice(start, begun, awaited, q, host.View(), host.past);
        }
      }
    }
  }

  method SendTerm(host: Host, owned: MountState) returns (ok: bool)
    requires host.Inv() && owned.pid > 0
    modifies host.runtime, host`past
    ensures host.Inv() && Cleans(old(host.View()), old(host.past), host.View(), host.past)
    ensures host.settled ==>
      ok && host.View() == old(host.View()).(procs := old(host.runtime.procs) - {RecordedIdent(owned).pid})
  {
    hide Host.Inv, Evolves;
    ok := host.Terminate(owned.pid);
  }

  method KillOwned(host: Host, owned: MountState) returns (ok: bool)
    requires host.Inv() && owned.pid > 0 && owned.pidStartTime > 0
    requires host.past.lastAlive == Some(RecordedIdent(owned)) && RecordedIdent(owned) in host.past.accepted
    modifies host.runtime, host`past
    ensures host.Inv() && Cleans(old(host.View()), old(host.past), host.View(), host.past)
  {
    hide Host.Inv, Evolves;
    ok := KillStoppingPID(host, owned);
  }

  /** unmountActive: an error at any step is reported, but the lazy unmount is tried all the same. */
  method UnmountActive(host: Host, target: Target) returns (ok: bool)
    requires host.Inv()
    modifies host.runtime, host`past
    ensures host.Inv() && Cleans(old(host.View()), old(host.past), host.View(), host.past)
    ensures host.settled ==> ok && host.View() == old(host.View()).(mounts := old(host.runtime.mounts) - {target})
  {
    hide Host.Inv, Persists, OnlySurvivors, Shrinks, NoSupervisor;
    EvolvesComposes();
    var mounted := host.IsMountPoint(target);
    ok := mounted.Known?;
    if mounted == Known(true) {
      ok := host.KernelUnmount(target, false);
      mounted := host.IsMountPoint(target);
      ok := ok && mounted.Known?;
      if mounted == Known(true) {
        var lazy := host.KernelUnmount(target, true);
        ok := ok && lazy;
      }
    }
  }

  /** A unit that systemd keeps only because it failed. */
  predicate FailedFor(unit: Unit, state: MountState) {
    unit.Loaded? && unit.state.UnitFailed? && unit.attempt == state.attemptID
  }

  /** One look at the unit: gone, worth another look after a reset, or failed. */
  method CollectUnit(host: Host, state: MountState) returns (collected: Answer<bool>)
    requires host.Inv()
    modifies host.runtime, host`past
    ensures host.Inv() && Cleans(old(host.View()), old(host.past), host.View(), host.past)
    ensures collected == Known(true) ==> host.runtime.unit.NotFound?
    ensures host.settled && old(host.runtime.unit).NotFound? ==>
      collected == Known(true) && host.View() == old(host.View())
    ensures host.settled && FailedFor(old(host.runtime.unit), state) ==>
      collected == Known(false) && host.View() == old(host.View()).(unit := NotFound)
    ensures host.settled && old(host.runtime.unit).Loaded? && !FailedFor(old(host.runtime.unit), state) ==>
      collected != Known(true) && host.View() == old(host.View())
  {
    hide Host.Inv, Persists, OnlySurvivors, Shrinks, NoSupervisor;
    EvolvesComposes();
    var service := host.QueryUnit();
    collected := Unknown;
    if service == Known(None) {
      collected := Known(true);
    } else if service.Known? && !Live(service.value) {
      var described := VerifyUnitDescription(host, state);
      if described && service.value == Some(UnitFailed) {
        described := host.ResetFailed();
      }
      if described {
        collected := Known(false);
      }
    }
  }

  /**
    * waitForSystemdUnitCollection: on a settled host only a unit that has failed goes, and no inactive one ever
    * does.
    */
  method WaitForCollection(host: Host, state: MountState) returns (ok: bool)
    requires host.Inv()
    modifies host.runtime, host`past
    ensures host.Inv() && Cleans(old(host.View()), old(host.past), host.View(), host.past)
    ensures ok ==> host.runtime.unit.NotFound?
    ensures host.settled ==>
      && (ok <==> old(host.runtime.unit).NotFound? || FailedFor(old(host.runtime.unit), state))
      && host.View() == old(host.View()).(unit := host.runtime.unit, clock := host.runtime.clock)
  {
    hide Host.Inv, Evolves, CleansUp, Cleans;
    ghost var start, begun := host.View(), host.past;
    CleansIsReflexive(start, begun);
    for i := 0 to COLLECTION_ATTEMPTS
      invariant host.Inv() && Cleans(start, begun, host.View(), host.past)
      invariant host.settled && (start.unit.NotFound? || FailedFor(start.unit, state)) ==>
        if i == 0 then host.View() == start
        else i == 1 && host.View() == start.(unit := NotFound, clock := host.runtime.clock)
      invariant host.settled && !(start.unit.NotFound? || FailedFor(start.unit, state)) ==>
        host.View() == start.(clock := host.runtime.clock)
    {
      ghost var before, p := host.View(), host.past;
      var collected := CollectUnit(host, state);
      ghost var looked, q := host.View(), host.past;
      CleansTwice(start, begun, before, p, looked, q);
      if collected != Known(false) {
        return collected == Known(true);
      }
      if i < COLLECTION_ATTEMPTS - 1 {
        var waited := host.Wait(PID_KILL_WAIT);
        CleansLooking(looked, q, host.View(), host.past);
        CleansTwice(start, begun, looked, q, host.View(), host.past);
        if !waited {
          return false;
        }
      }
    }
    return false;
  }

  /** Nothing of the old runtime is left. */
  predicate RuntimeAbsent(w: World, target: Target) {
    Vacant(w, target) && (w.lost || (target !in w.processStates && target !in w.sockets))
  }

  /** The same but for the mount, which is gone if nothing was alive when it was read as absent. */
  predicate RuntimeAbsentSince(seen: World, w: World, target: Target) {
    w.unit.NotFound? && !Running(seen.unit) && ArtifactsGone(seen, w, target)
  }

  lemma AbsentHasStopped(seen: World, w: World, target: Target)
    ensures RuntimeAbsentSince(seen, w, target) ==> !Running(seen.unit)
  {
  }

  /** What it takes for the last check to succeed on a settled host. */
  predicate RuntimeGone(w: World, owned: MountState) {
    && (w.unit.NotFound? || FailedFor(w.unit, owned))
    && ArtifactPathsMatch(owned) && ArtifactsDead(w, owned.stagingTarget)
    && (owned.pid > 0 ==> !Alive(w, RecordedIdent(owned)))
  }

  /** The first two checks of ensureOldRuntimeAbsent, which the last step repeats. */
  method LooksAbsent(host: Host, owned: MountState) returns (absent: bool)
    requires host.Inv() && KnownIdent(host.View(), owned)
    modifies host.runtime, host`past
    ensures host.Inv() && Cleans(old(host.View()), old(host.past), host.View(), host.past)
    ensures host.settled ==> host.View() == old(host.View())
    ensures host.settled && RuntimeGone(old(host.View()), owned) ==> absent
    ensures absent && owned.pid > 0 && owned.pidStartTime > 0 && OnlyOne(old(host.View()), RecordedIdent(owned)) ==>
      NoneLeft(host.View())
  {
    hide Host.Inv, Persists, OnlySurvivors, Shrinks, NoSupervisor;
    ghost var start := host.View();
    EvolvesComposes();
    var mounted := host.IsMountPoint(owned.stagingTarget);
    absent := mounted == Known(false);
    if absent && owned.pid > 0 {
      var alive := StoppingPIDAlive(host, owned);
      absent := alive == Known(false);
    }
    if OnlyOne(start, RecordedIdent(owned)) && !Alive(host.View(), RecordedIdent(owned)) {
      OnlyOneStays(start, host.View(), RecordedIdent(owned));
      OnlyOneDies(host.View(), RecordedIdent(owned));
    }
  }

  /**
    * ensureOldRuntimeAbsent. The mount is surely gone if nothing was alive as this begins, or only the
    * process whose death is checked here.
    */
  method EnsureAbsent(host: Host, owned: MountState) returns (ok: bool, ghost seen: World)
    requires host.Inv() && RecordFor(host.View(), owned.stagingTarget) && KnownIdent(host.View(), owned)
    modifies host.runtime, host`past
    ensures host.Inv() && Cleans(old(host.View()), old(host.past), host.View(), host.past)
    ensures Evolves(old(host.View()), seen)
    ensures ok ==> RuntimeAbsentSince(seen, host.View(), owned.stagingTarget)
    ensures ok && owned.pid > 0 && owned.pidStartTime > 0 && OnlyOne(old(host.View()), RecordedIdent(owned)) ==>
      Quiet(seen)
    ensures host.settled ==> OnlyRemoved(old(host.View()), host.View())
    ensures host.settled && ok ==>
      Quiet(seen) && (old(host.runtime.unit).NotFound? || FailedFor(old(host.runtime.unit), owned))
    ensures host.settled && RuntimeGone(old(host.View()), owned) ==> ok
  {
    hide Host.Inv, Evolves, CleansUp, NoSupervisor, KnownIdent, ArtifactsGone, OnlyOne;
    ghost var start, begun := host.View(), host.past;
    ok := LooksAbsent(host, owned);
    ghost var looked, p := host.View(), host.past;
    seen := looked;
    if ok {
      ok := WaitForCollection(host, owned);
      ghost var collected, q := host.View(), host.past;
      CleansTwice(start, begun, looked, p, collected, q);
      seen := collected;
      if ok {
        NoneLeftStays(looked, collected);
        ok, seen := RemoveVerifiedDeadRuntimeArtifacts(host, owned);
        CleansTwice(start, begun, collected, q, host.View(), host.past);
        EvolvesTwice(start, collected, seen);
        NotRunningStays(collected, seen);
        QuietStays(collected, seen);
        AbsenceEvolves(collected, host.View());
      }
    }
  }

  /** No unit serves the record any more, nor does systemd hold on to an inactive one. */
  predicate RuntimeUnserved(w: World, active: MountState) {
    ActiveIsClear(w, active) && (w.unit.NotFound? || FailedFor(w.unit, active))
  }

  /** The unit has been stopped, and what it has left can still be told apart. */
  predicate RuntimeStopped(w: World, active: MountState) {
    ActiveIsClear(w, active) && !Running(w.unit)
  }

  /** The plan that a settled host calls for. */
  predicate PlansFor(w: World, active: MountState, actions: seq<Action>) {
    DecideRecovery(RecoveryView(w, active)) == Plan(actions) && actions != [Skip]
  }

  lemma PlanKinds(w: World, active: MountState, actions: seq<Action>)
    requires PlansFor(w, active, actions)
    ensures |actions| > 0 && StopService !in actions[1..]
    ensures Running(w.unit) <==> actions[0] == StopService
    ensures !Running(w.unit) ==> StopService !in actions
  {
  }

  /** What the actions of a plan do on a settled host, its first one aside if that stops a service. */
  function AfterActions(w: World, owned: MountState, actions: seq<Action>): World {
    w.(procs := if KillPID in actions then w.procs - {RecordedIdent(owned).pid} else w.procs,
       mounts := if Unmount in actions then w.mounts - {owned.stagingTarget} else w.mounts)
  }

  lemma UnservedIsLetGo(w: World, active: MountState, owner: Owner, actions: seq<Action>)
    requires Consistent(w) && !w.lost && RuntimeUnserved(w, active) && Settled(w, owner.process, owner.service)
    requires PlansFor(w, active, actions)
    ensures RuntimeGone(AfterActions(w, Owning(active, owner.process), actions), Owning(active, owner.process))
  {
    hide ValidMountArgs, RemotePath.CanonicalRemoteRoot, RemotePath.CanonicalStagingTarget;
    SurvivorIsNamed(w, active);
    if owner.process.Some? {
      assert Supervises(w, owner.process.value.pid);
    }
  }

  // ---- Clean-up of the active runtime --------------------------------------------------------------

  lemma OwningIsKillable(w: World, past: Past, active: MountState, process: Option<VerifiedProcess>)
    requires Consistent(w) && w.record == Some(active) && ValidMountState(active) && active.phase == Active
    requires Accounted(w, past, active, process)
    requires forall id | id in past.accepted :: id in w.born
    ensures KillIsOwned(w, past, Owning(active, process))
    ensures Owning(active, process).stagingTarget == active.stagingTarget
  {
    hide ValidMountArgs;
  }

  /** One action of the plan: Unknown ends the clean-up on the spot. */
  method RunAction(host: Host, owned: MountState, action: Action, service: Option<UnitState>)
    returns (done: Answer<bool>)
    requires host.Inv() && KillIsOwned(host.View(), host.past, owned)
    modifies host.runtime, host`past
    ensures host.Inv() && Cleans(old(host.View()), old(host.past), host.View(), host.past)
    ensures action == StartDesired || action == CleanArtifacts ==>
      done == Known(true) && host.View() == old(host.View()) && host.past == old(host.past)
    ensures host.settled && action != StopService ==>
      done == Known(true) && host.View() == AfterActions(old(host.View()), owned, [action])
    ensures host.settled && action == StopService && Live(service) ==>
      done == Known(true) && StopEffect(old(host.View()), host.View())
    ensures action == DrainOrphan ==> host.past.drains > old(host.past).drains
  {
    hide Host.Inv, Evolves, NoSupervisor, KillIsOwned, StopEffect;
    ghost var start, begun := host.View(), host.past;
    CleansIsReflexive(start, begun);
    var ok := true;
    match action {
      case StopService =>
        if !Live(service) {
          return Unknown;
        }
        ok := host.StopUnit();
      case DrainOrphan =>
        ok := host.Drain();
      case KillPID =>
        KillableHasPID(start, begun, owned);
        ok := TerminateOrphan(host, owned);
      case Unmount =>
        ok := UnmountActive(host, owned.stagingTarget);
      case _ =>
    }
    done := Known(ok);
  }

  lemma KillableHasPID(w: World, past: Past, owned: MountState)
    requires KillIsOwned(w, past, owned)
    ensures owned.pid > 0 && owned.pidStartTime > 0 && KnownIdent(w, owned)
  {
  }

  /** A plan that stops at most the one service, and that first. */
  predicate Runnable(actions: seq<Action>, service: Option<UnitState>) {
    |actions| > 0 && StopService !in actions[1..] && (actions[0] == StopService ==> Live(service))
  }

  /** How far a settled host is with a runnable plan. */
  predicate Ran(w: World, stopped: World, b: World, owned: MountState, actions: seq<Action>, i: nat)
    requires i <= |actions|
  {
    if i == 0 then b == w
    else
      && (if actions[0] == StopService then StopEffect(w, stopped) else stopped == w)
      && b == AfterActions(stopped, owned, actions[..i])
  }

  lemma RunsOn(
    w: World, stopped: World, b: World, c: World, owned: MountState, actions: seq<Action>,
    service: Option<UnitState>, i: nat
  )
    requires i < |actions| && Runnable(actions, service) && Ran(w, stopped, b, owned, actions, i)
    requires if actions[i] == StopService then StopEffect(b, c) else c == AfterActions(b, owned, [actions[i]])
    ensures Ran(w, if i > 0 then stopped else if actions[0] == StopService then c else w, c, owned, actions, i + 1)
  {
    hide StopEffect;
    if i > 0 {
      assert actions[i] == actions[1..][i - 1];
      OneMoreAction(stopped, owned, actions, i);
    } else {
      assert actions[..1] == [actions[0]];
    }
  }

  lemma OneMoreAction(w: World, owned: MountState, actions: seq<Action>, i: nat)
    requires i < |actions|
    ensures AfterActions(AfterActions(w, owned, actions[..i]), owned, [actions[i]]) ==
            AfterActions(w, owned, actions[..i + 1])
  {
    assert actions[..i + 1] == actions[..i] + [actions[i]];
  }

  /** The actions of the plan in order (active_recovery.go:436-461). */
  method RunActions(host: Host, owned: MountState, actions: seq<Action>, service: Option<UnitState>)
    returns (done: Answer<bool>, ghost stopped: World)
    requires host.Inv() && KillIsOwned(host.View(), host.past, owned)
    modifies host.runtime, host`past
    ensures host.Inv() && Cleans(old(host.View()), old(host.past), host.View(), host.past)
    ensures KillIsOwned(host.View(), host.past, owned)
    ensures host.settled && Runnable(actions, service) ==>
      done == Known(true) && Ran(old(host.View()), stopped, host.View(), owned, actions, |actions|)
    ensures done.Known? && DrainOrphan in actions ==> host.past.drains > old(host.past).drains
  {
    hide Host.Inv, Evolves, NoSupervisor, KillIsOwned, Cleans, AfterActions, StopEffect, Ran;
    ghost var start, begun := host.View(), host.past;
    CleansIsReflexive(start, begun);
    stopped := start;
    NoActions(start, owned, actions);
    var ok := true;
    for i := 0 to |actions|
      invariant host.Inv() && Cleans(start, begun, host.View(), host.past)
      invariant KillIsOwned(host.View(), host.past, owned)
      invariant host.settled && Runnable(actions, service) ==> ok && Ran(start, stopped, host.View(), owned, actions, i)
      invariant DrainOrphan in actions[..i] ==> host.past.drains > begun.drains
    {
      ghost var before, p := host.View(), host.past;
      var acted := RunAction(host, owned, actions[i], service);
      CleansTwice(start, begun, before, p, host.View(), host.past);
      DrainsCount(before, p, host.View(), host.past);
      DrainsCount(start, begun, before, p);
      assert actions[..i + 1] == actions[..i] + [actions[i]];
      KillStaysOwned(before, p, host.View(), host.past, owned);
      if host.settled && Runnable(actions, service) {
        RunsOn(start, stopped, before, host.View(), owned, actions, service, i);
        stopped := if i > 0 then stopped else if actions[0] == StopService then host.View() else start;
      }
      if acted.Unknown? {
        done := Unknown;
        return;
      }
      ok := ok && acted.value;
    }
    done := Known(ok);
  }

  lemma DrainsCount(a: World, p: Past, b: World, q: Past)
    requires Cleans(a, p, b, q)
    ensures p.drains <= q.drains
  {
  }

  lemma NoActions(w: World, owned: MountState, actions: seq<Action>)
    ensures Ran(w, w, w, owned, actions, 0)
  {
  }

  /** The revalidation that precedes the clean-up (active_recovery.go:403-435): the process that may be killed. */
  method Revalidate(host: Host, active: MountState, actions: seq<Action>) returns (owner: Answer<Owner>)
    requires host.Inv() && host.record == Some(active)
    modifies host.runtime, host`past
    ensures host.Inv() && Cleans(old(host.View()), old(host.past), host.View(), host.past)
    ensures owner.Known? ==> Accounted(host.View(), host.past, active, owner.value.process)
    ensures owner.Known? && owner.value.process.None? && active.pid > 0 ==> NoneLeft(host.View())
    ensures host.settled && ActiveIsClear(old(host.View()), active) && PlansFor(old(host.View()), active, actions) ==>
      owner.Known? && Settled(host.View(), owner.value.process, owner.value.service) && host.View() == old(host.View())
  {
    hide Host.Inv, Evolves, NoSupervisor, CleansUp, Accounted, Unambiguous, Settled, OnlyAccepts, Faithful,
      DecideRecovery, CleanupPlan, RecoveryView;
    ghost var start, begun := host.View(), host.past;
    owner := Unknown;
    var observed := ObserveActive(host, active);
    ghost var seen, p := host.View(), host.past;
    CleansNothing(start, begun, seen, p);
    if observed.Known? {
      var current := DecideRecovery(observed.value);
      if current.Plan? && CleanupPlan(current.actions) == CleanupPlan(actions) {
        owner := VerifyOwner(host, active);
        CleansNothing(seen, p, host.View(), host.past);
        CleansTwice(start, begun, seen, p, host.View(), host.past);
      }
    }
  }

  lemma PlanIsRunnable(w: World, active: MountState, actions: seq<Action>, owner: Owner)
    requires ActiveIsClear(w, active) && PlansFor(w, active, actions) && Settled(w, owner.process, owner.service)
    ensures Runnable(actions, owner.service)
  {
    hide ActiveIsClear, PlansFor;
    PlanKinds(w, active, actions);
  }

  lemma UnservedIsGone(w: World, stopped: World, a: World, active: MountState, owner: Owner, actions: seq<Action>)
    requires Consistent(w) && !w.lost && RuntimeUnserved(w, active) && Settled(w, owner.process, owner.service)
    requires PlansFor(w, active, actions) && Ran(w, stopped, a, Owning(active, owner.process), actions, |actions|)
    ensures RuntimeGone(a, Owning(active, owner.process))
  {
    hide PlansFor, RuntimeUnserved, Settled, RuntimeGone, AfterActions, Owning;
    PlanKinds(w, active, actions);
    UnservedIsStopped(w, active);
    UnservedIsLetGo(w, active, owner, actions);
    assert actions[..|actions|] == actions;
  }

  lemma UnservedIsStopped(w: World, active: MountState)
    requires RuntimeUnserved(w, active)
    ensures !Running(w.unit)
  {
  }

  /** After the stop of its service, and whatever follows it, the record is still clear. */
  lemma ServiceIsStopped(
    w: World, stopped: World, a: World, p: Past, b: World, q: Past, active: MountState, owned: MountState,
    actions: seq<Action>
  )
    requires ActiveIsClear(w, active) && Running(w.unit) && PlansFor(w, active, actions) && KnownIdent(w, active)
    requires Ran(w, stopped, a, owned, actions, |actions|)
    requires Cleans(a, p, b, q) && OnlyRemoved(a, b) && Consistent(b)
    ensures RuntimeStopped(b, active)
  {
    hide PlansFor, ValidMountState, CleansUp;
    PlanKinds(w, active, actions);
  }

  /** What is left of a unit after the actions of a plan, once its last check has succeeded. */
  lemma CollectedWasUnserved(
    w: World, stopped: World, a: World, active: MountState, owned: MountState, actions: seq<Action>
  )
    requires ActiveIsClear(w, active) && !Running(w.unit) && PlansFor(w, active, actions)
    requires Ran(w, stopped, a, owned, actions, |actions|) && owned.attemptID == active.attemptID
    requires a.unit.NotFound? || FailedFor(a.unit, owned)
    ensures RuntimeUnserved(w, active)
  {
    hide PlansFor, ActiveIsClear;
    PlanKinds(w, active, actions);
  }

  lemma OwningKeepsAttempt(state: MountState, process: Option<VerifiedProcess>)
    ensures Owning(state, process).attemptID == state.attemptID
  {
  }

  lemma ActiveNamesProcess(active: MountState)
    requires ValidMountState(active) && active.phase == Active
    ensures active.pid > 0
  {
    hide ValidMountArgs;
  }

  /**
    * Cleanup of the executor: success means that nothing of the active runtime is left, under its own
    * record, and no mount: the record names the process, so that none is overlooked. On a settled host it
    * succeeds for a unit that does not run exactly if systemd has let go of the unit or it has failed.
    */
  method Cleanup(host: Host, active: MountState, actions: seq<Action>) returns (ok: bool, ghost seen: World)
    requires host.Inv() && host.record == Some(active) && ValidMountState(active) && active.phase == Active
    modifies host.runtime, host`past
    ensures host.Inv() && Cleans(old(host.View()), old(host.past), host.View(), host.past)
    ensures ok ==> RuntimeAbsentSince(seen, host.View(), active.stagingTarget)
    ensures ok ==> Quiet(seen)
    ensures host.settled && PlansFor(old(host.View()), active, actions) && ActiveIsClear(old(host.View()), active) ==>
      if Running(old(host.runtime.unit)) then RuntimeStopped(host.View(), active)
      else ok <==> RuntimeUnserved(old(host.View()), active)
  {
    hide Host.Inv, Evolves, NoSupervisor, CleansUp, Accounted, ValidMountState, KillIsOwned, RuntimeAbsentSince,
      Unambiguous, RuntimeGone, AfterActions, Owning, Settled, Consistent, Running, StopEffect, FailedFor,
      RecoveryView, DecideRecovery, Alive, RuntimeUnserved, OnlyOne, Quiet, PlansFor, Ran, OnlyRemoved,
      RuntimeStopped;
    ghost var start, begun := host.View(), host.past;
    ok, seen := false, start;
    host.Sound();
    RecordIsKnown(start, active);
    ActiveNamesProcess(active);
    var owner := Revalidate(host, active, actions);
    ghost var valid, p := host.View(), host.past;
    if owner.Known? {
      var owned := Owning(active, owner.value.process);
      host.Sound();
      OwningIsKillable(valid, p, active, owner.value.process);
      var done: Answer<bool>;
      ghost var stopped: World;
      if host.settled && ActiveIsClear(start, active) && PlansFor(start, active, actions) {
        PlanIsRunnable(start, active, actions, owner.value);
      }
      done, stopped := RunActions(host, owned, actions, owner.value.service);
      ghost var acted, q := host.View(), host.past;
      CleansTwice(start, begun, valid, p, acted, q);
      if done.Known? {
        KillableHasPID(acted, q, owned);
        if host.settled && PlansFor(start, active, actions) && ActiveIsClear(start, active) {
          if RuntimeUnserved(start, active) {
            UnservedIsGone(start, stopped, acted, active, owner.value, actions);
          }
        }
        OwnerIsKnown(valid, acted, p, active, owner.value.process);
        CleansIsEvolution(start, begun, valid, p);
        CleansIsEvolution(valid, p, acted, q);
        var absent: bool;
        absent, seen := EnsureAbsent(host, owned);
        CleansTwice(start, begun, acted, q, host.View(), host.past);
        NoneLeftStays(valid, acted);
        NoneLeftStays(acted, seen);
        AbsentHasStopped(seen, host.View(), active.stagingTarget);
        ok := done.value && absent;
        if host.settled && PlansFor(start, active, actions) && ActiveIsClear(start, active) {
          if Running(start.unit) {
            host.Sound();
            ServiceIsStopped(start, stopped, acted, q, host.View(), host.past, active, owned, actions);
          } else if ok {
            OwningKeepsAttempt(active, owner.value.process);
            CollectedWasUnserved(start, stopped, acted, active, owned, actions);
          }
        }
      }
    }
  }

  // ---- Candidates ------------------------------------------------------------------------------------

  /** The record that starts a recovery: the desired binary and argv, with the active ones as fallback. */
  predicate DesiredOf(active: MountState, binary: BinaryPath, args: seq<string>, desired: MountState) {
    && desired.phase == Starting && desired.reason == Recovery && SameMountIdentity(active, desired)
    && desired.binaryPath == binary && desired.mountArgs == args
    && desired.fallbackBinaryPath == active.binaryPath && desired.fallbackMountArgs == active.mountArgs
  }

  lemma DesiredIsSound(active: MountState, binary: BinaryPath, args: seq<string>, attempt: AttemptID, now: int)
    requires RecoveryCandidate(active, binary, args, attempt, now).Some?
    ensures var desired := RecoveryCandidate(active, binary, args, attempt, now).value;
      && DesiredOf(active, binary, args, desired) && StartingRecord(desired)
      && desired.pid == 0 && !desired.envPath.NoPath? && desired.phase == Starting && desired.createdAt == At(now)
  {
    hide ValidMountArgs, UsesDirectMountStrict;
  }

  /** A candidate that an active record can be recovered with. */
  predicate Startable(active: MountState, binary: BinaryPath, args: seq<string>) {
    && ValidMountState(active) && active.phase == Active && binary.ContentAddressed?
    && UsesDirectMountStrict(args) && ValidMountArgs(args, active.remoteRoot, active.stagingTarget)
  }

  lemma StartableIsAccepted(active: MountState, binary: BinaryPath, args: seq<string>, attempt: AttemptID, now: int)
    requires WellFormedAttempt(attempt) && attempt != active.attemptID
    ensures Startable(active, binary, args) ==>
      && RecoveryCandidate(active, binary, args, attempt, now).Some?
      && ValidTransition(Some(active), RecoveryCandidate(active, binary, args, attempt, now).value)
  {
    hide ValidMountArgs, UsesDirectMountStrict, ValidTransition, RecoveryCandidate;
    if Startable(active, binary, args) {
      RecoveryCandidateBuiltIff(active, binary, args, attempt, now);
    }
  }

  lemma AbsentIsCleared(seen: World, w: World, target: Target)
    requires RuntimeAbsentSince(seen, w, target) && w.startup == {}
    ensures ClearedSince(seen, w, target) && ClearSince(seen, w, target) && NoSupervisor(w)
    ensures !Running(seen.unit)
  {
  }

  /** NewDesired and Persist. */
  method CommitDesired(host: Host, active: MountState, binary: BinaryPath, args: seq<string>, ghost seen: World)
    returns (desired: Option<MountState>)
    requires host.Inv() && host.record == Some(active) && active.phase == Active && host.runtime.startup == {}
    requires RuntimeAbsentSince(seen, host.View(), active.stagingTarget)
    modifies host.runtime, host`record, host`past, host`lost
    ensures host.Inv() && host.lost == old(host.lost)
    ensures Later(old(host.View()), host.View()) && Proceeds(old(host.past), host.past)
    ensures ActsSee(old(host.past), host.past, seen) && host.past.starts == old(host.past).starts
    ensures host.record == old(host.record) ||
      (host.record.Some? && DesiredOf(active, binary, args, host.record.value))
    ensures desired.Some? ==>
      && host.record == desired && ClearSince(seen, host.View(), active.stagingTarget)
      && DesiredOf(active, binary, args, desired.value) && StartingRecord(desired.value)
      && ComesUp(true, host.View(), desired.value)
    ensures host.settled && Startable(active, binary, args) ==> desired.Some?
  {
    hide StartingRecord, Evolves, Host.Inv, NoSupervisor, ServesConsumers, RecoveryCandidate, ValidTransition,
      DesiredOf, Startable, RuntimeAbsentSince, ActsSee;
    ghost var start, begun := host.View(), host.past;
    AbsentIsCleared(seen, start, active.stagingTarget);
    EvolvesReflexive(start);
    EvolvingIsLater(start, start);
    AcceptingProceeds(begun, begun);
    NothingIsSeen(seen, begun, begun);
    desired := None;
    var attempt := host.NewAttemptID();
    if attempt.Some? {
      var now := host.Now();
      ghost var atNow := host.View();
      EvolvingIsLater(start, atNow);
      QuietStays(start, atNow);
      ClearedSinceEvolves(seen, start, atNow, active.stagingTarget);
      SupervisorsStayGone(start, atNow);
      var candidate := RecoveryCandidate(active, binary, args, attempt.value, now);
      StartableIsAccepted(active, binary, args, attempt.value, now);
      if candidate.Some? {
        DesiredIsSound(active, binary, args, attempt.value, now);
        var written := host.ReplaceRecord(candidate.value, seen);
        EvolvesThrough(start, atNow, host.View());
        EvolvingIsLater(start.(record := host.record), host.View());
        EvolvingIsLater(atNow.(record := host.record), host.View());
        if written {
          desired := candidate;
          ClearSinceEvolves(seen, start, host.View(), active.stagingTarget);
        }
      }
    }
  }

  lemma FallbackCandidateIsSound(desired: MountState, attempt: AttemptID, now: int)
    requires FallbackCandidate(desired, attempt, now).Some?
    ensures FallbackCandidate(desired, attempt, now) == FallbackRecord(desired, attempt, now)
  {
    hide ValidMountArgs, UsesDirectMountStrict;
  }

  lemma FallbackIsBuilt(desired: MountState, attempt: AttemptID, now: int)
    requires StartingRecord(desired) && WellFormedAttempt(attempt) && attempt != desired.attemptID
    requires !desired.fallbackBinaryPath.NoBinary? && UsesDirectMountStrict(desired.fallbackMountArgs)
    ensures FallbackCandidate(desired, attempt, now).Some?
    ensures ValidTransition(Some(desired), FallbackCandidate(desired, attempt, now).value)
  {
    hide ValidMountState, FallbackCandidate, ValidTransition, UsesDirectMountStrict;
    FallbackCandidateBuiltIff(desired, attempt, now);
  }

  /** NewFallback and Persist. */
  method PersistFallback(host: Host, desired: MountState, ghost seen: World) returns (committed: Option<MountState>)
    requires host.Inv() && StartingRecord(desired) && OfAttempt(host.record, desired) && host.runtime.startup == {}
    requires RuntimeAbsentSince(seen, host.View(), desired.stagingTarget) && (host.settled ==> Quiet(seen))
    modifies host.runtime, host`record, host`past, host`lost
    ensures host.Inv() && host.lost == old(host.lost)
    ensures Step(old(host.View()), old(host.past), host.View(), host.past, desired)
    ensures ActsSee(old(host.past), host.past, seen) && host.past.starts == old(host.past).starts
    ensures committed.Some? ==>
      && host.record == committed && ClearSince(seen, host.View(), desired.stagingTarget)
      && FallbackOf(desired, committed.value) && StartingRecord(committed.value)
      && !desired.fallbackBinaryPath.NoBinary?
    ensures host.settled && old(host.record) == Some(desired) ==>
      (!desired.fallbackBinaryPath.NoBinary? && UsesDirectMountStrict(desired.fallbackMountArgs) ==> committed.Some?)
  {
    hide StartingRecord, Evolves, Host.Inv, NoSupervisor, ServesConsumers, FallbackRecord, FallbackCandidate,
      ValidTransition, RuntimeAbsentSince, ActsSee, ClearedSince, ClearSince, Quiet, UsesDirectMountStrict, Step,
      SafeActs, OwnerMissed;
    ghost var start, begun := host.View(), host.past;
    AbsentIsCleared(seen, start, desired.stagingTarget);
    NoStep(start, begun, desired);
    NothingIsSeen(seen, begun, begun);
    committed := None;
    var attempt := host.NewAttemptID();
    if attempt.Some? {
      var now := host.Now();
      ghost var atNow := host.View();
      EvolvingIsLater(start, atNow);
      ClearedSinceEvolves(seen, start, atNow, desired.stagingTarget);
      LaterIsStep(start, begun, atNow, begun, desired);
      var fallback := FallbackCandidate(desired, attempt.value, now);
      if start.record == Some(desired) && !desired.fallbackBinaryPath.NoBinary? {
        if UsesDirectMountStrict(desired.fallbackMountArgs) {
          FallbackIsBuilt(desired, attempt.value, now);
        }
      }
      if fallback.Some? {
        FallbackCandidateIsSound(desired, attempt.value, now);
        FallbackIsSound(desired, attempt.value, now);
        committed := WriteFallback(host, desired, fallback.value, seen);
        StepTwice(start, begun, atNow, begun, host.View(), host.past, desired) by {
          AcceptingProceeds(begun, begun);
        }
      }
    }
  }

  /** A candidate that owns what is on the host beyond doubt. */
  predicate CandidateIsClear(w: World, state: MountState) {
    w.record == Some(state) && StartingRecord(state) && Unambiguous(w, state)
  }

  /** The ownership part of CleanupCandidate (active_recovery.go:499-531), without the stop. */
  method AttributeCandidate(host: Host, state: MountState)
    returns (owned: Option<MountState>, service: Option<UnitState>)
    requires host.Inv() && OfAttempt(host.record, state) && state.pid == 0
    modifies host.runtime, host`past
    ensures host.Inv() && Cleans(old(host.View()), old(host.past), host.View(), host.past)
    ensures owned.Some? ==> OwnedOf(host.View(), host.past, state, owned.value)
    ensures owned.Some? && owned.value.pid <= 0 && NoneToCome(old(host.View())) ==> NoneLeft(host.View())
    ensures host.settled && CandidateIsClear(old(host.View()), state) ==>
      && owned.Some? && OwnsAttempt(host.View(), state, owned.value) && service == ServiceOf(host.runtime.unit)
      && host.View() == old(host.View()) && ArtifactPathsMatch(owned.value)
  {
    hide Host.Inv, Evolves, NoSupervisor, CleansUp, Cleans, StartingRecord, CandidateIsClear, OwnsAttempt, OwnedOf,
      ArtifactPathsMatch, LiveSupervisor, Observation;
    ghost var start, begun := host.View(), host.past;
    owned, service := None, None;
    var process := ObserveStartingProcess(host, state);
    ghost var seen, p := host.View(), host.past;
    CleansNothing(start, begun, seen, p);
    host.Sound();
    NoneLeftStays(start, seen);
    NotRunningStays(start, seen);
    ClearIsObserved(start, state, process);
    if !process.ProcessMismatch? {
      if process.ProcessVerified? {
        LiveSupervisorIsOnly(seen, process.process);
        LiveIsIdentified(seen, process.process);
      }
      owned, service := AttributeObserved(host, state, process);
      CleansTwice(start, begun, seen, p, host.View(), host.past);
      CleansIsEvolution(seen, p, host.View(), host.past);
      NoneLeftStays(seen, host.View());
    }
  }

  lemma ClearIsObserved(w: World, state: MountState, process: StartingProcess)
    ensures CandidateIsClear(w, state) && Observation(w, state, process) ==> !process.ProcessMismatch?
  {
    hide ValidMountState;
  }

  lemma LiveIsIdentified(w: World, process: VerifiedProcess)
    requires LiveSupervisor(w, process)
    ensures process.pid > 0 && process.pidStartTime > 0
  {
  }

  /** The unit and its main process, after the process that the file names (active_recovery.go:509-531). */
  method AttributeObserved(host: Host, state: MountState, process: StartingProcess)
    returns (owned: Option<MountState>, service: Option<UnitState>)
    requires host.Inv() && OfAttempt(host.record, state) && state.pid == 0
    requires !process.ProcessMismatch? && Verified(host.View(), host.past, process)
    modifies host.runtime, host`past
    ensures host.Inv() && Cleans(old(host.View()), old(host.past), host.View(), host.past)
    ensures owned.Some? ==> OwnedOf(host.View(), host.past, state, owned.value)
    ensures owned.Some? && process.ProcessVerified? ==> owned.value.pid > 0
    ensures host.settled && CandidateIsClear(old(host.View()), state) && ShowsProcess(old(host.View()), process) ==>
      (Observation(old(host.View()), state, process) ==>
         && owned.Some? && OwnsAttempt(host.View(), state, owned.value) && service == ServiceOf(host.runtime.unit)
         && host.View() == old(host.View()) && ArtifactPathsMatch(owned.value))
  {
    hide Host.Inv, Evolves, NoSupervisor, CleansUp, Cleans, StartingRecord, OwnsAttempt, OwnedOf, ShowsProcess,
      ArtifactPathsMatch, LiveSupervisor, Observation, OnlyOne;
    ghost var start, begun := host.View(), host.past;
    owned, service := None, None;
    var unit := ObserveService(host, state);
    ghost var atUnit := host.View();
    CleansNothing(start, begun, atUnit, begun);
    if process.ProcessVerified? {
      OnlyOneStays(start, atUnit, IdentOf(process.process));
    }
    if unit.Known? {
      service := unit.value;
      owned := AttributeMain(host, state, process, service);
      CleansTwice(start, begun, atUnit, begun, host.View(), host.past);
    }
  }

  predicate ShowsProcess(w: World, process: StartingProcess) {
    !process.ProcessMismatch? && (process.ProcessVerified? ==> LiveSupervisor(w, process.process))
  }

  method AttributeMain(host: Host, state: MountState, process: StartingProcess, service: Option<UnitState>)
    returns (owned: Option<MountState>)
    requires host.Inv() && state.pid == 0 && Verified(host.View(), host.past, process)
    modifies host.runtime, host`past
    ensures host.Inv() && Cleans(old(host.View()), old(host.past), host.View(), host.past)
    ensures owned.Some? ==> OwnedOf(host.View(), host.past, state, owned.value)
    ensures owned.Some? && process.ProcessVerified? ==> owned.value.pid > 0
    ensures host.settled && CandidateIsClear(old(host.View()), state) && ShowsProcess(old(host.View()), process) ==>
      (Observation(old(host.View()), state, process) && service == ServiceOf(old(host.runtime.unit)) ==>
         && owned.Some? && OwnsAttempt(host.View(), state, owned.value) && host.View() == old(host.View())
         && ArtifactPathsMatch(owned.value))
  {
    hide Host.Inv, Evolves, NoSupervisor, Cleans, Consistent, ValidMountArgs, RemotePath.CanonicalRemoteRoot,
      RemotePath.CanonicalStagingTarget, UsesDirectMountStrict;
    ghost var start, begun := host.View(), host.past;
    host.Sound();
    owned := Some(if process.ProcessVerified? then WithProcess(state, process.process) else state);
    if Live(service) {
      var main := VerifyStartingMainPID(host, state);
      host.Sound();
      if process.ProcessVerified? {
        OnlyOneStays(start, host.View(), IdentOf(process.process));
      }
      if main.Known? && main.value.Some? {
        LiveSupervisorIsOnly(host.View(), main.value.value);
      }
      CleansNothing(start, begun, host.View(), host.past);
      if host.settled && ShowsProcess(start, process) && process.ProcessVerified? && main.Known? && main.value.Some? {
        OneSupervisor(start, main.value.value, process.process);
      }
      if main.Unknown? {
        owned := None;
      } else if main.value.Some? {
        owned := if process.ProcessVerified? && IdentOf(process.process) != IdentOf(main.value.value) then None
                 else Some(WithProcess(state, main.value.value));
      }
    } else {
      CleansIsReflexive(start, begun);
    }
  }

  /** Stop, unmount and terminate the candidate (active_recovery.go:532-553): Unknown is an early error return. */
  method ReleaseCandidate(host: Host, state: MountState, owned: MountState, service: Option<UnitState>)
    returns (done: Answer<bool>, ghost stopped: World)
    requires host.Inv() && OwnedOf(host.View(), host.past, state, owned)
    modifies host.runtime, host`past
    ensures host.Inv() && Cleans(old(host.View()), old(host.past), host.View(), host.past)
    ensures OwnedOf(host.View(), host.past, state, owned)
    ensures host.settled ==>
      && done == Known(true) && host.View() == Released(stopped, owned)
      && (if Live(service) then StopEffect(old(host.View()), stopped) else stopped == old(host.View()))
  {
    hide Host.Inv, Evolves, NoSupervisor, CleansUp, Cleans, StopEffect;
    ghost var start, begun := host.View(), host.past;
    done := Unknown;
    var unmounted: Answer<bool>;
    unmounted, stopped := StopCandidate(host, state, service);
    ghost var a, p := host.View(), host.past;
    OwnedStays(start, begun, a, p, state, owned);
    if unmounted.Known? {
      var terminated := TerminateCandidate(host, state, owned);
      CleansTwice(start, begun, a, p, host.View(), host.past);
      OwnedStays(a, p, host.View(), host.past, state, owned);
      if terminated {
        done := unmounted;
      }
    }
  }

  method StopCandidate(host: Host, state: MountState, service: Option<UnitState>)
    returns (done: Answer<bool>, ghost stopped: World)
    requires host.Inv()
    modifies host.runtime, host`past
    ensures host.Inv() && Cleans(old(host.View()), old(host.past), host.View(), host.past)
    ensures host.settled ==>
      && done == Known(true) && host.View() == stopped.(mounts := stopped.mounts - {state.stagingTarget})
      && (if Live(service) then StopEffect(old(host.View()), stopped) else stopped == old(host.View()))
  {
    hide Host.Inv, Persists, OnlySurvivors, Shrinks, NoSupervisor, StopEffect;
    EvolvesComposes();
    done := Unknown;
    var ok := true;
    if Live(service) {
      ok := host.StopUnit();
    }
    stopped := host.View();
    if ok {
      var mounted := host.IsMountPoint(state.stagingTarget);
      if mounted == Known(true) {
        var unmounted := UnmountActive(host, state.stagingTarget);
        done := Known(unmounted);
      } else if mounted == Known(false) {
        done := Known(true);
      }
    }
  }

  method TerminateCandidate(host: Host, state: MountState, owned: MountState) returns (ok: bool)
    requires host.Inv() && OwnedOf(host.View(), host.past, state, owned)
    modifies host.runtime, host`past
    ensures host.Inv() && Cleans(old(host.View()), old(host.past), host.View(), host.past)
    ensures host.settled ==> ok && host.View() == old(host.View()).(procs :=
      if owned.pid > 0 && Alive(old(host.View()), RecordedIdent(owned))
      then old(host.runtime.procs) - {RecordedIdent(owned).pid} else old(host.runtime.procs))
  {
    hide Host.Inv, Evolves, NoSupervisor, CleansUp, Cleans;
    ghost var start, begun := host.View(), host.past;
    CleansIsReflexive(start, begun);
    ok := true;
    if owned.pid > 0 {
      host.Sound();
      var alive := StoppingPIDAlive(host, owned);
      ghost var seen, p := host.View(), host.past;
      CleansLooking(start, begun, seen, p);
      ok := alive.Known?;
      if alive == Known(true) {
        host.Sound();
        ok := TerminateOrphan(host, owned);
        CleansTwice(start, begun, seen, p, host.View(), host.past);
      }
    }
  }

  /**
    * CleanupCandidate: success means that the failed candidate has left nothing, so the fallback may follow;
    * surely no mount either, if no supervisor can come any more as this begins, or its process is found.
    * NothingIsOverlookedIff says that this is exact.
    */
  method CleanupCandidate(host: Host, state: MountState) returns (ok: bool, ghost seen: World, ghost found: bool)
    requires host.Inv() && OfAttempt(host.record, state) && state.pid == 0
    modifies host.runtime, host`past
    ensures host.Inv() && Cleans(old(host.View()), old(host.past), host.View(), host.past)
    ensures ok ==> RuntimeAbsentSince(seen, host.View(), state.stagingTarget) && host.runtime.startup == {}
    ensures Evolves(old(host.View()), seen)
    ensures ok && (host.settled || found || PassIsSure(old(host.View()), state)) ==> Quiet(seen)
    ensures host.settled && CandidateIsClear(old(host.View()), state) ==> ok || AttemptIsDead(host.View(), state)
  {
    hide Host.Inv, Evolves, NoSupervisor, CleansUp, Cleans, OwnsAttempt, CandidateIsClear, StopEffect, AttemptIsDead,
      Released, Consistent, Alive, ArtifactPathsMatch, RuntimeAbsentSince, OnlyOne;
    ghost var start, begun := host.View(), host.past;
    ok := false;
    var owned, service := AttributeCandidate(host, state);
    ghost var a, p := host.View(), host.past;
    CleansIsEvolution(start, begun, a, p);
    seen := a;
    found := owned.Some? && owned.value.pid > 0;
    if owned.Some? {
      var done: Answer<bool>;
      ghost var stopped: World;
      host.Sound();
      done, stopped := ReleaseCandidate(host, state, owned.value, service);
      ghost var b, q := host.View(), host.past;
      CleansTwice(start, begun, a, p, b, q);
      CleansIsEvolution(start, begun, b, q);
      if host.settled && CandidateIsClear(start, state) {
        ClearIsLetGo(start, stopped, b, state, owned.value, service);
      }
      if done.Known? {
        var removed: bool;
        removed, seen := RemoveCandidate(host, state, owned.value);
        CleansTwice(start, begun, b, q, host.View(), host.past);
        EvolvesTwice(start, b, seen);
        CleansIsEvolution(a, p, b, q);
        NoneLeftStays(a, b);
        NoneLeftStays(b, seen);
        AbsentHasStopped(seen, host.View(), state.stagingTarget);
        ok := done.value && removed;
      }
    }
  }

  lemma ClearIsLetGo(
      w: World, stopped: World, b: World, state: MountState, owned: MountState, service: Option<UnitState>
  )
    requires Consistent(w) && !w.lost && CandidateIsClear(w, state) && OwnsAttempt(w, state, owned)
    requires owned.stagingTarget == state.stagingTarget && service == ServiceOf(w.unit)
    requires if Live(service) then StopEffect(w, stopped) else stopped == w
    requires b == Released(stopped, owned)
    ensures CandidateIsReleased(b, state, owned)
  {
    hide StartingRecord, StopEffect, Consistent, OwnsAttempt, AttemptIsDead, Unambiguous, Released;
    AttemptIsLetGo(w, stopped, b, state, owned);
  }

  /** What the release of a candidate leaves on a settled host. */
  predicate CandidateIsReleased(w: World, state: MountState, owned: MountState) {
    && AttemptIsDead(w, state) && state.stagingTarget !in w.mounts && NoSupervisor(w)
    && (owned.pid > 0 ==> !Alive(w, RecordedIdent(owned)))
    && (state.stagingTarget in w.processStates ==> w.processStates[state.stagingTarget].ident in w.born)
  }

  lemma DeadStays(a: World, b: World, state: MountState, owned: MountState)
    requires CandidateIsReleased(a, state, owned) && Evolves(a, b) && Consistent(b) && !b.lost
    ensures AttemptIsDead(b, state)
  {
    hide StartingRecord;
  }

  /** Startup files, then ensureOldRuntimeAbsent; both are tried (active_recovery.go:554-560). */
  method RemoveCandidate(host: Host, state: MountState, owned: MountState) returns (ok: bool, ghost seen: World)
    requires host.Inv() && OfAttempt(host.record, state) && OwnedOf(host.View(), host.past, state, owned)
    modifies host.runtime, host`past
    ensures host.Inv() && Cleans(old(host.View()), old(host.past), host.View(), host.past)
    ensures ok ==> RuntimeAbsentSince(seen, host.View(), state.stagingTarget) && host.runtime.startup == {}
    ensures Evolves(old(host.View()), seen) && (ok && (host.settled || owned.pid > 0) ==> Quiet(seen))
    ensures host.settled && CandidateIsReleased(old(host.View()), state, owned) && ArtifactPathsMatch(owned) ==>
      ok || AttemptIsDead(host.View(), state)
  {
    hide Host.Inv, Evolves, NoSupervisor, CleansUp, RuntimeAbsentSince, CandidateIsReleased, ArtifactPathsMatch,
      AttemptIsDead, OnlyOne;
    ghost var start, begun := host.View(), host.past;
    var removed := RemoveAttemptStartupFiles(host, state);
    ghost var a, p := host.View(), host.past;
    OwnedStays(start, begun, a, p, state, owned);
    host.Sound();
    var absent: bool;
    absent, seen := EnsureAbsent(host, owned);
    CleansTwice(start, begun, a, p, host.View(), host.past);
    CleansIsEvolution(a, p, host.View(), host.past);
    EvolvesTwice(start, a, seen);
    EvolvesTwice(start, a, host.View());
    ReplaceableStays(a, host.View());
    ok := removed && absent;
    host.Sound();
    if host.settled && CandidateIsReleased(start, state, owned) {
      DeadStays(start, host.View(), state, owned);
    }
  }

  // ---- The coordinator -------------------------------------------------------------------------------

  datatype RecoveryResult = AlreadyHealthy | Recovered | StillDegraded

  /**
    * What a recovery may make of the record: it keeps serving its consumers at the same target, with
    * exactly the active binary and argv or exactly the desired ones.
    */
  predicate RecoverySucceeds(active: MountState, binary: BinaryPath, args: seq<string>, record: Option<MountState>) {
    && record.Some? && SameMountIdentity(active, record.value) && ServesConsumers(record.value)
    && (|| (record.value.binaryPath == binary && record.value.mountArgs == args)
        || (record.value.binaryPath == active.binaryPath && record.value.mountArgs == active.mountArgs))
  }

  lemma DesiredSucceeds(
      active: MountState, binary: BinaryPath, args: seq<string>, desired: MountState, record: Option<MountState>
  )
    requires DesiredOf(active, binary, args, desired) && Succeeds(Some(desired), record, desired)
    ensures RecoverySucceeds(active, binary, args, record)
  {
  }

  /** Prepare: the credentials must be those of the desired argv. */
  predicate Prepared(args: seq<string>, credentials: Credentials) {
    ServerOf(args) == Some(credentials.server) && credentials.apiKey != ""
  }

  /** Start of the executor: nothing but a look at the mount from after the unit had stopped leads here. */
  method StartCandidate(host: Host, state: MountState, credentials: Credentials, ghost seen: World)
    returns (promoted: bool)
    requires host.Inv() && StartingRecord(state) && !Running(seen.unit) && (host.settled ==> Quiet(seen))
    requires host.record == Some(state) && ClearSince(seen, host.View(), state.stagingTarget)
    modifies host.runtime, host`record, host`past, host`lost
    ensures host.Inv() && host.lost == old(host.lost)
    ensures Step(old(host.View()), old(host.past), host.View(), host.past, state)
    ensures ActsSee(old(host.past), host.past, seen)
    ensures host.past.starts == old(host.past).starts ==> ClearSince(seen, host.View(), state.stagingTarget)
    ensures OfAttempt(host.record, state)
    ensures promoted ==> host.record.value.phase == Active
    ensures host.settled && Resumable(state, Some(credentials)) ==>
      Started(old(host.past), host.past, state) && (ComesUp(host.prompt, old(host.View()), state) ==> promoted)
  {
    hide Host.Inv, StartingRecord, NoSupervisor, Step, PromotedFrom, Started, ActsSee, SafeActs, OwnerMissed,
      ClearSince, Quiet, Running, ComesUp;
    var result, _ := ResumeStarting(host, state, Some(credentials), seen);
    promoted := result == Promoted;
  }

  /** The fallback's turn, once the desired candidate has failed (active_recovery.go:234-257). */
  method FallBack(host: Host, desired: MountState, credentials: Credentials) returns (promoted: bool)
    requires host.Inv() && StartingRecord(desired) && OfAttempt(host.record, desired)
    modifies host.runtime, host`record, host`past, host`lost
    ensures host.Inv() && host.lost == old(host.lost)
    ensures Step(old(host.View()), old(host.past), host.View(), host.past, desired)
    ensures SeenStopped(old(host.past), host.past)
    ensures NoneToCome(old(host.View())) ==> FirstStartIsSure(old(host.past), host.past)
    ensures promoted ==> host.record.Some? && host.record.value.phase == Active
    ensures host.settled && CandidateIsClear(old(host.View()), desired) && FallbackReady(desired, Some(credentials)) ==>
      || (exists fallback :: FallbackOf(desired, fallback) && Started(old(host.past), host.past, fallback))
      || AttemptIsDead(host.View(), desired)
  {
    hide Host.Inv, StartingRecord, NoSupervisor, Step, PromotedFrom, Cleans, RuntimeAbsentSince, Started, Resumable,
      Unambiguous, AttemptIsDead, ServerOf, ValidCredentials, ActsSee, SafeActs, OwnerMissed, ClearSince, Quiet,
      Running, SeenStopped, Evolves;
    ghost var start, begun := host.View(), host.past;
    promoted := false;
    NoProcessYet(desired);
    var clean: bool;
    ghost var seen: World;
    ghost var found: bool;
    clean, seen, found := CleanupCandidate(host, desired);
    ghost var cleaned, p := host.View(), host.past;
    CleansIsStep(start, begun, cleaned, p, desired);
    CleansStartsNothing(start, begun, cleaned, p);
    NothingIsSeenStopped(begun, p);
    if clean {
      AbsentIsCleared(seen, cleaned, desired.stagingTarget);
      var fallback := PersistFallback(host, desired, seen);
      ghost var persisted, q := host.View(), host.past;
      ActsSeeStopped(p, q, seen);
      if fallback.Some? {
        FallbackIsResumable(desired, fallback.value, Some(credentials));
        promoted := StartCandidate(host, fallback.value, credentials, seen);
        FallbackStep(cleaned, p, persisted, q, host.View(), host.past, desired, fallback.value);
        StepStarts(persisted, q, host.View(), host.past, fallback.value);
        StartedLater(begun, q, host.past, fallback.value);
        if Quiet(seen) {
          FirstIsSeen(q, host.past, seen);
        }
        ActsSeeStopped(q, host.past, seen);
        SeenStoppedTwice(p, q, host.past);
      }
      StepAfterCleanup(start, begun, cleaned, p, host.View(), host.past, desired);
      SeenStoppedTwice(begun, p, host.past);
    }
  }

  lemma ClearIsQuiet(seen: World, w: World, target: Target)
    requires ClearSince(seen, w, target) && !Running(seen.unit)
    ensures Quiet(w)
  {
  }

  /** Start the desired candidate, and fall back if that fails (active_recovery.go:231-257). */
  method StartOrFallBack(host: Host, desired: MountState, credentials: Credentials, ghost seen: World)
    returns (promoted: bool)
    requires host.Inv() && StartingRecord(desired) && !Running(seen.unit) && (host.settled ==> Quiet(seen))
    requires host.record == Some(desired) && ClearSince(seen, host.View(), desired.stagingTarget)
    modifies host.runtime, host`record, host`past, host`lost
    ensures host.Inv() && host.lost == old(host.lost)
    ensures Step(old(host.View()), old(host.past), host.View(), host.past, desired)
    ensures SeenStopped(old(host.past), host.past)
    ensures Quiet(seen) ==> FirstStartIsSure(old(host.past), host.past)
    ensures promoted ==> host.record.Some? && host.record.value.phase == Active
    ensures host.settled && Resumable(desired, Some(credentials)) ==>
      Started(old(host.past), host.past, desired) && (ComesUp(host.prompt, old(host.View()), desired) ==> promoted)
  {
    hide Host.Inv, StartingRecord, NoSupervisor, Step, PromotedFrom, Started, Resumable, ActsSee, ClearSince, Quiet,
      Running, SeenStopped, ComesUp;
    ghost var start, begun := host.View(), host.past;
    promoted := StartCandidate(host, desired, credentials, seen);
    StepStarts(start, begun, host.View(), host.past, desired);
    ActsSeeStopped(begun, host.past, seen);
    if Quiet(seen) {
      FirstIsSeen(begun, host.past, seen);
    }
    if !promoted {
      ghost var failed, p := host.View(), host.past;
      if ClearSince(seen, failed, desired.stagingTarget) {
        ClearIsQuiet(seen, failed, desired.stagingTarget);
      }
      promoted := FallBack(host, desired, credentials);
      StepThenStep(start, begun, failed, p, host.View(), host.past, desired);
      StepStarts(failed, p, host.View(), host.past, desired);
      StartedLater(begun, p, host.past, desired);
      SeenStoppedTwice(begun, p, host.past);
    }
  }

  /**
    * What a settled host makes of a record that owns its runtime beyond doubt: a healthy mount is left alone,
    * a service that no longer serves is stopped, so that the same holds now or in the next pass, and where no
    * service runs the desired candidate follows if and only if systemd has let go of the unit or it has failed.
    */
  predicate Restores(
    before: World, after: World, active: MountState, binary: BinaryPath, args: seq<string>, result: RecoveryResult,
    committed: Option<MountState>
  ) {
    ActiveIsClear(before, active) && Startable(active, binary, args) ==>
      if Healthy(RecoveryView(before, active)) then result == AlreadyHealthy
      else if Running(before.unit) then committed.Some? || RuntimeStopped(after, active)
      else committed.Some? <==> RuntimeUnserved(before, active)
  }

  /** A host on which the stopped unit of an active record has stayed loaded. */
  function Inactive(active: MountState): World {
    World(Some(active), Loaded(UnitInactive, active.attemptID, true, 0), map[],
      {Ident(if active.pid > 0 then active.pid else 0, active.pidStartTime)}, {}, map[], {}, {}, 0, false)
  }

  /** So recovery does not go on from there: Restores then says that nothing is committed. */
  lemma InactiveIsNotRecovered(active: MountState)
    requires ValidMountState(active) && active.phase == Active
    ensures var w := Inactive(active);
      && Consistent(w) && ActiveIsClear(w, active) && !Running(w.unit) && !RuntimeUnserved(w, active)
      && forall after, binary, args, result, committed |
        Startable(active, binary, args) && Restores(w, after, active, binary, args, result, committed) ::
          committed == None
  {
    hide ValidMountArgs, RemotePath.CanonicalRemoteRoot, RemotePath.CanonicalStagingTarget, Startable;
  }

  /**
    * coordinateActiveRecovery. The active record, and so the stated intent, stays in place until nothing
    * of its runtime is left; whatever fails, the record goes on serving its consumers, and it never runs
    * anything but the desired candidate or exactly what was active before. It never starts a service or
    * replaces a record beside another supervisor, and its first start surely finds a vacant target. On a
    * settled host it restores, and on a prompt one what it starts is up.
    */
  method Coordinate(
    host: Host, active: MountState, binary: BinaryPath, args: seq<string>, credentials: Credentials,
    observation: RecoveryObservation
  ) returns (result: RecoveryResult, ghost committed: Option<MountState>)
    requires host.Inv() && host.record == Some(active) && ValidMountState(active) && active.phase == Active
    modifies host.runtime, host`record, host`past, host`lost
    ensures host.Inv() && host.lost == old(host.lost)
    ensures Later(old(host.View()), host.View()) && Proceeds(old(host.past), host.past)
    ensures SeenStopped(old(host.past), host.past)
    ensures FirstStartIsSure(old(host.past), host.past)
    ensures RecoverySucceeds(active, binary, args, host.record)
    ensures result == AlreadyHealthy <==> DecideRecovery(observation) == Plan([Skip])
    ensures result == AlreadyHealthy || DecideRecovery(observation).Plan? == false ==>
      host.record == Some(active) && host.past == old(host.past)
    ensures result == Recovered ==> host.record.value.phase == Active
    ensures committed.Some? ==>
      DesiredOf(active, binary, args, committed.value) && Succeeds(committed, host.record, committed.value)
    ensures host.settled && observation == RecoveryView(old(host.View()), active) && Prepared(args, credentials) ==>
      Restores(old(host.View()), host.View(), active, binary, args, result, committed)
    ensures host.settled && committed.Some? && ValidCredentials(credentials) ==>
      Started(old(host.past), host.past, committed.value) && (host.prompt ==> result == Recovered)
  {
    hide Host.Inv, ValidMountState, Evolves, NoSupervisor, Proceeds, DecideRecovery, Cleans, Startable, Unambiguous,
      Prepared, Started, ValidCredentials, StartingRecord, Resumable, RecoveryView, RuntimeStopped, FailedFor,
      SeenStopped, Quiet, Succeeds, RecoverySucceeds, Later, FirstStartIsSure;
    RecoveryBegins(host.View(), host.past, active, binary, args);
    ViewIsDecided(host.View(), active);
    AcceptingProceeds(host.past, host.past);
    NothingIsSeenStopped(host.past, host.past);
    result, committed := StillDegraded, None;
    var decision := DecideRecovery(observation);
    if decision == Plan([Skip]) {
      result := AlreadyHealthy;
    } else if decision.Plan? && Prepared(args, credentials) {
      var recovered: bool;
      recovered, committed := Recover(host, active, binary, args, credentials, decision.actions);
      result := if recovered then Recovered else StillDegraded;
      if committed.Some? {
        DesiredIsResumable(committed.value, credentials);
      }
    }
  }

  lemma RecoveryBegins(w: World, past: Past, active: MountState, binary: BinaryPath, args: seq<string>)
    requires w.record == Some(active) && active.phase == Active
    ensures RecoverySucceeds(active, binary, args, w.record) && Later(w, w) && FirstStartIsSure(past, past)
  {
  }

  lemma ViewIsDecided(w: World, active: MountState)
    ensures DecideRecovery(RecoveryView(w, active)).Plan?
    ensures DecideRecovery(RecoveryView(w, active)) == Plan([Skip]) <==> Healthy(RecoveryView(w, active))
  {
  }

  lemma DesiredIsResumable(desired: MountState, credentials: Credentials)
    requires StartingRecord(desired) && Prepared(desired.mountArgs, credentials)
    ensures ValidCredentials(credentials) ==> Resumable(desired, Some(credentials))
  {
    hide ValidMountState, ValidCredentials;
    ResumableIff(desired, credentials);
  }

  /** Clean up, commit the desired candidate, and start it (active_recovery.go:209-257). */
  method Recover(
    host: Host, active: MountState, binary: BinaryPath, args: seq<string>, credentials: Credentials,
    actions: seq<Action>
  ) returns (recovered: bool, ghost committed: Option<MountState>)
    requires host.Inv() && host.record == Some(active) && ValidMountState(active) && active.phase == Active
    modifies host.runtime, host`record, host`past, host`lost
    ensures host.Inv() && host.lost == old(host.lost)
    ensures Later(old(host.View()), host.View()) && Proceeds(old(host.past), host.past)
    ensures SeenStopped(old(host.past), host.past)
    ensures FirstStartIsSure(old(host.past), host.past)
    ensures RecoverySucceeds(active, binary, args, host.record)
    ensures recovered ==> committed.Some? && host.record.value.phase == Active
    ensures committed.Some? ==>
      && DesiredOf(active, binary, args, committed.value) && StartingRecord(committed.value)
      && Succeeds(committed, host.record, committed.value)
    ensures host.settled && PlansFor(old(host.View()), active, actions) && ActiveIsClear(old(host.View()), active) ==>
      (Startable(active, binary, args) ==>
         if Running(old(host.runtime.unit)) then committed.Some? || RuntimeStopped(host.View(), active)
         else committed.Some? <==> RuntimeUnserved(old(host.View()), active))
    ensures host.settled && committed.Some? && Resumable(committed.value, Some(credentials)) ==>
      Started(old(host.past), host.past, committed.value) && (host.prompt ==> recovered)
  {
    hide Host.Inv, ValidMountState, Evolves, NoSupervisor, Proceeds, Cleans, CleansUp, RuntimeAbsentSince,
      StartingRecord, Succeeds, RuntimeUnserved, Startable, PlansFor, Started, Resumable, ActiveIsClear, Running,
      RuntimeStopped, ActsSee, SeenStopped, ClearSince, Quiet;
    ghost var start, begun := host.View(), host.past;
    NothingIsSeenStopped(begun, begun);
    recovered, committed := false, None;
    var clean: bool;
    ghost var seen: World;
    clean, seen := Cleanup(host, active, actions);
    ghost var cleaned, p := host.View(), host.past;
    CleanupIsLater(start, begun, cleaned, p);
    CleansStartsNothing(start, begun, cleaned, p);
    NothingIsSeenStopped(begun, p);
    if clean {
      host.Sound();
      ActiveHasNoStartupFiles(cleaned, active);
      AbsentIsCleared(seen, cleaned, active.stagingTarget);
      var desired := CommitDesired(host, active, binary, args, seen);
      ghost var stated, q := host.View(), host.past;
      ActsSeeStopped(p, q, seen);
      SeenStoppedTwice(begun, p, q);
      ProceedsTwice(begun, p, q);
      committed := desired;
      if desired.Some? {
        recovered := StartOrFallBack(host, desired.value, credentials, seen);
        ProceedsTwice(begun, q, host.past);
        ProceedingStarts(begun, q);
        ProceedingStarts(q, host.past);
        StartedLater(begun, q, host.past, desired.value);
        SeenStoppedTwice(begun, q, host.past);
        DesiredSucceeds(active, binary, args, desired.value, host.record);
      }
    }
  }

  lemma ActiveHasNoStartupFiles(w: World, active: MountState)
    requires Consistent(w) && w.record == Some(active) && ValidMountState(active) && active.phase == Active
    ensures w.startup == {}
  {
    hide ValidMountArgs;
  }

  lemma CleanupIsLater(a: World, p: Past, b: World, q: Past)
    requires Cleans(a, p, b, q) && a.record.Some?
    ensures Later(a, b) && Proceeds(p, q) && b.record == a.record
  {
  }
}
