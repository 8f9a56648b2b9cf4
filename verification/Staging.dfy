/**
  * Staging, unstaging and boot recovery of one volume (internal/driver/driver.go:630-987 and 1353-1411,
  * node_state_first.go:102-157, node_recovery.go:84-251). Capability checks, Kubernetes and remote lookups
  * and directory creation are gates that may open or not.
  */
module Staging {
  import opened Text
  import opened MountArgs
  import opened MountRecord
  import opened LaunchRequest
  import opened World
  import opened Host
  import opened Ownership
  import opened Stop
  import opened Lifecycle
  import opened Starting
  import opened Recovery
  import opened NoState
  import opened Launch

  // ---- The local health check ---------------------------------------------------------------------

  /** What a healthy mount is on a host where nothing moves. */
  predicate ServedAt(w: World, active: MountState, target: Target) {
    && target in w.mounts && target in w.sockets
    && w.unit.Loaded? && w.unit.state.UnitActive? && w.unit.attempt == active.attemptID
    && Alive(w, RecordedIdent(active)) && Supervises(w, RecordedIdent(active).pid)
  }

  /** The same with everything that the checks look at in agreement with the record. */
  predicate HealthyMount(w: World, active: MountState, target: Target) {
    && active.phase == Active && active.stagingTarget == target && active.pid > 0
    && target in w.mounts && target in w.sockets
    && RecordedAt(w, target, RecordedIdent(active))
    && Attributed(w, RecordedIdent(active), target, active.binaryPath)
    && w.unit.Loaded? && w.unit.state.UnitActive? && MainAttributed(w, active, false) && w.unit.mainPID == active.pid
  }

  /** The process, the socket and the service of an active mount (node_state_first.go:124-155). */
  method VerifyServing(host: Host, active: MountState) returns (ok: bool)
    requires host.Inv() && active.pid > 0
    modifies host.runtime, host`past
    ensures host.Observed() && OnlyAccepts(old(host.past), host.past)
    ensures host.settled && ok ==>
      ServedAt(host.View().(mounts := {active.stagingTarget}), active, active.stagingTarget)
    ensures host.settled && HealthyMount(old(host.View()), active, active.stagingTarget) ==> ok
  {
    hide Evolves, Host.Inv, NoSupervisor;
    ghost var start := host.View();
    ok := false;
    var process := VerifyProcessOwnership(host, active, Some(RecordedIdent(active)));
    ghost var atProcess := host.View();
    if process.Known? {
      var socket := host.LstatControlSocket(active.stagingTarget);
      ghost var atSocket := host.View();
      EvolvesTwice(start, atProcess, atSocket);
      if socket == Known(RealSocket) {
        var service := host.QueryUnit();
        ghost var atUnit := host.View();
        EvolvesTwice(start, atSocket, atUnit);
        if service == Known(Some(UnitActive)) {
          var main := VerifySystemdMainPID(host, active);
          EvolvesTwice(start, atUnit, host.View());
          ok := main.Known? && IdentOf(main.value) == RecordedIdent(active);
        }
      }
    }
  }

  /** verifyActiveMountLocally: the gate for publishing and for a stage that finds its work done. */
  method VerifyActiveLocally(host: Host, state: MountState, target: Target) returns (ok: bool)
    requires host.Inv()
    modifies host.runtime, host`past
    ensures host.Observed() && OnlyAccepts(old(host.past), host.past)
    ensures ok ==> state.phase == Active && state.stagingTarget == target
    ensures host.settled && ok ==> ServedAt(host.View(), state, target)
    ensures host.settled && HealthyMount(old(host.View()), state, target) ==> ok
  {
    hide Evolves, Host.Inv, NoSupervisor, Attributed;
    ghost var start := host.View();
    ok := false;
    var capable := host.Gate();
    if capable && state.phase == Active && state.stagingTarget == target && state.pid > 0 {
      var mounted := host.IsMountPoint(target);
      ghost var atMount := host.View();
      if mounted == Known(true) {
        ok := VerifyServing(host, state);
        EvolvesTwice(start, atMount, host.View());
      }
    } else {
      host.Interfere();
    }
  }

  // ---- Records left behind -------------------------------------------------------------------------

  /** Only a stop without consumers takes a mount from those it may serve. */
  predicate Keeps(before: Option<MountState>, after: Option<MountState>, consumers: Answer<nat>) {
    KeepsConsumers(before, after) || consumers == Known(0)
  }

  lemma KeepsTwice(a: Option<MountState>, b: Option<MountState>, c: Option<MountState>)
    requires KeepsConsumers(a, b) && KeepsConsumers(b, c)
    ensures KeepsConsumers(a, c)
  {
  }

  lemma StepKeeps(a: World, p: Past, b: World, q: Past, state: MountState)
    requires Step(a, p, b, q, state)
    ensures KeepsConsumers(a.record, b.record)
    ensures b.record.Some? ==> b.record.value.stagingTarget == state.stagingTarget
  {
  }

  /** A record that a stop, or the rest of one, takes away from a settled host. */
  predicate StopsFor(w: World, state: MountState, intent: StopIntent) {
    if state.phase == Stopping then Stoppable(w, state)
    else w.record == Some(state) && MayStop(state, 0, intent) && Committable(w, state)
  }

  /** The unit has been stopped, and the next pass takes the rest away. */
  predicate AlmostStopped(w: World, state: MountState) {
    && w.record.Some? && Stoppable(w, w.record.value) && !Running(w.unit)
    && SameMountIdentity(state, w.record.value)
  }

  /** Stop a mount, or go on stopping it (driver.go:966-985 and 1387-1409). */
  method StopOrContinue(host: Host, state: MountState, consumers: nat, intent: StopIntent) returns (cleaned: bool)
    requires host.Inv() && host.record == Some(state)
    modifies host.runtime, host`record, host`past
    ensures host.Inv() && SeenStopped(old(host.past), host.past)
    ensures cleaned ==> host.record.None? && host.runtime.unit.NotFound? && NoSupervisor(host.View())
    ensures cleaned && (host.settled || PassIsSure(old(host.View()), state)) ==> Gone(host.View(), state.stagingTarget)
    ensures consumers > 0 && state.phase != Stopping ==> host.record == old(host.record)
    ensures old(host.past).starts <= host.past.starts
    ensures host.settled && consumers == 0 && StopsFor(old(host.View()), state, intent) ==>
      cleaned || (Running(old(host.runtime.unit)) && AlmostStopped(host.View(), state))
  {
    hide Host.Inv, Evolves, Gone, Unambiguous, ValidMountState, PhaseTransition, Quiet, NoSupervisor, ActsSee;
    ghost var seen: World;
    ghost var begun := host.past;
    var result: StopResult;
    if state.phase == Stopping {
      result, seen := Stop.Reconcile(host, state);
      StopsSeeStopped(begun, host.past, Some(state), seen);
    } else {
      ghost var stopping: MountState;
      result, stopping, seen := Stop.Stop(host, state, consumers, intent);
      if host.record == Some(state) {
        StopsNothing(begun, host.past, Some(state), seen);
      }
      StopsSeeStopped(begun, host.past, if host.record == Some(state) then Some(state) else Some(stopping), seen);
    }
    cleaned := result == Cleaned;
    if cleaned && Quiet(seen) {
      GoneSinceQuiet(seen, host.View(), state.stagingTarget);
    }
  }

  lemma StopsSeeStopped(p: Past, q: Past, record: Option<MountState>, seen: World)
    requires Stops(p, q, record, seen)
    ensures SeenStopped(p, q) && p.starts == q.starts
  {
  }

  /** The record names an unmounted target of the requested volume other than the requested one. */
  predicate IsStale(w: World, state: MountState, request: LaunchRequest) {
    && state.volumeID == request.volumeID && state.remoteRoot == request.remoteRoot
    && state.stagingTarget != request.stagingTarget && state.stagingTarget !in w.mounts
    && StopsFor(w, state, if state.phase == Active then StopForRecovery else CancelStart)
  }

  /** reconcileStaleStageStateForMount: the record names another target of the same volume. */
  method ReconcileStale(host: Host, state: MountState, request: LaunchRequest, consumers: Answer<nat>)
    returns (cleared: bool)
    requires host.Inv() && host.record == Some(state)
    modifies host.runtime, host`record, host`past
    ensures host.Inv() && SeenStopped(old(host.past), host.past)
    ensures cleared ==> host.record.None?
    ensures host.record != old(host.record) ==>
      consumers == Known(0) && state.stagingTarget != request.stagingTarget
    ensures old(host.past).starts <= host.past.starts
    ensures host.settled && IsStale(old(host.View()), state, request) && consumers == Known(0) ==>
      cleared || (Running(old(host.runtime.unit)) && AlmostStopped(host.View(), state))
  {
    hide Host.Inv, Evolves, OnlyAccepts, StopsFor, Running, AlmostStopped;
    cleared := false;
    var sameMount := state.volumeID == request.volumeID && state.remoteRoot == request.remoteRoot;
    if sameMount && state.stagingTarget != request.stagingTarget && consumers == Known(0) {
      var mounted := host.IsMountPoint(state.stagingTarget);
      var capable := host.Gate();
      if mounted == Known(false) && capable {
        cleared := StopOrContinue(host, state, 0, if state.phase == Active then StopForRecovery else CancelStart);
      }
    }
  }

  // ---- Staging -----------------------------------------------------------------------------------------

  datatype StageNext =
    StageDone | StageRefused | StageAbsent | StageRecover(observation: RecoveryObservation) | StageResume

  /** Reconcile without credentials, first without and then with permission to clean up (driver.go:741-748). */
  method ReconcileStarting(host: Host, state: MountState) returns (result: StartingResult, error: StartingError)
    requires host.Inv() && host.record == Some(state)
    modifies host.runtime, host`record, host`past, host`lost
    ensures host.Inv()
    ensures KeepsConsumers(old(host.record), host.record)
    ensures host.record.Some? ==> host.record.value.stagingTarget == state.stagingTarget
    ensures Reports(result, host.View(), state, host.settled)
    ensures Retryable(old(host.record), host.View(), state, result, error) || error == CleanupRequired
    ensures old(host.past).starts <= host.past.starts
    ensures host.settled && AttemptIsDead(old(host.View()), state) && state.reason == Stage ==> result == Deleted
    ensures host.settled ==> AsksForCredentials(old(host.View()), state, host.View(), error)
    ensures forall process |
      host.settled && ReadyMount(old(host.View()), state, process) && Promotable(old(host.View()), state) ::
      result == Promoted
  {
    hide Host.Inv, Step, CanGoOn, AttemptIsReleased, ServesConsumers, PromotedFrom, AttemptIsDead, AttemptIsStuck,
      ReadyMount, Promotable, Cleared;
    ghost var start, begun := host.View(), host.past;
    ghost var passes: nat;
    result, error, passes := Starting.Reconcile(host, state, None, false);
    ghost var first, p := host.View(), host.past;
    StepKeeps(start, begun, first, p, state);
    StepStarts(start, begun, first, p, state);
    if error == CleanupRequired {
      var capable := host.Gate();
      if capable {
        result, error, passes := Starting.Reconcile(host, state, None, true);
        StepKeeps(first, p, host.View(), host.past, state);
        StepStarts(first, p, host.View(), host.past, state);
        KeepsTwice(start.record, first.record, host.record);
        LaterStaysExpired(first, p, host.View(), host.past, state);
      }
    }
  }

  /** Where a settled host takes a stage on the record that it finds. */
  ghost predicate Advances(before: World, state: MountState, next: StageNext, after: World) {
    && (HealthyMount(before, state, state.stagingTarget) ==> next.StageDone?)
    && (ActiveIsClear(before, state) && Healthy(RecoveryView(before, state)) ==> next.StageDone?)
    && (RuntimeUnserved(before, state) ==> next == StageRecover(RecoveryView(before, state)) && after == before)
    && (forall process | ReadyMount(before, state, process) && Promotable(before, state) :: next.StageDone?)
    && (AttemptIsDead(before, state) && state.reason == Stage ==> next.StageAbsent?)
    && (AttemptIsDead(before, state) && CanGoOn(state) ==> next.StageResume? && AttemptIsReleased(after, state))
    && (Stoppable(before, state) && !Running(before.unit) ==> next.StageAbsent?)
  }

  /** The branches of a stage on an existing record (driver.go:716-773). */
  method StageExisting(host: Host, state: MountState) returns (next: StageNext)
    requires host.Inv() && host.record == Some(state)
    modifies host.runtime, host`record, host`past, host`lost
    ensures host.Inv() && KeepsConsumers(old(host.record), host.record)
    ensures next.StageDone? ==>
      host.record.Some? && host.record.value.phase == Active && host.record.value.stagingTarget == state.stagingTarget
    ensures next.StageAbsent? ==> host.record.None? && (host.settled ==> Cleared(host.View(), state.stagingTarget))
    ensures next.StageRecover? ==> host.record == Some(state) && state.phase == Active
    ensures next.StageResume? ==>
      OfAttempt(host.record, state) && (host.record == Some(state) || Remaining(state, host.runtime.clock) == 0)
    ensures old(host.past).starts <= host.past.starts
    ensures host.settled && state.phase != NoPhase ==> Advances(old(host.View()), state, next, host.View())
  {
    hide Host.Inv, Evolves, Faithful, ServedAt, Unambiguous, ValidMountState, RecoveryView, Vacant, DecideRecovery,
      ReadyToFinish, ArtifactsDead, Attributed, MainAttributed, FailedFor;
    host.Sound();
    next := StageRefused;
    var capable := host.Gate();
    if capable {
      match state.phase {
        case Active => next := StageActive(host, state);
        case Starting => next := StageStarting(host, state);
        case Stopping =>
          next := StageStopping(host, state);
        case NoPhase =>
      }
    }
  }

  lemma GoneIsCleared(w: World, target: Target)
    ensures Gone(w, target) ==> Cleared(w, target)
  {
  }

  method StageStopping(host: Host, state: MountState) returns (next: StageNext)
    requires host.Inv() && host.record == Some(state) && state.phase == Stopping
    modifies host.runtime, host`record, host`past
    ensures host.Inv() && (next.StageAbsent? || next.StageRefused?)
    ensures next.StageAbsent? ==> host.record.None? && (host.settled ==> Cleared(host.View(), state.stagingTarget))
    ensures host.past.starts == old(host.past).starts
    ensures host.settled && Stoppable(old(host.View()), state) && !Running(old(host.runtime.unit)) ==> next.StageAbsent?
  {
    hide Host.Inv, Evolves, Gone, Unambiguous, ValidMountState, Quiet, ActsSee, ReadyToFinish, Cleared;
    var result, seen := Stop.Reconcile(host, state);
    next := StageRefused;
    if result == Cleaned {
      if host.settled {
        GoneSinceQuiet(seen, host.View(), state.stagingTarget);
      }
      GoneIsCleared(host.View(), state.stagingTarget);
      next := StageAbsent;
    }
  }

  method StageActive(host: Host, state: MountState) returns (next: StageNext)
    requires host.Inv() && host.record == Some(state) && state.phase == Active
    modifies host.runtime, host`past
    ensures host.Inv() && host.record == old(host.record)
    ensures next.StageDone? || next.StageRefused? || next.StageRecover?
    ensures host.past.starts == old(host.past).starts
    ensures host.settled && HealthyMount(old(host.View()), state, state.stagingTarget) ==> next.StageDone?
    ensures host.settled && ActiveIsClear(old(host.View()), state) && Healthy(RecoveryView(old(host.View()), state)) ==>
      next.StageDone?
    ensures host.settled && RuntimeUnserved(old(host.View()), state) ==>
      next == StageRecover(RecoveryView(old(host.View()), state)) && host.View() == old(host.View())
  {
    hide Host.Inv, Evolves, Faithful, DecideRecovery, HealthyMount, Unambiguous, ValidMountState;
    next := StageRefused;
    ViewIsDecided(host.View(), state);
    var healthy := VerifyActiveLocally(host, state, state.stagingTarget);
    if healthy {
      next := StageDone;
    } else {
      var observed := ObserveActive(host, state);
      if observed.Known? {
        var decision := DecideRecovery(observed.value);
        next := if decision == Plan([Skip]) then StageDone
                else if decision.Plan? then StageRecover(observed.value) else StageRefused;
      }
    }
  }

  method StageStarting(host: Host, state: MountState) returns (next: StageNext)
    requires host.Inv() && host.record == Some(state) && state.phase == Starting
    modifies host.runtime, host`record, host`past, host`lost
    ensures host.Inv() && KeepsConsumers(old(host.record), host.record)
    ensures !next.StageRecover?
    ensures next.StageDone? ==>
      host.record.Some? && host.record.value.phase == Active && host.record.value.stagingTarget == state.stagingTarget
    ensures next.StageAbsent? ==> host.record.None? && (host.settled ==> Cleared(host.View(), state.stagingTarget))
    ensures next.StageResume? ==>
      OfAttempt(host.record, state) && (host.record == Some(state) || Remaining(state, host.runtime.clock) == 0)
    ensures old(host.past).starts <= host.past.starts
    ensures host.settled && AttemptIsDead(old(host.View()), state) && state.reason == Stage ==> next.StageAbsent?
    ensures host.settled && AttemptIsDead(old(host.View()), state) && CanGoOn(state) ==>
      next.StageResume? && AttemptIsReleased(host.View(), state)
    ensures forall process |
      host.settled && ReadyMount(old(host.View()), state, process) && Promotable(old(host.View()), state) ::
      next.StageDone?
  {
    hide Host.Inv, AttemptIsDead, ReadyMount, Promotable, Cleared;
    var result, error := ReconcileStarting(host, state);
    next := if result == Promoted then StageDone
            else if result == Deleted then StageAbsent
            else if error == CredentialsRequired then StageResume else StageRefused;
  }

  /** Launch where nothing is recorded and nothing is left (driver.go:867-899). */
  method StageNew(host: Host, request: LaunchRequest, observation: NoStateObservation) returns (ok: bool)
    requires host.Inv() && host.record.None? && request.reason == Stage
    modifies host.runtime, host`record, host`past, host`lost
    ensures host.Inv()
    ensures ok ==>
      host.record.Some? && host.record.value.phase == Active && host.record.value.stagingTarget == request.stagingTarget
    ensures old(host.past).starts <= host.past.starts
    ensures host.settled && Stageable(request) ==>
      (StillExpected(old(host.View()), request.stagingTarget, observation) ==>
         Launches(request, old(host.past), host.past) && (host.prompt ==> ok))
  {
    hide Host.Inv, Evolves, SafeActs, OwnerMissed, StillExpected, Launches, ValidLaunchRequest,
      UsesDirectMountStrict, NoSupervisor;
    ok := false;
    ghost var begun := host.past;
    var remoteValid := host.Gate();
    if remoteValid {
      var clean := ReconcileNoState(host, request.volumeID, request.stagingTarget, observation);
      ghost var between := host.past;
      var directories := host.Gate();
      var launcher := host.Gate();
      var desired := host.DesiredBinary();
      if clean && directories {
        var active := Launch.Launch(host, request, desired, launcher);
        ok := active.Some?;
        ProceedingStarts(between, host.past);
        LaunchesAfter(request, begun, between, host.past);
      }
    }
  }

  /** A request whose service a settled host can start. */
  predicate Stageable(request: LaunchRequest) {
    && ValidLaunchRequest(request) && UsesDirectMountStrict(request.mountArgs)
    && ServerOf(request.mountArgs) == Some(request.credentials.server)
  }

  lemma LaunchesAfter(request: LaunchRequest, p: Past, q: Past, r: Past)
    requires p.starts <= q.starts <= r.starts
    ensures Launches(request, q, r) ==> Launches(request, p, r)
  {
    forall candidate {
      StartedLater(p, q, r, candidate);
    }
  }

  /** The recovery of this record with the argv of the request was started. */
  ghost predicate Recovers(active: MountState, args: seq<string>, begun: Past, done: Past) {
    exists binary, desired :: DesiredOf(active, binary, args, desired) && Started(begun, done, desired)
  }

  lemma RecoversAfter(active: MountState, args: seq<string>, p: Past, q: Past, r: Past)
    requires p.starts <= q.starts <= r.starts
    ensures Recovers(active, args, q, r) ==> Recovers(active, args, p, r)
  {
    forall desired {
      StartedLater(p, q, r, desired);
    }
  }

  /** An argv and credentials with which a record can be recovered. */
  predicate Recoverable(active: MountState, args: seq<string>, credentials: Credentials) {
    && UsesDirectMountStrict(args) && ValidMountArgs(args, active.remoteRoot, active.stagingTarget)
    && Prepared(args, credentials) && ValidCredentials(credentials)
  }

  lemma StageableIsRecoverable(request: LaunchRequest, active: MountState)
    requires Stageable(request) && MatchesRequest(active, request)
    ensures Recoverable(active, request.mountArgs, request.credentials)
  {
    hide ValidMountArgs, UsesDirectMountStrict, ServerOf, NamesServer;
  }

  /** Recover an active mount with the desired binary (driver.go:797-832, node_recovery.go:205-245). */
  method RecoverMount(
    host: Host, state: MountState, args: seq<string>, credentials: Credentials, observation: RecoveryObservation
  ) returns (ok: bool)
    requires host.Inv() && host.record == Some(state) && ValidMountState(state) && state.phase == Active
    modifies host.runtime, host`record, host`past, host`lost
    ensures host.Inv() && host.lost == old(host.lost) && KeepsConsumers(old(host.record), host.record)
    ensures SeenStopped(old(host.past), host.past)
    ensures ok ==> ActiveAt(host.record, state.stagingTarget)
    ensures old(host.past).starts <= host.past.starts
    ensures host.settled && RuntimeUnserved(old(host.View()), state) ==>
      (observation == RecoveryView(old(host.View()), state) && Recoverable(state, args, credentials) ==>
         Recovers(state, args, old(host.past), host.past) && (host.prompt ==> ok))
  {
    hide Host.Inv, ValidMountState, DecideRecovery, ValidMountArgs, UsesDirectMountStrict, Prepared, ValidCredentials,
      Unambiguous, Started, RecordedLives, NamedLives, SeenStopped, Quiet;
    ghost var begun := host.past;
    NothingIsSeenStopped(begun, begun);
    ok := false;
    var remoteValid := host.Gate();
    var desired := host.DesiredBinary();
    if remoteValid && desired.Some? {
      var result: RecoveryResult;
      ghost var committed: Option<MountState>;
      result, committed := Coordinate(host, state, desired.value, args, credentials, observation);
      ok := result != StillDegraded;
      if committed.Some? && Started(begun, host.past, committed.value) {
        assert Recovers(state, args, begun, host.past);
      }
    }
  }

  /** With the credentials for both, the attempt or its fallback was started. */
  ghost predicate Restarts(state: MountState, credentials: Credentials, begun: Past, done: Past) {
    Resumable(state, Some(credentials)) && FallbackReady(state, Some(credentials)) ==>
      Started(begun, done, state) || exists fallback :: FallbackOf(state, fallback) && Started(begun, done, fallback)
  }

  lemma ReleasedIsDead(w: World, state: MountState)
    ensures AttemptIsReleased(w, state) ==> AttemptIsDead(w, state)
  {
    hide StartingRecord;
  }

  lemma MovingOnRestarts(
    state: MountState, credentials: Credentials, over: bool, result: StartingResult, begun: Past, done: Past
  )
    requires CanGoOn(state) && MovesOn(state, Some(credentials), over, result, begun, done)
    ensures Restarts(state, credentials, begun, done)
  {
    hide Started, Resumable, FallbackReady;
  }

  lemma RestartsThrough(state: MountState, credentials: Credentials, p: Past, q: Past, r: Past)
    requires p.starts <= q.starts <= r.starts
    ensures Restarts(state, credentials, p, q) ==> Restarts(state, credentials, p, r)
  {
    StartedLater(p, q, r, state);
    forall fallback {
      StartedLater(p, q, r, fallback);
    }
  }

  lemma RestartsAfter(state: MountState, credentials: Credentials, p: Past, q: Past, r: Past)
    requires p.starts <= q.starts <= r.starts && Restarts(state, credentials, q, r)
    ensures Restarts(state, credentials, p, r)
  {
    StartedLater(p, q, r, state);
    forall fallback {
      StartedLater(p, q, r, fallback);
    }
  }

  /**
    * Resume a starting attempt with credentials (driver.go:834-855). The pass without them has unloaded a
    * failed unit, so that only the deadline decides here between the attempt and its fallback.
    */
  method StageResuming(host: Host, request: LaunchRequest, state: MountState) returns (next: StageNext)
    requires host.Inv() && OfAttempt(host.record, state)
    requires host.record == Some(state) || Remaining(state, host.runtime.clock) == 0
    modifies host.runtime, host`record, host`past, host`lost
    ensures host.Inv() && KeepsConsumers(old(host.record), host.record)
    ensures next.StageDone? ==>
      host.record.Some? && host.record.value.phase == Active && host.record.value.stagingTarget == state.stagingTarget
    ensures next.StageAbsent? ==> host.record.None?
    ensures next.StageDone? || next.StageAbsent? || next.StageRefused?
    ensures old(host.past).starts <= host.past.starts
    ensures host.settled && AttemptIsReleased(old(host.View()), state) && CanGoOn(state) ==>
      && MovesOn(
           state, Some(request.credentials), Remaining(state, old(host.runtime.clock)) == 0, LeftAsIs,
           old(host.past), host.past)
      && Restarts(state, request.credentials, old(host.past), host.past)
  {
    hide Host.Inv, Step, PromotedFrom, ServesConsumers, AttemptIsStuck, Started, Resumable, FallbackReady,
      NoSupervisor, SafeActs, OwnerMissed, SeenSince, Evolves;
    ghost var start, begun := host.View(), host.past;
    host.Sound();
    next := StageRefused;
    var remoteValid := host.Gate();
    if remoteValid {
      var result, _, _ := Starting.Reconcile(host, state, Some(request.credentials), true);
      StepKeeps(start, begun, host.View(), host.past, state);
      StepStarts(start, begun, host.View(), host.past, state);
      next := if result == Promoted then StageDone else if result == Deleted then StageAbsent else StageRefused;
    }
  }

  predicate MatchesRequest(state: MountState, request: LaunchRequest) {
    state.volumeID == request.volumeID && state.remoteRoot == request.remoteRoot
    && state.stagingTarget == request.stagingTarget
  }

  predicate ActiveAt(record: Option<MountState>, target: Target) {
    record.Some? && record.value.phase == Active && record.value.stagingTarget == target
  }

  /** Observe the runtime of a volume without a record, and stage it anew (driver.go:774-783 and 859-899). */
  method StageAfresh(host: Host, request: LaunchRequest) returns (ok: bool)
    requires host.Inv() && host.record.None? && request.reason == Stage
    modifies host.runtime, host`record, host`past, host`lost
    ensures host.Inv()
    ensures ok ==> ActiveAt(host.record, request.stagingTarget)
    ensures old(host.past).starts <= host.past.starts
    ensures host.settled && Stageable(request) && ArtifactsDead(old(host.View()), request.stagingTarget) ==>
      Launches(request, old(host.past), host.past) && (host.prompt ==> ok)
  {
    hide SafeActs, OwnerMissed, Host.Inv, Evolves, NothingAlive, Launches, UsesDirectMountStrict, ValidMountArgs,
      RemotePath.CanonicalStagingTarget;
    ok := false;
    var capable := host.Gate();
    var credentials := host.Gate();
    if capable {
      var observed := ObserveNoState(host, request.stagingTarget);
      if observed.Known? && credentials {
        ok := StageNew(host, request, observed.value);
      }
    }
  }

  /** What follows the branches on the existing record (driver.go:774-899). */
  method FinishStage(host: Host, request: LaunchRequest, state: MountState, next: StageNext) returns (ok: bool)
    requires host.Inv()
    requires request.reason == Stage && state.stagingTarget == request.stagingTarget
    requires next.StageDone? ==> ActiveAt(host.record, request.stagingTarget)
    requires next.StageAbsent? ==> host.record.None?
    requires next.StageRecover? ==> host.record == Some(state) && ValidMountState(state) && state.phase == Active
    requires next.StageResume? ==>
      OfAttempt(host.record, state) && (host.record == Some(state) || Remaining(state, host.runtime.clock) == 0)
    modifies host.runtime, host`record, host`past, host`lost
    ensures host.Inv() && KeepsConsumers(old(host.record), host.record)
    ensures ok ==> ActiveAt(host.record, request.stagingTarget)
    ensures next.StageDone? ==> ok
    ensures old(host.past).starts <= host.past.starts
    ensures host.settled && Stageable(request) && next.StageAbsent? ==>
      (ArtifactsDead(old(host.View()), request.stagingTarget) ==>
         Launches(request, old(host.past), host.past) && (host.prompt ==> ok))
    ensures host.settled && RuntimeUnserved(old(host.View()), state) && Stageable(request) ==>
      (MatchesRequest(state, request) && next == StageRecover(RecoveryView(old(host.View()), state)) ==>
         Recovers(state, request.mountArgs, old(host.past), host.past) && (host.prompt ==> ok))
    ensures host.settled && next.StageResume? && AttemptIsReleased(old(host.View()), state) && CanGoOn(state) ==>
      Restarts(state, request.credentials, old(host.past), host.past)
  {
    hide Host.Inv, ValidMountState, ServesConsumers, PromotedFrom, Launches, Recovers, Restarts, AttemptIsReleased,
      CanGoOn, Stageable, ArtifactsDead, RuntimeUnserved, RecoveryView, Cleared, SafeActs, OwnerMissed, SeenStopped;
    ghost var begun := host.past;
    ok := next.StageDone?;
    var last := next;
    var ready := host.Gate();
    if next.StageRecover? && ready {
      if Stageable(request) && MatchesRequest(state, request) {
        StageableIsRecoverable(request, state);
      }
      ok := RecoverMount(host, state, request.mountArgs, request.credentials, next.observation);
      host.Sound();
    } else if next.StageResume? && ready {
      last := StageResuming(host, request, state);
      ok := last.StageDone?;
    }
    ghost var resumed := host.past;
    if last.StageAbsent? {
      ok := StageAfresh(host, request);
    }
    RestartsThrough(state, request.credentials, begun, resumed, host.past);
  }

  /**
    * What a settled host makes of a stage that it can start: a mount that is healthy or ready is done; where
    * nothing is left of a dead stage or of a stop the service starts afresh, and a dead active mount recovers.
    * On a prompt host these succeed as well, because the service that was started is up.
    */
  ghost predicate Stages(before: World, request: LaunchRequest, prompt: bool, ok: bool, begun: Past, done: Past) {
    match before.record
    case None => ArtifactsDead(before, request.stagingTarget) ==> Launches(request, begun, done) && (prompt ==> ok)
    case Some(state) =>
      ValidMountState(state) && MatchesRequest(state, request) ==>
        StagesOn(before, state, request, prompt, ok, begun, done)
  }

  ghost predicate StagesOn(
    before: World, state: MountState, request: LaunchRequest, prompt: bool, ok: bool, begun: Past, done: Past
  ) {
    && (HealthyMount(before, state, state.stagingTarget) ==> ok)
    && (ActiveIsClear(before, state) && Healthy(RecoveryView(before, state)) ==> ok)
    && (RuntimeUnserved(before, state) ==> Recovers(state, request.mountArgs, begun, done) && (prompt ==> ok))
    && (forall process | ReadyMount(before, state, process) && Promotable(before, state) :: ok)
    && (AttemptIsDead(before, state) && state.reason == Stage ==> Launches(request, begun, done) && (prompt ==> ok))
    && (AttemptIsDead(before, state) && CanGoOn(state) ==> Restarts(state, request.credentials, begun, done))
    && (Stoppable(before, state) && !Running(before.unit) ==> Launches(request, begun, done) && (prompt ==> ok))
  }

  /**
    * NodeStageVolume. Consumers of the mount on record keep it, whatever fails, unless the caller has seen
    * that there are none; success leaves an active record at the requested target.
    */
  method StageVolume(host: Host, request: LaunchRequest, consumers: Answer<nat>) returns (ok: bool)
    requires host.Inv() && request.reason == Stage
    modifies host.runtime, host`record, host`past, host`lost
    ensures host.Inv() && Keeps(old(host.record), host.record, consumers)
    ensures ok ==> ActiveAt(host.record, request.stagingTarget)
    ensures host.settled && Stageable(request) ==>
      Stages(old(host.View()), request, host.prompt, ok, old(host.past), host.past)
  {
    hide SafeActs, OwnerMissed, SeenStopped, Host.Inv, ValidMountState, ServesConsumers, PromotedFrom, StagesOn,
      Launches, Stageable, ArtifactsDead;
    host.Sound();
    ok := false;
    var acceptable := host.Gate();
    var answer := host.ReadRecord();
    if acceptable && answer.Known? {
      if answer.value.None? {
        ok := StageAfresh(host, request);
      } else if MatchesRequest(answer.value.value, request) {
        ok := StageMatching(host, request, answer.value.value);
      } else {
        var cleared := ReconcileStale(host, answer.value.value, request, consumers);
        if cleared {
          ok := StageAfresh(host, request);
        }
      }
    }
  }

  lemma StageIsFinished(
    before: World, state: MountState, request: LaunchRequest, next: StageNext, between: World, prompt: bool, ok: bool,
    begun: Past, done: Past
  )
    requires Advances(before, state, next, between)
    requires next.StageDone? ==> ok
    requires next.StageAbsent? ==> Launches(request, begun, done) && (prompt ==> ok)
    requires RuntimeUnserved(between, state) && next == StageRecover(RecoveryView(between, state)) ==>
      Recovers(state, request.mountArgs, begun, done) && (prompt ==> ok)
    requires next.StageResume? && AttemptIsReleased(between, state) && CanGoOn(state) ==>
      Restarts(state, request.credentials, begun, done)
    ensures StagesOn(before, state, request, prompt, ok, begun, done)
  {
    hide HealthyMount, ActiveIsClear, RecoveryView, RuntimeUnserved, ReadyMount, Promotable, AttemptIsDead,
      Stoppable, Launches, Recovers, Restarts, AttemptIsReleased, CanGoOn;
  }

  /** A stage whose record matches the request (driver.go:711-899). */
  method StageMatching(host: Host, request: LaunchRequest, state: MountState) returns (ok: bool)
    requires host.Inv() && request.reason == Stage
    requires host.record == Some(state) && ValidMountState(state) && MatchesRequest(state, request)
    modifies host.runtime, host`record, host`past, host`lost
    ensures host.Inv() && KeepsConsumers(old(host.record), host.record)
    ensures ok ==> ActiveAt(host.record, request.stagingTarget)
    ensures host.settled && Stageable(request) ==>
      StagesOn(old(host.View()), state, request, host.prompt, ok, old(host.past), host.past)
  {
    hide SafeActs, OwnerMissed, Host.Inv, ServesConsumers, PromotedFrom, Launches, Recovers, Restarts,
      AttemptIsReleased, CanGoOn, Stageable, RuntimeUnserved, RecoveryView, ValidMountArgs, Advances, StagesOn,
      NoSupervisor, RemotePath.CanonicalRemoteRoot, RemotePath.CanonicalStagingTarget;
    ghost var start, begun := host.View(), host.past;
    var next := StageExisting(host, state);
    ghost var between, p := host.View(), host.past;
    ok := FinishStage(host, request, state, next);
    KeepsTwice(start.record, between.record, host.record);
    LaunchesAfter(request, begun, p, host.past);
    RecoversAfter(state, request.mountArgs, begun, p, host.past);
    if Restarts(state, request.credentials, p, host.past) {
      RestartsAfter(state, request.credentials, begun, p, host.past);
    }
    if host.settled && Stageable(request) {
      StageIsFinished(start, state, request, next, between, host.prompt, ok, begun, host.past);
    }
  }

  // ---- Unstaging and boot recovery -----------------------------------------------------------------

  /** What a settled host can unstage: a record of this volume and target that a stop takes away, or nothing mounted. */
  predicate Unstageable(w: World, volume: VolumeID, target: Target) {
    match w.record
    case None => target !in w.mounts
    case Some(state) =>
      && state.volumeID == volume && state.stagingTarget == target && ValidMountState(state)
      && StopsFor(w, state, if state.phase == Active then Unstage else CancelStart)
  }

  /** There is no record, an active one, or one on which a pass is sure. */
  predicate UnstagesSurely(w: World) {
    !w.lost && (w.record.None? || w.record.value.phase == Active || PassIsSure(w, w.record.value))
  }

  lemma StaysSure(a: World, b: World, state: MountState)
    requires a.record == Some(state) && ValidMountState(state) && Evolves(a, b)
    ensures UnstagesSurely(a) ==> PassIsSure(b, state)
  {
    hide ValidMountArgs, RemotePath.CanonicalRemoteRoot, RemotePath.CanonicalStagingTarget;
    QuietStays(a, b);
  }

  /**
    * NodeUnstageVolume. Nothing happens while there are consumers at the target or that is not known;
    * success means that no record, no unit and no supervisor is left, and no mount either: surely so if the
    * record is active or names a process, if no supervisor can come any more, or on a settled host.
    */
  method UnstageVolume(host: Host, volume: VolumeID, target: Target, consumers: Answer<nat>) returns (ok: bool)
    requires host.Inv()
    modifies host.runtime, host`record, host`past
    ensures host.Inv()
    ensures consumers != Known(0) ==> !ok && host.record == old(host.record) && host.past == old(host.past)
    ensures host.record != old(host.record) ==> RecordAt(old(host.record), target)
    ensures ok ==> host.record.None? && !Running(host.runtime.unit) && NoSupervisor(host.View())
    ensures ok && (host.settled || UnstagesSurely(old(host.View()))) ==> target !in host.runtime.mounts
    ensures SeenStopped(old(host.past), host.past)
    ensures host.settled && consumers == Known(0) && Unstageable(old(host.View()), volume, target) ==>
      ok || (Running(old(host.runtime.unit)) && !Running(host.runtime.unit) && Unstageable(host.View(), volume, target))
  {
    hide Host.Inv, Evolves, NoSupervisor, Unambiguous, ValidMountState, SeenStopped, ActsSee;
    ok := false;
    ghost var start := host.View();
    NothingIsSeenStopped(host.past, host.past);
    if consumers == Known(0) {
      var mounted := host.IsMountPoint(target);
      var answer := host.ReadRecord();
      if mounted.Known? && answer.Known? {
        if answer.value.None? {
          host.Sound();
          NoRecordMeansNothingRuns(host.View());
          ok := !mounted.value;
        } else {
          var state := answer.value.value;
          var capable := host.Gate();
          StaysSure(start, host.View(), state);
          if state.volumeID == volume && state.stagingTarget == target && capable {
            ok := StopOrContinue(host, state, 0, if state.phase == Active then Unstage else CancelStart);
          }
        }
      }
    }
  }

  /** At most two calls unstage a settled host. */
  method UnstageConverges(host: Host, volume: VolumeID, target: Target)
    requires host.Inv() && host.settled && Unstageable(host.View(), volume, target)
    modifies host.runtime, host`record, host`past
    ensures host.Inv() && host.record.None? && target !in host.runtime.mounts && NoSupervisor(host.View())
  {
    hide Host.Inv, NoSupervisor, Unstageable, Running;
    var ok := UnstageVolume(host, volume, target, Known(0));
    if !ok {
      ok := UnstageVolume(host, volume, target, Known(0));
    }
  }

  predicate RecordAt(record: Option<MountState>, target: Target) {
    record.Some? && record.value.stagingTarget == target
  }

  /** What the boot of a settled host makes of the record that it finds. */
  ghost predicate Boots(
    before: World, state: MountState, args: seq<string>, credentials: Option<Credentials>, after: World,
    begun: Past, done: Past
  ) {
    && (Stoppable(before, state) ==>
          Gone(after, state.stagingTarget) || (Running(before.unit) && ReadyToFinish(after, state)))
    && (forall process | ReadyMount(before, state, process) && Promotable(before, state) ::
          ActiveAt(after.record, state.stagingTarget))
    && (AttemptIsDead(before, state) && state.reason == Stage ==> after.record.None?)
    && (AttemptIsDead(before, state) && CanGoOn(state) && credentials.Some? ==>
          Restarts(state, credentials.value, begun, done))
    && (RuntimeUnserved(before, state) && credentials.Some? && Recoverable(state, args, credentials.value) ==>
          Recovers(state, args, begun, done))
  }

  /** recoverOneNodeMount: whatever boot recovery finds and whatever fails, consumers keep their mount. */
  method RecoverOne(host: Host, args: seq<string>, credentials: Option<Credentials>)
    requires host.Inv()
    modifies host.runtime, host`record, host`past, host`lost
    ensures host.Inv() && KeepsConsumers(old(host.record), host.record)
    ensures host.settled && old(host.record).Some? && ValidMountState(old(host.record).value) ==>
      Boots(old(host.View()), old(host.record).value, args, credentials, host.View(), old(host.past), host.past)
  {
    hide Host.Inv, ValidMountState, Evolves, Gone, Stops, Unambiguous, HealthyMount, RecoveryView, MainIs,
      ReadyToFinish, SafeActs, OwnerMissed, Recovers, Prepared, ValidCredentials, ArtifactsDead, Attributed,
      FailedFor, ValidMountArgs, UsesDirectMountStrict;
    var answer := host.ReadRecord();
    var safe := host.Gate();
    var capable := host.Gate();
    if answer.Known? && answer.value.Some? && safe && capable {
      var state := answer.value.value;
      match state.phase {
        case Stopping => RecoverStopping(host, state);
        case Starting => RecoverStarting(host, state, credentials);
        case Active => RecoverActive(host, state, args, credentials);
        case NoPhase =>
      }
    }
  }

  method RecoverStopping(host: Host, state: MountState)
    requires host.Inv() && host.record == Some(state) && state.phase == Stopping
    modifies host.runtime, host`record, host`past
    ensures host.Inv() && KeepsConsumers(old(host.record), host.record)
    ensures host.settled && Stoppable(old(host.View()), state) ==>
      Gone(host.View(), state.stagingTarget) || (Running(old(host.runtime.unit)) && ReadyToFinish(host.View(), state))
  {
    hide Host.Inv, Evolves, Gone, Stops, Unambiguous, ReadyToFinish, Quiet, ValidMountState;
    var result, seen := Stop.Reconcile(host, state);
    if result == Cleaned && host.settled {
      GoneSinceQuiet(seen, host.View(), state.stagingTarget);
    }
  }

  method RecoverStarting(host: Host, state: MountState, credentials: Option<Credentials>)
    requires host.Inv() && host.record == Some(state)
    modifies host.runtime, host`record, host`past, host`lost
    ensures host.Inv() && KeepsConsumers(old(host.record), host.record)
    ensures host.settled && AttemptIsDead(old(host.View()), state) && state.reason == Stage ==> host.record.None?
    ensures forall process |
      host.settled && ReadyMount(old(host.View()), state, process) && Promotable(old(host.View()), state) ::
      ActiveAt(host.record, state.stagingTarget)
    ensures host.settled && AttemptIsDead(old(host.View()), state) && CanGoOn(state) && credentials.Some? ==>
      Restarts(state, credentials.value, old(host.past), host.past)
  {
    hide Host.Inv, Step, PromotedFrom, ServesConsumers, AttemptIsDead, AttemptIsStuck, ReadyMount, Promotable,
      Cleared, Over, MovesOn, Restarts, ArtifactsDead, SafeActs, OwnerMissed, SeenSince, Evolves;
    ghost var before, begun := host.record, host.past;
    var result, error := ReconcileStarting(host, state);
    ghost var between, p := host.View(), host.past;
    ReleasedIsDead(between, state);
    var capable := host.Gate();
    if result != Promoted && result != Deleted && error == CredentialsRequired && capable && credentials.Some? {
      var again, _, _ := Starting.Reconcile(host, state, credentials, true);
      StepStarts(between, p, host.View(), host.past, state);
      if host.settled && AttemptIsReleased(between, state) && CanGoOn(state) {
        MovingOnRestarts(state, credentials.value, Over(between, state), again, p, host.past);
        RestartsAfter(state, credentials.value, begun, p, host.past);
      }
      StepKeeps(between, p, host.View(), host.past, state);
      KeepsTwice(before, between.record, host.record);
    }
  }

  method RecoverActive(host: Host, state: MountState, args: seq<string>, credentials: Option<Credentials>)
    requires host.Inv() && host.record == Some(state) && ValidMountState(state) && state.phase == Active
    modifies host.runtime, host`record, host`past, host`lost
    ensures host.Inv() && host.lost == old(host.lost) && KeepsConsumers(old(host.record), host.record)
    ensures host.settled && RuntimeUnserved(old(host.View()), state) && credentials.Some? ==>
      (Recoverable(state, args, credentials.value) ==> Recovers(state, args, old(host.past), host.past))
  {
    hide Host.Inv, ValidMountState, Recoverable, RuntimeUnserved, RecoveryView, Recovers, HealthyMount, ActiveIsClear;
    ghost var begun := host.past;
    var next := StageActive(host, state);
    ghost var between := host.past;
    if next.StageRecover? && credentials.Some? {
      var ok := RecoverMount(host, state, args, credentials.value, next.observation);
      RecoversAfter(state, args, begun, between, host.past);
    }
  }
}
