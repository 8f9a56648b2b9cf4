/** Launching a first attempt (internal/driver/mount_lifecycle.go:47-140). */
module Launch {
  import opened Text
  import opened MountRecord
  import opened MountArgs
  import opened LaunchRequest
  import opened World
  import opened Host
  import opened Ownership
  import opened Stop
  import opened Lifecycle
  import opened Starting

  /** The starting record that a request asks for. */
  predicate CandidateOf(request: LaunchRequest, state: MountState) {
    && state.phase == Starting && state.reason == request.reason
    && state.volumeID == request.volumeID && state.remoteRoot == request.remoteRoot
    && state.stagingTarget == request.stagingTarget && state.mountArgs == request.mountArgs
    && state.fallbackBinaryPath == request.fallbackBinaryPath && state.fallbackMountArgs == request.fallbackMountArgs
  }

  /** What a launch leaves on record: nothing, or a record for the same volume, root and target. */
  ghost predicate LaunchOutcome(request: LaunchRequest, record: Option<MountState>) {
    record.Some? ==> exists candidate: MountState ::
      CandidateOf(request, candidate) && Succeeds(Some(candidate), record, candidate)
  }

  lemma CandidateIsSound(request: LaunchRequest, binary: BinaryPath, attempt: AttemptID, now: int)
    ensures var candidate := InitializeStarting(
              Candidate(request.reason, attempt, request.volumeID, request.remoteRoot, request.stagingTarget,
                UnitOf(request.volumeID), binary, request.mountArgs, request.fallbackBinaryPath,
                request.fallbackMountArgs), now);
      candidate.Some? ==>
        && CandidateOf(request, candidate.value) && StartingRecord(candidate.value)
        && candidate.value.pid == 0 && !candidate.value.envPath.NoPath? && candidate.value.createdAt == At(now)
  {
    hide ValidMountArgs;
  }

  lemma CandidateIsAccepted(request: LaunchRequest, binary: BinaryPath, attempt: AttemptID, now: int)
    requires ValidLaunchRequest(request) && binary.ContentAddressed? && WellFormedAttempt(attempt)
    ensures var candidate := InitializeStarting(
              Candidate(request.reason, attempt, request.volumeID, request.remoteRoot, request.stagingTarget,
                UnitOf(request.volumeID), binary, request.mountArgs, request.fallbackBinaryPath,
                request.fallbackMountArgs), now);
      candidate.Some? && ValidTransition(None, candidate.value)
  {
    hide ValidMountArgs, RemotePath.CanonicalRemoteRoot, RemotePath.CanonicalStagingTarget, ValidCredentials;
  }

  /** The service of a candidate for this request was started. */
  ghost predicate Launches(request: LaunchRequest, begun: Past, done: Past) {
    exists candidate :: CandidateOf(request, candidate) && Started(begun, done, candidate)
  }

  /** What a settled host needs to start a launch. */
  predicate Launchable(request: LaunchRequest, desired: Option<BinaryPath>, launcher: bool) {
    && ValidLaunchRequest(request) && UsesDirectMountStrict(request.mountArgs)
    && desired.Some? && desired.value.ContentAddressed? && launcher
  }

  /**
    * Build the candidate and write it: the intent is durable before anything else happens
    * (mount_lifecycle.go:65-92).
    */
  method CommitCandidate(host: Host, request: LaunchRequest, binary: BinaryPath) returns (committed: Option<MountState>)
    requires host.Inv() && host.record.None? && Vacant(host.View(), request.stagingTarget)
    modifies host.runtime, host`record
    ensures host.Inv() && Later(old(host.View()), host.View())
    ensures LaunchOutcome(request, host.record)
    ensures committed.Some? ==>
      && host.record == committed && ClearSince(old(host.View()), host.View(), request.stagingTarget)
      && CandidateOf(request, committed.value) && StartingRecord(committed.value)
      && ComesUp(true, host.View(), committed.value)
    ensures host.settled && ValidLaunchRequest(request) && binary.ContentAddressed? ==> committed.Some?
  {
    hide StartingRecord, Evolves, Host.Inv, NoSupervisor, ServesConsumers, InitializeStarting, ValidTransition,
      ValidLaunchRequest;
    ghost var start := host.View();
    host.Sound();
    NoRecordIsReplaceable(start);
    EvolvesReflexive(start);
    EvolvingIsLater(start, start);
    committed := None;
    var attempt := host.NewAttemptID();
    if attempt.Some? {
      var now := host.Now();
      ghost var atNow := host.View();
      ReplaceableStays(start, atNow);
      EvolvingIsLater(start, atNow);
      var candidate := InitializeStarting(
        Candidate(request.reason, attempt.value, request.volumeID, request.remoteRoot, request.stagingTarget,
          UnitOf(request.volumeID), binary, request.mountArgs, request.fallbackBinaryPath,
          request.fallbackMountArgs), now);
      CandidateIsSound(request, binary, attempt.value, now);
      if ValidLaunchRequest(request) && binary.ContentAddressed? {
        CandidateIsAccepted(request, binary, attempt.value, now);
      }
      if candidate.Some? {
        var written := host.WriteRecord(candidate.value);
        EvolvesThrough(start, atNow, host.View());
        EvolvingIsLater(start.(record := host.record), host.View());
        EvolvingIsLater(atNow.(record := host.record), host.View());
        assert host.record.Some? ==> Succeeds(Some(candidate.value), host.record, candidate.value);
        if written {
          committed := candidate;
          VacantIsClear(start, request.stagingTarget);
          ClearSinceEvolves(start, start, host.View(), request.stagingTarget);
        }
      }
    }
  }

  lemma VacantIsClear(w: World, target: Target)
    requires Vacant(w, target)
    ensures ClearSince(w, w, target) && Quiet(w)
  {
  }

  /**
    * mountLifecycle.Launch. It is called without a durable record, when the runtime was observed to be
    * free of the volume, and always for a stage. The starting record precedes every command; a launch that
    * is not ready in time goes through the reconciler once; success returns the active record that is then
    * on disk. Its own start surely finds a vacant target. On a settled host every valid request gets its
    * service started, and on a prompt one it succeeds.
    */
  method Launch(host: Host, request: LaunchRequest, desired: Option<BinaryPath>, launcher: bool)
    returns (active: Option<MountState>)
    requires host.Inv() && host.record.None? && Vacant(host.View(), request.stagingTarget)
    requires request.reason == Stage
    modifies host.runtime, host`record, host`past, host`lost
    ensures host.Inv()
    ensures Later(old(host.View()), host.View()) && Proceeds(old(host.past), host.past)
    ensures FirstStartIsSure(old(host.past), host.past)
    ensures LaunchOutcome(request, host.record)
    ensures active.Some? ==> host.record == active && active.value.phase == Active
    ensures host.settled && Launchable(request, desired, launcher) ==>
      Launches(request, old(host.past), host.past) && (host.prompt ==> active.Some?)
  {
    hide ValidLaunchRequest, UsesDirectMountStrict, Host.Inv, NoSupervisor, Proceeds, LaunchOutcome, StartingRecord,
      Started, SafeActs, OwnerMissed, Quiet, ClearSince;
    ghost var start := host.View();
    host.Sound();
    VacantIsClear(start, request.stagingTarget);
    AcceptingProceeds(host.past, host.past);
    NoRecordIsAnOutcome(request);
    active := None;
    var cancelled := host.Cancelled();
    var acceptable := !cancelled && ValidLaunchRequest(request) && UsesDirectMountStrict(request.mountArgs) && launcher;
    if acceptable && desired.Some? {
      var candidate := CommitCandidate(host, request, desired.value);
      if candidate.Some? {
        active := RunCandidate(host, request, candidate.value, start);
      }
    }
  }

  lemma NoRecordIsAnOutcome(request: LaunchRequest)
    ensures LaunchOutcome(request, None)
  {
  }

  /** Publish, start, wait and reconcile (mount_lifecycle.go:94-139). */
  method RunCandidate(host: Host, request: LaunchRequest, candidate: MountState, ghost seen: World)
    returns (active: Option<MountState>)
    requires host.Inv() && StartingRecord(candidate) && CandidateOf(request, candidate) && request.reason == Stage
    requires host.record == Some(candidate) && ClearSince(seen, host.View(), request.stagingTarget) && Quiet(seen)
    modifies host.runtime, host`record, host`past, host`lost
    ensures host.Inv()
    ensures Later(old(host.View()), host.View()) && Proceeds(old(host.past), host.past)
    ensures FirstStartIsSure(old(host.past), host.past)
    ensures LaunchOutcome(request, host.record)
    ensures active.Some? ==> host.record == active && active.value.phase == Active
    ensures host.settled ==>
      && Started(old(host.past), host.past, candidate)
      && (ComesUp(host.prompt, old(host.View()), candidate) ==> active.Some?)
  {
    hide StartingRecord, Host.Inv, NoSupervisor, Proceeds, Succeeds, CleansUp, Started, ActsSee, SafeActs,
      OwnerMissed, Quiet, ClearSince, ReadyMount, Promotable, ComesUp;
    ghost var start, begun := host.View(), host.past;
    host.Sound();
    NoStep(start, begun, candidate);
    active := None;
    var started := PublishAndStart(host, candidate, seen);
    ghost var running, between := host.View(), host.past;
    ProceedingStarts(begun, between);
    FirstIsSeen(begun, between, seen);
    if started {
      active := AwaitOrReconcile(host, candidate, request.credentials);
      ProceedsTwice(begun, between, host.past);
      ProceedingStarts(between, host.past);
    }
    StartedLater(begun, between, host.past, candidate);
  }

  /** publishStartupFile twice, and systemd-run. */
  method PublishAndStart(host: Host, candidate: MountState, ghost seen: World) returns (started: bool)
    requires host.Inv() && StartingRecord(candidate) && Quiet(seen)
    requires host.record == Some(candidate) && ClearSince(seen, host.View(), candidate.stagingTarget)
    modifies host.runtime, host`past, host`lost
    ensures host.Inv() && host.record == old(host.record)
    ensures Later(old(host.View()), host.View()) && Proceeds(old(host.past), host.past)
    ensures ActsSee(old(host.past), host.past, seen) && (started ==> |old(host.past).starts| < |host.past.starts|)
    ensures host.settled ==>
      && started && Started(old(host.past), host.past, candidate)
      && (ComesUp(host.prompt, old(host.View()), candidate) ==>
            Promotable(host.View(), candidate) && exists process :: ReadyMount(host.View(), candidate, process))
  {
    hide StartingRecord, Host.Inv, NoSupervisor, Proceeds, CleansUp, Started, ActsSee, SafeActs, OwnerMissed,
      ClearSince, ReadyMount, Promotable;
    ghost var start, begun := host.View(), host.past;
    started := PublishStartupFiles(host, candidate, seen);
    ghost var published, between := host.View(), host.past;
    CleaningUpProceeds(begun, between, host.record);
    CleansUpStartsNothing(begun, between, host.record);
    NothingIsSeen(seen, begun, between);
    if started {
      started := StartService(host, candidate, seen);
      if host.settled {
        ComingUp(host.prompt, published, host.View(), candidate);
      }
      ActsSeeAfter(begun, between, host.past, seen);
      ProceedsTwice(begun, between, host.past);
      ProceedingStarts(begun, between);
      ProceedingStarts(between, host.past);
      StartedLater(begun, between, host.past, candidate);
    }
  }

  /** Wait for readiness, and reconcile the attempt if that failed for any reason but cancellation. */
  method AwaitOrReconcile(host: Host, candidate: MountState, credentials: Credentials)
    returns (active: Option<MountState>)
    requires host.Inv() && StartingRecord(candidate) && candidate.reason == Stage
    requires host.record == Some(candidate)
    modifies host.runtime, host`record, host`past, host`lost
    ensures host.Inv()
    ensures Step(old(host.View()), old(host.past), host.View(), host.past, candidate)
    ensures active.Some? ==> host.record == active && active.value.phase == Active
    ensures forall process | host.settled && ReadyMount(old(host.View()), candidate, process) ::
      Promotable(old(host.View()), candidate) ==> active.Some?
  {
    hide StartingRecord, Host.Inv, Step, PromotedFrom, SafeActs, OwnerMissed, ReadyMount, Promotable;
    host.Sound();
    ghost var start, begun := host.View(), host.past;
    active := None;
    var promoted := WaitLive(host, candidate);
    ghost var waited, between := host.View(), host.past;
    if promoted {
      active := host.record;
    } else {
      var cancelled := host.Cancelled();
      if !cancelled {
        active := ReconcileAndRead(host, candidate, credentials);
        StepThenStep(start, begun, waited, between, host.View(), host.past, candidate);
      }
    }
  }

  /** The reconciler's turn, which must promote the attempt for the launch to succeed (mount_lifecycle.go:124-139). */
  method ReconcileAndRead(host: Host, candidate: MountState, credentials: Credentials)
    returns (active: Option<MountState>)
    requires host.Inv() && OfAttempt(host.record, candidate)
    requires candidate.reason == Stage
    modifies host.runtime, host`record, host`past, host`lost
    ensures host.Inv()
    ensures Step(old(host.View()), old(host.past), host.View(), host.past, candidate)
    ensures active.Some? ==> host.record == active && active.value.phase == Active
  {
    hide Host.Inv, Step, PromotedFrom, SafeActs, OwnerMissed, SeenSince, Evolves;
    active := None;
    var result, error, _ := Starting.Reconcile(host, candidate, Some(credentials), true);
    if result == Promoted && error == NoError {
      var answer := host.ReadRecord();
      if answer.Known? {
        active := answer.value;
      }
    }
  }
}
