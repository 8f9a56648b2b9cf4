/** Reconciling a starting attempt (internal/driver/mount_reconcile_starting.go). */
module Starting {
  import opened Text
  import opened MountRecord
  import opened MountArgs
  import opened LaunchRequest
  import opened World
  import opened Host
  import opened Ownership
  import opened Stop
  import opened Lifecycle

  datatype StartingResult = Promoted | Deleted | Switched | Degraded | LeftAsIs

  datatype StartingError = NoError | CleanupRequired | CredentialsRequired | Failed

  // ---- What every step of the reconciler keeps ---------------------------------------------------

  /** What survives any step, a start included. */
  predicate Later(a: World, b: World) {
    a.born <= b.born && a.clock <= b.clock
  }

  /** Commands run only while some record states the intent, and kills only accepted identities. */
  ghost predicate Proceeds(before: Past, after: Past) {
    && before.starts <= after.starts && before.deletions <= after.deletions
    && before.accepted.Keys <= after.accepted.Keys
    && after.killed <= before.killed + after.accepted.Keys
    && (forall record | record in after.commandsUnder :: record in before.commandsUnder || record.Some?)
  }

  /** The record runs the candidate's binary and argv, or exactly its fallback's. */
  predicate Runs(state: MountState, next: MountState) {
    || (next.binaryPath == state.binaryPath && next.mountArgs == state.mountArgs)
    || (!state.fallbackBinaryPath.NoBinary? &&
        next.binaryPath == state.fallbackBinaryPath && next.mountArgs == state.fallbackMountArgs)
  }

  /**
    * What may become of the record of a starting attempt: it stays, it is promoted, it gives way to its
    * exact fallback, or, for a first-time stage only, it is deleted.
    */
  predicate Succeeds(before: Option<MountState>, after: Option<MountState>, state: MountState) {
    && (after.None? ==> before == Some(state) && state.reason == Stage)
    && (after.Some? ==>
          && SameMountIdentity(state, after.value) && Runs(state, after.value)
          && (after.value.phase == Active || after.value == state ||
              (after.value.phase == Starting && after.value.reason == Recovery && NoFallback(after.value))))
    && KeepsConsumers(before, after)
  }

  /** The whole contract of a step that may start a service. */
  ghost predicate Step(before: World, begun: Past, after: World, done: Past, state: MountState) {
    Later(before, after) && Proceeds(begun, done) && Succeeds(before.record, after.record, state)
  }

  lemma ProceedsTwice(p: Past, q: Past, r: Past)
    requires Proceeds(p, q) && Proceeds(q, r)
    ensures Proceeds(p, r)
  {
  }

  /** No service was started and no record deleted. */
  predicate NothingStarted(before: Past, after: Past) {
    after.starts == before.starts && after.deletions == before.deletions
  }

  lemma CleansUpStartsNothing(p: Past, q: Past, record: Option<MountState>)
    requires CleansUp(p, q, record) || OnlyAccepts(p, q) || p == q
    ensures NothingStarted(p, q)
  {
  }

  lemma ActsSeeAfter(p: Past, q: Past, r: Past, seen: World)
    requires NothingStarted(p, q) && ActsSee(q, r, seen)
    ensures ActsSee(p, r, seen)
  {
  }

  lemma NothingIsSeen(seen: World, p: Past, q: Past)
    requires NothingStarted(p, q)
    ensures ActsSee(p, q, seen) && SeenSince(seen, p, q)
  {
  }

  /** The first start of this stretch, if there is one, found nothing alive when the mount was read. */
  ghost predicate FirstStartIsSure(begun: Past, done: Past) {
    begun.starts <= done.starts && (|begun.starts| < |done.starts| ==> Quiet(done.starts[|begun.starts|].seen))
  }

  lemma FirstIsSeen(begun: Past, done: Past, seen: World)
    requires ActsSee(begun, done, seen) && Quiet(seen) && begun.starts <= done.starts
    ensures FirstStartIsSure(begun, done)
  {
  }

  /** Whatever was started or deleted in the meantime rests on a look at the mount from after the unit had stopped. */
  ghost predicate SeenStopped(before: Past, after: Past) {
    && (forall i: nat | |before.starts| <= i < |after.starts| :: !Running(after.starts[i].seen.unit))
    && (forall deletion | deletion in after.deletions :: deletion in before.deletions || !Running(deletion.seen.unit))
  }

  lemma ActsSeeStopped(p: Past, q: Past, seen: World)
    requires ActsSee(p, q, seen) && !Running(seen.unit)
    ensures SeenStopped(p, q)
  {
  }

  lemma NothingIsSeenStopped(p: Past, q: Past)
    requires NothingStarted(p, q)
    ensures SeenStopped(p, q)
  {
  }

  lemma SeenStoppedTwice(p: Past, q: Past, r: Past)
    requires SeenStopped(p, q) && SeenStopped(q, r) && p.starts <= q.starts <= r.starts
    ensures SeenStopped(p, r)
  {
    forall i: nat | |p.starts| <= i < |r.starts| ensures !Running(r.starts[i].seen.unit) {
      if i < |q.starts| {
        assert r.starts[i] == q.starts[i];
      }
    }
  }

  lemma SeenAfter(a: World, p: Past, b: World, q: Past, r: Past)
    requires NothingStarted(p, q) && Follows(a, b) && SeenSince(b, q, r)
    ensures SeenSince(a, p, r)
  {
    hide Follows;
    forall i: nat | |p.starts| <= i < |r.starts| ensures Follows(a, r.starts[i].seen) {
      FollowsTwice(a, b, r.starts[i].seen);
    }
    forall deletion | deletion in r.deletions && deletion !in p.deletions ensures Follows(a, deletion.seen) {
      FollowsTwice(a, b, deletion.seen);
    }
  }

  lemma StartedLater(p: Past, q: Past, r: Past, state: MountState)
    requires p.starts <= q.starts <= r.starts
    ensures Started(p, q, state) || Started(q, r, state) ==> Started(p, r, state)
  {
    if Started(p, q, state) {
      var i: nat :| |p.starts| <= i < |q.starts| && q.starts[i].host.record == Some(state) && q.starts[i].loaded;
      assert r.starts[i] == q.starts[i];
    }
  }

  lemma ProceedingStarts(p: Past, q: Past)
    requires Proceeds(p, q)
    ensures p.starts <= q.starts
  {
  }

  lemma CleaningUpProceeds(p: Past, q: Past, record: Option<MountState>)
    requires CleansUp(p, q, record) && record.Some?
    ensures Proceeds(p, q)
  {
  }

  lemma AcceptingProceeds(p: Past, q: Past)
    requires OnlyAccepts(p, q) || p == q
    ensures Proceeds(p, q)
  {
  }

  /** The record of an attempt, still starting or promoted, is a successor of itself. */
  lemma AttemptSucceeds(before: Option<MountState>, after: Option<MountState>, state: MountState)
    requires OfAttempt(after, state) && KeepsConsumers(before, after)
    ensures Succeeds(before, after, state)
  {
  }

  // ---- Parts of the reconciler -----------------------------------------------------------------

  /** An attempt of which nothing lives: what the reconciler clears away on a settled host. */
  predicate AttemptIsDead(w: World, state: MountState) {
    && w.record == Some(state) && StartingRecord(state)
    && !Running(w.unit) && (w.unit.Loaded? ==> w.unit.attempt == state.attemptID)
    && NamesNobody(w, state.stagingTarget)
    && (state.stagingTarget in w.mounts ==> state.stagingTarget in w.processStates)
  }

  /** The same, once the target is unmounted and the unit unloaded. */
  predicate AttemptIsReleased(w: World, state: MountState) {
    && w.record == Some(state) && StartingRecord(state)
    && w.unit.NotFound? && ArtifactsDead(w, state.stagingTarget)
  }

  /**
    * An attempt whose unit still runs although its deadline has passed, or although it never was strict.
    * Its process is recorded and does not serve a mount, or is not recorded yet.
    */
  predicate AttemptIsStuck(w: World, state: MountState) {
    var target := state.stagingTarget;
    && w.record == Some(state) && StartingRecord(state) && Unambiguous(w, state) && Running(w.unit)
    && (Remaining(state, w.clock) == 0 || !UsesDirectMountStrict(state.mountArgs))
    && (target in w.processStates ==> target !in w.mounts && Alive(w, w.processStates[target].ident))
  }

  /** The process that a pass on a stuck attempt sees. */
  function StuckProcess(w: World, state: MountState): StartingProcess
    requires AttemptIsStuck(w, state)
  {
    if state.stagingTarget in w.processStates then
      var id := w.processStates[state.stagingTarget].ident;
      ProcessVerified(VerifiedProcess(id.pid, id.start, false))
    else ProcessAbsent
  }

  /** The process that may be killed for an attempt is its only supervisor; without one, none is recorded alive. */
  predicate OwnsAttempt(w: World, state: MountState, owned: MountState) {
    if owned.pid > 0 then owned.pidStartTime > 0 && Alive(w, RecordedIdent(owned)) && Supervises(w, owned.pid)
    else NamesNobody(w, state.stagingTarget)
  }

  /** Once its unit does not run, its target is unmounted and its process killed, nothing of an attempt lives. */
  lemma AttemptIsLetGo(w: World, stopped: World, b: World, state: MountState, owned: MountState)
    requires Consistent(w) && !w.lost && w.record == Some(state) && StartingRecord(state)
    requires Unambiguous(w, state) && OwnsAttempt(w, state, owned) && owned.stagingTarget == state.stagingTarget
    requires StopEffect(w, stopped) || (stopped == w && !Running(w.unit))
    requires b == Released(stopped, owned)
    ensures AttemptIsDead(b, state) && state.stagingTarget !in b.mounts && NoSupervisor(b)
    ensures owned.pid > 0 ==> !Alive(b, RecordedIdent(owned))
    ensures state.stagingTarget in b.processStates ==> b.processStates[state.stagingTarget].ident in b.born
  {
    hide ValidMountState;
  }

  /** The credentials with which an attempt may be started. */
  predicate Resumable(state: MountState, credentials: Option<Credentials>) {
    credentials.Some? && CredentialsMatch(state, credentials.value)
  }

  /** An attempt of a recovery that can be started, and whose fallback can. */
  predicate CanGoOn(state: MountState) {
    && state.reason == Recovery && UsesDirectMountStrict(state.mountArgs)
    && !state.fallbackBinaryPath.NoBinary? && state.fallbackMountArgs != []
    && UsesDirectMountStrict(state.fallbackMountArgs)
  }

  /** The same for the fallback of an attempt. */
  predicate FallbackReady(state: MountState, credentials: Option<Credentials>) {
    && !state.fallbackBinaryPath.NoBinary? && UsesDirectMountStrict(state.fallbackMountArgs)
    && credentials.Some? && ValidCredentials(credentials.value)
    && ServerOf(state.fallbackMountArgs) == Some(credentials.value.server)
  }

  /**
    * What a settled host makes of an attempt of which nothing is left: a first-time stage is deleted, a
    * recovery starts again before its deadline, and its fallback starts after it.
    */
  ghost predicate MovesOn(
    state: MountState, credentials: Option<Credentials>, over: bool, result: StartingResult, begun: Past, done: Past
  ) {
    && (state.reason == Stage ==> result == Deleted)
    && (state.reason == Recovery && UsesDirectMountStrict(state.mountArgs) ==>
          && (!over && Resumable(state, credentials) ==> Started(begun, done, state))
          && (over && FallbackReady(state, credentials) ==>
                exists fallback :: FallbackOf(state, fallback) && Started(begun, done, fallback)))
  }

  /** What a settled host makes of a stuck attempt: what it makes of an expired one, now or in the next pass. */
  ghost predicate Unsticks(
    state: MountState, credentials: Option<Credentials>, result: StartingResult, begun: Past, after: World, done: Past
  ) {
    MovesOn(state, credentials, true, result, begun, done) || AttemptIsDead(after, state)
  }

  lemma UnsticksAfter(
    state: MountState, credentials: Option<Credentials>, result: StartingResult, begun: Past, between: Past,
    after: World,
    done: Past
  )
    requires begun.starts <= between.starts <= done.starts
    requires Unsticks(state, credentials, result, between, after, done)
    ensures Unsticks(state, credentials, result, begun, after, done)
  {
    if MovesOn(state, credentials, true, result, between, done) {
      MovesOnAfter(state, credentials, true, result, begun, between, done);
    }
  }

  lemma MovesOnAfter(
    state: MountState, credentials: Option<Credentials>, over: bool, result: StartingResult, begun: Past,
    between: Past, done: Past
  )
    requires begun.starts <= between.starts <= done.starts
    requires MovesOn(state, credentials, over, result, between, done)
    ensures MovesOn(state, credentials, over, result, begun, done)
  {
    StartedLater(begun, between, done, state);
    forall fallback {
      StartedLater(begun, between, done, fallback);
    }
  }

  /** unmountDisconnectedStarting. */
  method UnmountDisconnected(host: Host, target: Target) returns (ok: bool)
    requires host.Inv()
    modifies host.runtime, host`past
    ensures host.Moved() && CleansUp(old(host.past), host.past, host.record)
    ensures ok ==> target !in host.runtime.mounts
    ensures host.settled ==> ok && host.View() == old(host.View()).(mounts := old(host.runtime.mounts) - {target})
  {
    hide Persists, OnlySurvivors, Shrinks, NoSupervisor, Host.Inv;
    EvolvesComposes();
    var mounted := host.IsMountPoint(target);
    if mounted == Known(true) {
      var unmounted := host.KernelUnmount(target, false);
      mounted := host.IsMountPoint(target);
    }
    if mounted == Known(true) {
      var unmounted := host.KernelUnmount(target, true);
      if !unmounted {
        return false;
      }
      mounted := host.IsMountPoint(target);
    }
    ok := mounted == Known(false);
  }

  predicate StoppedFor(unit: Unit, state: MountState) {
    unit.Loaded? && !Running(unit) && unit.attempt == state.attemptID
  }

  /** removeFailedUnit. */
  method RemoveFailedUnit(host: Host, state: MountState) returns (ok: bool)
    requires host.Inv()
    modifies host.runtime, host`past
    ensures host.Moved() && CleansUp(old(host.past), host.past, host.record)
    ensures ok ==> host.runtime.unit.NotFound?
    ensures host.settled && StoppedFor(old(host.runtime.unit), state) ==>
      ok && host.View() == old(host.View()).(unit := NotFound)
  {
    hide Evolves, Host.Inv;
    ghost var start := host.View();
    ok := VerifyUnitDescription(host, state);
    ghost var described := host.View();
    if ok {
      ok := UnloadUnit(host);
      EvolvesTwice(start, described, host.View());
    }
  }

  /**
    * resumeStarting: publish the two startup files of the attempt and start its service. It is called when
    * the unit is gone and the target has been read as unmounted, in the world `seen`, under the record that
    * names the attempt. On a settled host the service starts, and on a prompt one the attempt is promoted.
    */
  method ResumeStarting(host: Host, state: MountState, credentials: Option<Credentials>, ghost seen: World)
    returns (result: StartingResult, error: StartingError)
    requires host.Inv() && StartingRecord(state) && (host.settled ==> Quiet(seen))
    requires host.record == Some(state) && ClearSince(seen, host.View(), state.stagingTarget)
    modifies host.runtime, host`record, host`past, host`lost
    ensures host.Risked(seen) && Step(old(host.View()), old(host.past), host.View(), host.past, state)
    ensures host.past.starts == old(host.past).starts ==> ClearSince(seen, host.View(), state.stagingTarget)
    ensures OfAttempt(host.record, state)
    ensures result == Promoted || result == LeftAsIs
    ensures result == Promoted ==> error == NoError && host.record.Some? && host.record.value.phase == Active
    ensures error != CleanupRequired && (error == CredentialsRequired ==> credentials.None?)
    ensures credentials.None? ==>
      && result == LeftAsIs && error == CredentialsRequired
      && host.past == old(host.past) && host.View() == old(host.View())
    ensures host.settled && Resumable(state, credentials) ==>
      && Started(old(host.past), host.past, state)
      && (ComesUp(host.prompt, old(host.View()), state) ==> result == Promoted)
  {
    hide Host.Inv, StartingRecord, CredentialsMatch, NoSupervisor, Step, ActsSee, SafeActs, OwnerMissed, Running,
      Quiet, ClearSince;
    host.Sound();
    NoStep(host.View(), host.past, state);
    NothingIsSeen(seen, host.past, host.past);
    result, error := LeftAsIs, Failed;
    if credentials.None? {
      error := CredentialsRequired;
    } else if CredentialsMatch(state, credentials.value) {
      var promoted := StartAttempt(host, state, seen);
      if promoted {
        result, error := Promoted, NoError;
      }
    }
  }

  /** A prompt host whose clock is not behind the record. */
  predicate ComesUp(prompt: bool, w: World, state: MountState) {
    prompt && state.createdAt.At? && state.createdAt.ns <= w.clock
  }

  lemma NoStep(w: World, past: Past, state: MountState)
    requires OfAttempt(w.record, state)
    ensures Step(w, past, w, past, state)
  {
  }

  /** Publish, start, and wait for the mount (mount_reconcile_starting.go:401-425). */
  method StartAttempt(host: Host, state: MountState, ghost seen: World) returns (promoted: bool)
    requires host.Inv() && StartingRecord(state) && (host.settled ==> Quiet(seen))
    requires host.record == Some(state) && ClearSince(seen, host.View(), state.stagingTarget)
    modifies host.runtime, host`record, host`past, host`lost
    ensures host.Risked(seen) && Step(old(host.View()), old(host.past), host.View(), host.past, state)
    ensures host.past.starts == old(host.past).starts ==> ClearSince(seen, host.View(), state.stagingTarget)
    ensures OfAttempt(host.record, state)
    ensures promoted ==> host.record.value.phase == Active
    ensures host.settled ==>
      Started(old(host.past), host.past, state) && (ComesUp(host.prompt, old(host.View()), state) ==> promoted)
  {
    hide Evolves, Host.Inv, CleansUp, Succeeds, Proceeds, NoSupervisor, ServesConsumers, Started, ActsSee, SafeActs,
      OwnerMissed, Quiet, ClearSince, Running;
    ghost var start, begun := host.View(), host.past;
    AttemptSucceeds(host.record, host.record, state);
    promoted := PublishStartupFiles(host, state, seen);
    CleaningUpProceeds(begun, host.past, host.record);
    CleansUpStartsNothing(begun, host.past, host.record);
    NothingIsSeen(seen, begun, host.past);
    if promoted {
      ghost var published, between := host.View(), host.past;
      promoted := StartAndWait(host, state, seen);
      StepTwice(start, begun, published, between, host.View(), host.past, state);
      ProceedingStarts(begun, between);
      ProceedingStarts(between, host.past);
      StartedLater(begun, between, host.past, state);
      ActsSeeAfter(begun, between, host.past, seen);
    }
  }

  /** Start the service and wait for the mount (mount_reconcile_starting.go:411-425). */
  method StartAndWait(host: Host, state: MountState, ghost seen: World) returns (promoted: bool)
    requires host.Inv() && StartingRecord(state) && Published(host.past, state.attemptID)
    requires host.settled ==> Quiet(seen)
    requires host.record == Some(state) && ClearSince(seen, host.View(), state.stagingTarget)
    modifies host.runtime, host`record, host`past, host`lost
    ensures host.Risked(seen) && Step(old(host.View()), old(host.past), host.View(), host.past, state)
    ensures old(host.past).starts < host.past.starts
    ensures OfAttempt(host.record, state)
    ensures promoted ==> host.record.value.phase == Active
    ensures host.settled ==>
      Started(old(host.past), host.past, state) && (ComesUp(host.prompt, old(host.View()), state) ==> promoted)
  {
    hide Evolves, Host.Inv, CleansUp, Succeeds, Proceeds, NoSupervisor, ServesConsumers, Started, ActsSee, SafeActs,
      OwnerMissed, Quiet, ClearSince, Running, ReadyMount, Promotable, StartingRecord;
    ghost var start, begun := host.View(), host.past;
    AttemptSucceeds(host.record, host.record, state);
    promoted := StartService(host, state, seen);
    if promoted {
      ghost var started, running := host.View(), host.past;
      if host.settled {
        ComingUp(host.prompt, start, started, state);
      }
      var active, _ := WaitForMountAndPromote(host, state);
      promoted := active.Some?;
      EvolvingIsLater(started.(record := host.record), host.View());
      CleaningUpProceeds(running, host.past, Some(state));
      ProceedingStarts(begun, running);
      ProceedingStarts(running, host.past);
      StartedLater(begun, running, host.past, state);
      ProceedsTwice(begun, running, host.past);
      AttemptSucceeds(Some(state), host.record, state);
      CleansUpStartsNothing(running, host.past, Some(state));
      ActsSeeBefore(begun, running, host.past, seen);
    }
  }

  lemma ActsSeeBefore(p: Past, q: Past, r: Past, seen: World)
    requires ActsSee(p, q, seen) && NothingStarted(q, r)
    ensures ActsSee(p, r, seen)
  {
  }

  /** A service that has come up is ready. */
  lemma ComingUp(prompt: bool, before: World, after: World, state: MountState)
    requires before.record == Some(state) && StartingRecord(state)
    requires prompt ==> CameUp(before, after)
    ensures ComesUp(prompt, before, state) ==>
      Promotable(after, state) && exists process :: ReadyMount(after, state, process)
  {
    hide ValidMountState;
    if prompt {
      var id :| Fresh(before, id) && after == BroughtUp(before, id);
      assert ReadyMount(after, state, VerifiedProcess(id.pid, id.start, false));
    }
  }

  /** A step after one that left the record alone. */
  lemma StepTwice(a: World, p: Past, b: World, q: Past, c: World, r: Past, state: MountState)
    requires Later(a, b) && Proceeds(p, q) && b.record == a.record
    requires Step(b, q, c, r, state)
    ensures Step(a, p, c, r, state)
  {
  }

  /** systemd-run, under the record that names the attempt and at the target that was read as unmounted. */
  method StartService(host: Host, state: MountState, ghost seen: World) returns (started: bool)
    requires host.Inv() && StartingRecord(state) && Published(host.past, state.attemptID)
    requires host.settled ==> Quiet(seen)
    requires host.record == Some(state) && ClearSince(seen, host.View(), state.stagingTarget)
    modifies host.runtime, host`past, host`lost
    ensures host.Risked(seen) && host.record == old(host.record)
    ensures old(host.past).starts < host.past.starts
    ensures Later(old(host.View()), host.View()) && Proceeds(old(host.past), host.past)
    ensures host.settled ==>
      && started && Started(old(host.past), host.past, state)
      && (if host.prompt then CameUp(old(host.View()), host.View()) else Activated(old(host.View()), host.View()))
  {
    hide Host.Inv, NoSupervisor, ValidMountState, Started, ActsSee, SafeActs, OwnerMissed;
    NoProcessYet(state);
    started := host.StartUnit(seen);
  }

  lemma EvolvingIsLater(a: World, b: World)
    requires Evolves(a, b)
    ensures Later(a, b)
  {
  }

  /** publishStartupFile for the environment and for the arguments. */
  method PublishStartupFiles(host: Host, state: MountState, ghost seen: World) returns (ok: bool)
    requires host.Inv() && StartingRecord(state)
    requires host.record == Some(state) && ClearSince(seen, host.View(), state.stagingTarget)
    modifies host.runtime, host`past
    ensures host.Inv() && host.record == old(host.record)
    ensures Later(old(host.View()), host.View()) && ClearSince(seen, host.View(), state.stagingTarget)
    ensures CleansUp(old(host.past), host.past, host.record)
    ensures ok ==> Published(host.past, state.attemptID)
    ensures host.settled ==> ok && host.View() == old(host.View()).(startup := host.runtime.startup)
  {
    hide ValidMountArgs, Evolves, Host.Inv, NoSupervisor, ClearSince;
    ghost var start := host.View();
    ok := host.PublishStartupFile(StartupFile(state.attemptID, Env), StartupFile(state.attemptID, EnvTemp));
    ghost var published := host.View();
    ClearWhilePublishing(seen, start, published, state.stagingTarget);
    if ok {
      ok := host.PublishStartupFile(StartupFile(state.attemptID, Args), StartupFile(state.attemptID, ArgsTemp));
      ClearWhilePublishing(seen, published, host.View(), state.stagingTarget);
    }
  }

  lemma ClearWhilePublishing(seen: World, a: World, b: World, target: Target)
    requires Evolves(a.(startup := b.startup), b)
    ensures ClearSince(seen, a, target) ==> ClearSince(seen, b, target)
    ensures Later(a, b)
  {
  }

  // ---- The fallback ------------------------------------------------------------------------------

  /** The record that a recovery attempt falls back to. */
  predicate FallbackOf(state: MountState, fallback: MountState) {
    && fallback.phase == Starting && fallback.reason == Recovery && NoFallback(fallback)
    && SameMountIdentity(state, fallback)
    && fallback.binaryPath == state.fallbackBinaryPath && fallback.mountArgs == state.fallbackMountArgs
    && fallback.pid == 0 && !fallback.envPath.NoPath?
  }

  lemma FallbackIsSound(state: MountState, attempt: AttemptID, now: int)
    requires FallbackRecord(state, attempt, now).Some?
    ensures var fallback := FallbackRecord(state, attempt, now).value;
      && FallbackOf(state, fallback) && StartingRecord(fallback) && !state.fallbackBinaryPath.NoBinary?
  {
    hide ValidMountArgs;
  }

  lemma FallbackIsAccepted(state: MountState, attempt: AttemptID, now: int)
    requires StartingRecord(state) && !state.fallbackBinaryPath.NoBinary?
    requires WellFormedAttempt(attempt) && attempt != state.attemptID
    ensures FallbackRecord(state, attempt, now).Some?
    ensures ValidTransition(Some(state), FallbackRecord(state, attempt, now).value)
  {
    FallbackRecordAccepted(state, attempt, now);
  }

  lemma FallbackStep(a: World, p: Past, b: World, q: Past, c: World, r: Past, state: MountState, fallback: MountState)
    requires Step(a, p, b, q, state) && b.record == Some(fallback) && FallbackOf(state, fallback)
    requires !state.fallbackBinaryPath.NoBinary?
    requires Step(b, q, c, r, fallback)
    ensures Step(a, p, c, r, state)
  {
  }

  /** Build the fallback of this attempt and write it in place of the attempt (mount_reconcile_starting.go:489-512). */
  method CommitFallback(host: Host, state: MountState, ghost seen: World) returns (committed: Option<MountState>)
    requires host.Inv() && StartingRecord(state) && OfAttempt(host.record, state)
    requires ClearedSince(seen, host.View(), state.stagingTarget) && (host.settled ==> Quiet(seen))
    modifies host.runtime, host`record, host`past, host`lost
    ensures host.Risked(seen) && Step(old(host.View()), old(host.past), host.View(), host.past, state)
    ensures committed.Some? ==>
      && host.record == committed && ClearSince(seen, host.View(), state.stagingTarget)
      && FallbackOf(state, committed.value) && StartingRecord(committed.value)
      && !state.fallbackBinaryPath.NoBinary?
    ensures host.settled && old(host.record) == Some(state) && !state.fallbackBinaryPath.NoBinary? ==> committed.Some?
  {
    hide StartingRecord, Evolves, Host.Inv, NoSupervisor, ServesConsumers, FallbackRecord, ValidTransition, Step,
      ActsSee, SafeActs, OwnerMissed;
    ghost var start, begun := host.View(), host.past;
    host.Sound();
    NoStep(start, begun, state);
    NothingIsSeen(seen, begun, begun);
    committed := None;
    var attempt := host.NewAttemptID();
    if attempt.Some? {
      var now := host.Now();
      ghost var atNow := host.View();
      ClearedSinceEvolves(seen, start, atNow, state.stagingTarget);
      LaterIsStep(start, begun, atNow, begun, state);
      var fallback := FallbackRecord(state, attempt.value, now);
      if start.record == Some(state) && !state.fallbackBinaryPath.NoBinary? {
        FallbackIsAccepted(state, attempt.value, now);
      }
      if fallback.Some? {
        FallbackIsSound(state, attempt.value, now);
        committed := WriteFallback(host, state, fallback.value, seen);
        LaterIsStep(start, begun, atNow, begun, state);
        StepTwice(start, begun, atNow, begun, host.View(), host.past, state) by {
          EvolvingIsLater(start, atNow);
          AcceptingProceeds(begun, begun);
        }
      }
    }
  }

  lemma LaterIsStep(a: World, p: Past, b: World, q: Past, state: MountState)
    requires OfAttempt(a.record, state) && Evolves(a, b) && p == q
    ensures Step(a, p, b, q, state)
  {
  }

  lemma StartingIsNotStopping(record: Option<MountState>, state: MountState)
    requires StartingRecord(state) && OfAttempt(record, state)
    ensures record.Some? && record.value.phase != Stopping && record.value.stagingTarget == state.stagingTarget
    ensures Deletable(state)
  {
  }

  /** The write takes the record of the attempt away, so nothing of it should be left. */
  method WriteFallback(host: Host, state: MountState, fallback: MountState, ghost seen: World)
    returns (committed: Option<MountState>)
    requires host.Inv() && StartingRecord(state) && OfAttempt(host.record, state)
    requires FallbackOf(state, fallback) && StartingRecord(fallback) && !state.fallbackBinaryPath.NoBinary?
    requires ClearedSince(seen, host.View(), state.stagingTarget) && (host.settled ==> Quiet(seen))
    modifies host.runtime, host`record, host`past, host`lost
    ensures host.Risked(seen) && Step(old(host.View()), old(host.past), host.View(), host.past, state)
    ensures host.past.starts == old(host.past).starts
    ensures committed.Some? ==>
      committed == Some(fallback) && host.record == committed && ClearSince(seen, host.View(), state.stagingTarget)
    ensures host.settled && ValidTransition(old(host.record), fallback) ==> committed.Some?
  {
    hide StartingRecord, Evolves, Host.Inv, NoSupervisor, ServesConsumers, ValidTransition, ActsSee, SafeActs,
      OwnerMissed;
    ghost var start, begun := host.View(), host.past;
    StartingIsNotStopping(host.record, state);
    var written := host.ReplaceRecord(fallback, seen);
    ClearSinceEvolves(seen, start, host.View(), state.stagingTarget);
    EvolvingIsLater(start.(record := host.record), host.View());
    committed := if written then Some(fallback) else None;
  }

  lemma FallbackIsResumable(state: MountState, fallback: MountState, credentials: Option<Credentials>)
    requires FallbackOf(state, fallback) && StartingRecord(fallback)
    ensures FallbackReady(state, credentials) ==> Resumable(fallback, credentials)
  {
    if FallbackReady(state, credentials) {
      ResumableIff(fallback, credentials.value);
    }
  }

  lemma FallbackStartedLater(p: Past, q: Past, r: Past, state: MountState)
    requires p.starts <= q.starts <= r.starts
    ensures (exists fallback :: FallbackOf(state, fallback) && Started(q, r, fallback)) ==>
      exists fallback :: FallbackOf(state, fallback) && Started(p, r, fallback)
  {
    forall fallback {
      StartedLater(p, q, r, fallback);
    }
  }

  /** switchToFallback. */
  method SwitchToFallback(host: Host, state: MountState, credentials: Option<Credentials>, ghost seen: World)
    returns (result: StartingResult, error: StartingError)
    requires host.Inv() && StartingRecord(state) && OfAttempt(host.record, state)
    requires ClearedSince(seen, host.View(), state.stagingTarget) && (host.settled ==> Quiet(seen))
    modifies host.runtime, host`record, host`past, host`lost
    ensures host.Risked(seen) && Step(old(host.View()), old(host.past), host.View(), host.past, state)
    ensures result != Deleted
    ensures error != CleanupRequired && (error == CredentialsRequired ==> host.record == old(host.record))
    ensures result == Promoted ==> host.record.Some? && host.record.value.phase == Active
    ensures result == Switched ==> host.record.Some? && Runs(state, host.record.value)
    ensures host.settled && FallbackReady(state, credentials) && old(host.record) == Some(state) ==>
      exists fallback :: FallbackOf(state, fallback) && Started(old(host.past), host.past, fallback)
    ensures CanGoOn(state) && credentials.None? ==> error == CredentialsRequired && host.View() == old(host.View())
  {
    hide StartingRecord, Evolves, Host.Inv, NoSupervisor, CleansUp, Step, ServesConsumers, Started,
      Proceeds, ServerOf, StartupPathsOf, ActsSee, SafeActs, OwnerMissed, ClearedSince, Quiet, Running;
    ghost var start, begun := host.View(), host.past;
    host.Sound();
    NoStep(start, begun, state);
    NothingIsSeen(seen, begun, begun);
    result, error := LeftAsIs, Failed;
    if state.fallbackBinaryPath.NoBinary? || state.fallbackMountArgs == [] {
      result := Degraded;
    } else if !UsesDirectMountStrict(state.fallbackMountArgs) {
      result := Degraded;
    } else if credentials.None? || ServerOf(state.fallbackMountArgs) != Some(credentials.value.server) {
      error := CredentialsRequired;
    } else {
      StartingHasPaths(state);
      var absent := ClearAttempt(host, state, seen);
      ghost var cleared, between := host.View(), host.past;
      NoStep(cleared, between, state);
      NothingIsSeen(seen, begun, between);
      StepTwice(start, begun, cleared, between, cleared, between, state);
      if absent {
        result, error := SwitchCleared(host, state, credentials, seen);
        StepTwice(start, begun, cleared, between, host.View(), host.past, state);
        ProceedingStarts(begun, between);
        StepStarts(cleared, between, host.View(), host.past, state);
        FallbackStartedLater(begun, between, host.past, state);
        ActsSeeAfter(begun, between, host.past, seen);
      }
    }
  }

  /**
    * Remove the startup files of the attempt and make sure that its unit is gone
    * (mount_reconcile_starting.go:478-487).
    */
  method ClearAttempt(host: Host, state: MountState, ghost seen: World) returns (absent: bool)
    requires host.Inv() && OfAttempt(host.record, state)
    requires ClearedSince(seen, host.View(), state.stagingTarget)
    modifies host.runtime, host`past
    ensures host.Inv() && host.record == old(host.record) && NothingStarted(old(host.past), host.past)
    ensures Later(old(host.View()), host.View()) && Proceeds(old(host.past), host.past)
    ensures ClearedSince(seen, host.View(), state.stagingTarget)
    ensures host.settled && StartupPathsOf(state) ==> absent
  {
    hide StartingRecord, Evolves, Host.Inv, NoSupervisor, StartupPathsOf, ClearedSince;
    ghost var start, begun := host.View(), host.past;
    absent := RemoveAttemptStartupFiles(host, state);
    CleaningUpProceeds(begun, host.past, host.record);
    EvolvingIsLater(start, host.View());
    ClearedSinceEvolves(seen, start, host.View(), state.stagingTarget);
    StillCleared(seen, start, state.stagingTarget);
    if absent {
      ghost var removed := host.View();
      var service := host.QueryUnit();
      EvolvesTwice(start, removed, host.View());
      EvolvingIsLater(start, host.View());
      ClearedSinceEvolves(seen, start, host.View(), state.stagingTarget);
      absent := service == Known(None);
    }
  }

  lemma StillCleared(seen: World, w: World, target: Target)
    requires ClearedSince(seen, w, target)
    ensures w.unit.NotFound? && w.startup == {}
  {
  }

  method SwitchCleared(host: Host, state: MountState, credentials: Option<Credentials>, ghost seen: World)
    returns (result: StartingResult, error: StartingError)
    requires host.Inv() && StartingRecord(state) && OfAttempt(host.record, state) && credentials.Some?
    requires ClearedSince(seen, host.View(), state.stagingTarget) && (host.settled ==> Quiet(seen))
    modifies host.runtime, host`record, host`past, host`lost
    ensures host.Risked(seen) && Step(old(host.View()), old(host.past), host.View(), host.past, state)
    ensures result != Deleted && error != CleanupRequired && error != CredentialsRequired
    ensures result == Promoted ==> host.record.Some? && host.record.value.phase == Active
    ensures result == Switched ==> host.record.Some? && Runs(state, host.record.value)
    ensures host.settled && FallbackReady(state, credentials) && old(host.record) == Some(state) ==>
      exists fallback :: FallbackOf(state, fallback) && Started(old(host.past), host.past, fallback)
  {
    hide StartingRecord, Evolves, Host.Inv, NoSupervisor, ServesConsumers, Step, Started, ValidCredentials,
      CredentialsMatch, ActsSee, SafeActs, OwnerMissed, ClearedSince, ClearSince, Quiet, Running;
    ghost var start, begun := host.View(), host.past;
    result, error := LeftAsIs, Failed;
    var fallback := CommitFallback(host, state, seen);
    if fallback.Some? {
      ghost var committed, between := host.View(), host.past;
      FallbackIsResumable(state, fallback.value, credentials);
      result, error := ResumeStarting(host, fallback.value, credentials, seen);
      FallbackStep(start, begun, committed, between, host.View(), host.past, state, fallback.value);
      StepStarts(start, begun, committed, between, state);
      StepStarts(committed, between, host.View(), host.past, fallback.value);
      ActsSeeTwice(begun, between, host.past, seen);
      StartedLater(begun, between, host.past, fallback.value);
      if error != NoError {
        result := Switched;
      }
    }
  }

  // ---- No process, no unit ------------------------------------------------------------------------

  /** Nothing of the attempt is left on the host. */
  predicate Cleared(w: World, target: Target) {
    Vacant(w, target) && w.startup == {} && (w.lost || target !in w.processStates)
  }

  lemma ClearedIfQuiet(seen: World, w: World, target: Target)
    requires ClearedSince(seen, w, target)
    ensures Quiet(seen) ==> Cleared(w, target)
  {
  }

  /** The target was read as unmounted in `seen`, and no process-state file was found after that. */
  predicate AbsentSince(seen: World, w: World, target: Target) {
    && (NoneToCome(seen) ==> NoSupervisor(w))
    && (|| w.lost
        || (&& target !in seen.mounts
            && (!Running(seen.unit) ==> target !in w.processStates)
            && (Quiet(seen) ==> target !in w.mounts)))
  }

  /** What an observation without a process means once the unit is gone. */
  predicate AbsenceHolds(seen: World, w: World, process: StartingProcess, target: Target) {
    process.ProcessAbsent? ==> AbsentSince(seen, w, target)
  }

  /**
    * Remove what a dead process and the attempt have left (mount_reconcile_starting.go:356-363). A dead
    * process calls for a new look at the mount; an absent one has been observed after the one in `seen`.
    */
  method ClearAbsent(host: Host, state: MountState, process: StartingProcess, ghost seen: World)
    returns (cleared: bool, ghost looked: World)
    requires host.Inv() && OfAttempt(host.record, state) && host.runtime.unit.NotFound?
    requires process.ProcessAbsent? || process.ProcessDead?
    requires Evolves(seen, host.View()) && AbsenceHolds(seen, host.View(), process, state.stagingTarget)
    requires host.settled && process.ProcessAbsent? ==> Quiet(seen)
    modifies host.runtime, host`past
    ensures host.Inv() && host.record == old(host.record) && NothingStarted(old(host.past), host.past)
    ensures Later(old(host.View()), host.View()) && Proceeds(old(host.past), host.past)
    ensures Evolves(seen, looked)
    ensures cleared ==> ClearedSince(looked, host.View(), state.stagingTarget)
    ensures host.settled && cleared ==> Quiet(looked)
    ensures host.settled && AttemptIsReleased(old(host.View()), state) ==>
      cleared && AttemptIsReleased(host.View(), state)
  {
    hide Evolves, Host.Inv, StartupPathsOf, CleansUp, Proceeds, NoSupervisor, ArtifactsGone, StartingRecord;
    ghost var start, begun := host.View(), host.past;
    AcceptingProceeds(begun, begun);
    EvolvesReflexive(start);
    EvolvesReflexive(seen);
    ReleasedHasPaths(start, state);
    cleared, looked := true, seen;
    if process.ProcessDead? {
      cleared, looked := RemoveVerifiedDeadRuntimeArtifacts(host, state);
      CleaningUpProceeds(begun, host.past, host.record);
      CleansUpStartsNothing(begun, host.past, host.record);
      EvolvesTwice(seen, start, looked);
    }
    ghost var removed, between := host.View(), host.past;
    EvolvingIsLater(start, removed);
    if cleared {
      cleared := RemoveAttemptStartupFiles(host, state);
      CleaningUpProceeds(between, host.past, host.record);
      CleansUpStartsNothing(between, host.past, host.record);
      ProceedsTwice(begun, between, host.past);
      EvolvesTwice(start, removed, host.View());
      EvolvingIsLater(start, host.View());
      AbsenceEvolves(start, removed);
      AbsenceEvolves(removed, host.View());
      if host.runtime.startup == {} {
        if process.ProcessDead? {
          GoneIsClearedSince(looked, removed, host.View(), state.stagingTarget);
        } else {
          AbsentIsClearedSince(seen, removed, host.View(), state.stagingTarget);
        }
      }
      if cleared && host.settled && AttemptIsReleased(start, state) {
        ClearedIsReleased(looked, host.View(), state);
      }
    }
  }

  lemma ClearedIsReleased(seen: World, w: World, state: MountState)
    requires ClearedSince(seen, w, state.stagingTarget) && Quiet(seen) && !w.lost && w.record == Some(state)
    requires StartingRecord(state)
    ensures AttemptIsReleased(w, state)
  {
    hide StartingRecord;
  }

  lemma ReleasedHasPaths(w: World, state: MountState)
    ensures AttemptIsReleased(w, state) ==> StartupPathsOf(state) && ArtifactPathsMatch(state)
  {
    hide ValidMountArgs;
  }

  lemma GoneIsClearedSince(seen: World, a: World, b: World, target: Target)
    requires ArtifactsGone(seen, a, target) && a.unit.NotFound? && Evolves(a, b) && b.startup == {}
    ensures ClearedSince(seen, b, target)
  {
  }

  lemma AbsentIsClearedSince(seen: World, a: World, b: World, target: Target)
    requires AbsentSince(seen, a, target) && a.unit.NotFound? && Evolves(a, b) && b.startup == {}
    ensures ClearedSince(seen, b, target)
  {
  }

  /** Delete the record of a cancelled stage (mount_reconcile_starting.go:365-370). */
  method DeleteStage(host: Host, state: MountState, ghost seen: World) returns (deleted: bool)
    requires host.Inv() && StartingRecord(state) && OfAttempt(host.record, state) && state.reason == Stage
    requires ClearedSince(seen, host.View(), state.stagingTarget) && (host.settled ==> Quiet(seen))
    modifies host.runtime, host`record, host`past, host`lost
    ensures host.Risked(seen) && Step(old(host.View()), old(host.past), host.View(), host.past, state)
    ensures deleted ==> host.record.None? && ClearedSince(seen, host.View(), state.stagingTarget)
    ensures host.settled && old(host.record) == Some(state) ==> deleted
  {
    hide Evolves, Host.Inv, StartingRecord, NoSupervisor, ActsSee, SafeActs, OwnerMissed;
    ghost var start, begun := host.View(), host.past;
    host.Sound();
    StartingIsNotStopping(host.record, state);
    NoStep(start, begun, state);
    NothingIsSeen(seen, begun, begun);
    EvolvesReflexive(start);
    deleted := false;
    if host.record == Some(state) {
      deleted := host.DropRecord(state, seen);
      EvolvingIsLater(start.(record := host.record), host.View());
      ClearedSinceEvolves(seen, start, host.View(), state.stagingTarget);
    } else {
      host.Interfere();
      EvolvingIsLater(start, host.View());
    }
  }

  /** Delete, resume, fall back or give up (mount_reconcile_starting.go:365-386). */
  method Decide(
    host: Host, state: MountState, credentials: Option<Credentials>, failed: bool, remaining: nat, ghost seen: World
  ) returns (result: StartingResult, error: StartingError)
    requires host.Inv() && StartingRecord(state) && OfAttempt(host.record, state)
    requires ClearedSince(seen, host.View(), state.stagingTarget) && (host.settled ==> Quiet(seen))
    requires host.record == Some(state) || state.reason == Stage || failed || remaining == 0
    modifies host.runtime, host`record, host`past, host`lost
    ensures host.Risked(seen) && Step(old(host.View()), old(host.past), host.View(), host.past, state)
    ensures Reports(result, host.View(), state, Quiet(seen))
    ensures Retryable(old(host.record), host.View(), state, result, error)
    ensures host.settled && old(host.record) == Some(state) ==>
      MovesOn(state, credentials, failed || remaining == 0, result, old(host.past), host.past)
    ensures CanGoOn(state) && credentials.None? ==> error == CredentialsRequired && host.View() == old(host.View())
  {
    hide StartingRecord, Evolves, Host.Inv, NoSupervisor, Step, UsesDirectMountStrict, Started, Resumable, ActsSee,
      SafeActs, OwnerMissed, ClearSince, Quiet, Running;
    ghost var start, begun := host.View(), host.past;
    host.Sound();
    NoStep(start, begun, state);
    NothingIsSeen(seen, begun, begun);
    result, error := Degraded, Failed;
    if state.reason == Stage {
      var deleted := DeleteStage(host, state, seen);
      if deleted {
        ClearedIfQuiet(seen, host.View(), state.stagingTarget);
        StillCleared(seen, host.View(), state.stagingTarget);
      }
      result, error := if deleted then Deleted else LeftAsIs, if deleted then NoError else Failed;
    } else if UsesDirectMountStrict(state.mountArgs) {
      if !failed && remaining > 0 {
        result, error := ResumeStarting(host, state, credentials, seen);
      } else if !state.fallbackBinaryPath.NoBinary? {
        result, error := SwitchToFallback(host, state, credentials, seen);
      } else {
        var removed := RemoveAttemptStartupFiles(host, state);
        StepOfCleanup(start, begun, host.View(), host.past, state);
        CleansUpStartsNothing(begun, host.past, host.record);
        NothingIsSeen(seen, begun, host.past);
      }
    }
  }

  lemma StepStarts(a: World, p: Past, b: World, q: Past, state: MountState)
    requires Step(a, p, b, q, state)
    ensures p.starts <= q.starts
  {
  }

  lemma StepOfCleanup(a: World, p: Past, b: World, q: Past, state: MountState)
    requires OfAttempt(a.record, state) && Evolves(a, b) && CleansUp(p, q, a.record)
    ensures Step(a, p, b, q, state)
  {
  }

  /** handleAbsentStarting. */
  method HandleAbsent(
    host: Host, state: MountState, credentials: Option<Credentials>, process: StartingProcess,
    failed: bool, remaining: nat, ghost seen: World
  ) returns (result: StartingResult, error: StartingError)
    requires host.Inv() && StartingRecord(state) && OfAttempt(host.record, state) && host.runtime.unit.NotFound?
    requires process.ProcessAbsent? || process.ProcessDead?
    requires Evolves(seen, host.View()) && AbsenceHolds(seen, host.View(), process, state.stagingTarget)
    requires host.settled && process.ProcessAbsent? ==> Quiet(seen)
    requires host.record == Some(state) || state.reason == Stage || failed || remaining == 0
    modifies host.runtime, host`record, host`past, host`lost
    ensures host.RiskedSince(seen) && Step(old(host.View()), old(host.past), host.View(), host.past, state)
    ensures Reports(result, host.View(), state, Quiet(seen) || host.settled)
    ensures Retryable(old(host.record), host.View(), state, result, error)
    ensures host.settled && AttemptIsReleased(old(host.View()), state) ==>
      MovesOn(state, credentials, failed || remaining == 0, result, old(host.past), host.past)
    ensures host.settled && AttemptIsReleased(old(host.View()), state) && CanGoOn(state) && credentials.None? ==>
      error == CredentialsRequired && AttemptIsReleased(host.View(), state)
  {
    hide StartingRecord, Evolves, Host.Inv, NoSupervisor, Step, Proceeds, MovesOn, CanGoOn, ActsSee, SeenSince,
      SafeActs, OwnerMissed, ClearedSince, Running, AbsenceHolds, Cleared;
    ghost var start, begun := host.View(), host.past;
    result, error := LeftAsIs, Failed;
    var cleared: bool;
    ghost var looked: World;
    cleared, looked := ClearAbsent(host, state, process, seen);
    ghost var between, removed := host.past, host.View();
    NoStep(removed, between, state);
    NothingIsSeen(seen, begun, between);
    StepTwice(start, begun, removed, between, removed, between, state);
    if cleared {
      QuietStays(seen, looked);
      NotRunningStays(seen, looked);
      result, error := Decide(host, state, credentials, failed, remaining, looked);
      StepTwice(start, begun, removed, between, host.View(), host.past, state);
      StepStarts(removed, between, host.View(), host.past, state);
      ProceedingStarts(begun, between);
      EvolvingFollows(seen, looked);
      ActsSeeSince(seen, looked, between, host.past);
      EvolvesReflexive(seen);
      EvolvingFollows(seen, seen);
      SeenAfter(seen, begun, seen, between, host.past);
      if host.settled && AttemptIsReleased(start, state) {
        MovesOnAfter(state, credentials, failed || remaining == 0, result, begun, between, host.past);
      }
    }
  }

  // ---- Expired attempts ------------------------------------------------------------------------

  /** A stretch of clean-up commands under one record. */
  predicate Cleans(a: World, p: Past, b: World, q: Past) {
    Evolves(a, b) && b.record == a.record && CleansUp(p, q, a.record)
  }

  lemma CleansTwice(a: World, p: Past, b: World, q: Past, c: World, r: Past)
    requires Cleans(a, p, b, q) && Cleans(b, q, c, r)
    ensures Cleans(a, p, c, r)
  {
  }

  lemma CleansNothing(a: World, p: Past, b: World, q: Past)
    requires Evolves(a, b) && b.record == a.record && (OnlyAccepts(p, q) || p == q)
    ensures Cleans(a, p, b, q)
  {
  }

  /** The attempt with the process that may be killed for it: none, or one that passed an ownership check. */
  predicate OwnedOf(w: World, past: Past, state: MountState, owned: MountState) {
    && owned.stagingTarget == state.stagingTarget && owned.attemptID == state.attemptID
    && (owned.pid > 0 ==>
          owned.pidStartTime > 0 && RecordedIdent(owned) in past.accepted && OnlyOne(w, RecordedIdent(owned)))
  }

  lemma OwnedStays(a: World, p: Past, b: World, q: Past, state: MountState, owned: MountState)
    requires OwnedOf(a, p, state, owned) && Cleans(a, p, b, q)
    ensures OwnedOf(b, q, state, owned)
  {
    if owned.pid > 0 {
      OnlyOneStays(a, b, RecordedIdent(owned));
    }
  }

  /** What a verified process means: it is accepted, and the only one that there is or will be. */
  predicate Verified(w: World, past: Past, process: StartingProcess) {
    process.ProcessVerified? ==>
      && process.process.pid > 0 && process.process.pidStartTime > 0 && IdentOf(process.process) in past.accepted
      && OnlyOne(w, IdentOf(process.process))
  }

  /** The ownership part of failExpiredStarting (mount_reconcile_starting.go:224-249). */
  method AttributeExpired(host: Host, state: MountState, process: StartingProcess, service: Option<UnitState>)
    returns (owned: Option<MountState>)
    requires host.Inv() && state.pid == 0 && Verified(host.View(), host.past, process)
    modifies host.runtime, host`past
    ensures host.Inv() && Cleans(old(host.View()), old(host.past), host.View(), host.past)
    ensures owned.Some? ==> OwnedOf(host.View(), host.past, state, owned.value)
    ensures owned.Some? && process.ProcessVerified? ==> owned.value.pid > 0
    ensures host.settled && AttemptIsStuck(old(host.View()), state) && service == ServiceOf(old(host.runtime.unit)) ==>
      (process == StuckProcess(old(host.View()), state) ==>
         owned.Some? && OwnsAttempt(host.View(), state, owned.value) && host.View() == old(host.View()))
  {
    hide Host.Inv, Evolves, AttemptIsStuck, StuckProcess, OnlyOne;
    EvolvesReflexive(host.View());
    owned := if process.ProcessVerified? then Some(WithProcess(state, process.process)) else None;
    if Live(service) {
      owned := AttributeRunning(host, state, process);
    } else {
      StuckRuns(host.View(), state);
    }
  }

  lemma StuckRuns(w: World, state: MountState)
    ensures AttemptIsStuck(w, state) ==> Live(ServiceOf(w.unit))
  {
    hide StartingRecord;
  }

  /** The same for a unit that runs: its main process, if it has one, must be the recorded one, if there is one. */
  method AttributeRunning(host: Host, state: MountState, process: StartingProcess) returns (owned: Option<MountState>)
    requires host.Inv() && state.pid == 0 && Verified(host.View(), host.past, process)
    modifies host.runtime, host`past
    ensures host.Inv() && Cleans(old(host.View()), old(host.past), host.View(), host.past)
    ensures owned.Some? ==> OwnedOf(host.View(), host.past, state, owned.value)
    ensures owned.Some? && process.ProcessVerified? ==> owned.value.pid > 0
    ensures host.settled && AttemptIsStuck(old(host.View()), state) ==>
      (process == StuckProcess(old(host.View()), state) ==>
         owned.Some? && OwnsAttempt(host.View(), state, owned.value) && host.View() == old(host.View()))
  {
    hide Host.Inv, Evolves, StartingRecord, Consistent, NoSupervisor, OnlyOne, OnlyAccepts;
    ghost var start, begun := host.View(), host.past;
    host.Sound();
    var main := VerifyStartingMainPID(host, state);
    host.Sound();
    if process.ProcessVerified? {
      OnlyOneStays(start, host.View(), IdentOf(process.process));
    }
    owned := None;
    if main.Known? && main.value.Some? {
      LiveSupervisorIsOnly(host.View(), main.value.value);
      if host.settled && AttemptIsStuck(start, state) && process.ProcessVerified? {
        if process == StuckProcess(start, state) {
          OneSupervisor(start, main.value.value, process.process) by {
            StuckIsSupervised(start, state);
          }
        }
      }
      if process.ProcessVerified? ==> process.process.pid == main.value.value.pid {
        owned := Some(WithProcess(state, main.value.value));
      }
    } else if main.Known? {
      owned := Some(if process.ProcessVerified? then WithProcess(state, process.process) else state);
    }
    AcceptedStays(begun, host.past, process);
    CleansNothing(start, begun, host.View(), host.past);
  }

  lemma AcceptedStays(p: Past, q: Past, process: StartingProcess)
    requires OnlyAccepts(p, q)
    ensures process.ProcessVerified? && IdentOf(process.process) in p.accepted ==>
      IdentOf(process.process) in q.accepted
  {
  }

  lemma StuckIsSupervised(w: World, state: MountState)
    requires AttemptIsStuck(w, state) && StuckProcess(w, state).ProcessVerified?
    ensures LiveSupervisor(w, StuckProcess(w, state).process)
  {
    hide StartingRecord;
  }

  /** Drain a mounted target and stop a running service (mount_reconcile_starting.go:252-263). */
  method StopExpired(host: Host, target: Target, service: Option<UnitState>) returns (ok: bool)
    requires host.Inv()
    modifies host.runtime, host`past
    ensures host.Inv() && Cleans(old(host.View()), old(host.past), host.View(), host.past)
    ensures host.settled && Live(service) ==> ok && StopEffect(old(host.View()), host.View())
    ensures host.settled && target in old(host.runtime.mounts) ==> host.past.drains > old(host.past).drains
  {
    hide Host.Inv, Persists, OnlySurvivors, Shrinks, NoSupervisor, StopEffect;
    EvolvesComposes();
    var mounted := host.IsMountPoint(target);
    ok := mounted.Known?;
    if ok {
      if mounted.value {
        var drained := host.Drain();
      }
      if Live(service) {
        ok := host.StopUnit();
      }
    }
  }

  /** Unmount, lazily if needed (mount_reconcile_starting.go:265-280). */
  method UnmountExpired(host: Host, target: Target) returns (ok: bool)
    requires host.Inv()
    modifies host.runtime, host`past
    ensures host.Inv() && Cleans(old(host.View()), old(host.past), host.View(), host.past)
    ensures host.settled ==> ok && host.View() == old(host.View()).(mounts := old(host.runtime.mounts) - {target})
  {
    hide Host.Inv, Persists, OnlySurvivors, Shrinks, NoSupervisor;
    EvolvesComposes();
    var mounted := host.IsMountPoint(target);
    if mounted == Known(true) {
      var unmounted := host.KernelUnmount(target, false);
      mounted := host.IsMountPoint(target);
    }
    ok := mounted.Known?;
    if mounted == Known(true) {
      ok := host.KernelUnmount(target, true);
    }
  }

  /** Kill the owned process if it is alive; only then (mount_reconcile_starting.go:282-290). */
  method KillExpired(host: Host, state: MountState, owned: MountState) returns (ok: bool)
    requires host.Inv() && OwnedOf(host.View(), host.past, state, owned)
    modifies host.runtime, host`past
    ensures host.Inv() && Cleans(old(host.View()), old(host.past), host.View(), host.past)
    ensures host.settled ==> ok && host.View() == old(host.View()).(procs :=
      if owned.pid > 0 && Alive(old(host.View()), RecordedIdent(owned))
      then old(host.runtime.procs) - {RecordedIdent(owned).pid} else old(host.runtime.procs))
  {
    hide Host.Inv, Persists, OnlySurvivors, Shrinks, NoSupervisor;
    EvolvesComposes();
    host.Sound();
    var alive := StoppingPIDAlive(host, owned);
    ok := alive.Known?;
    if alive == Known(true) {
      ok := KillStoppingPID(host, owned);
    }
  }

  /** The unit must be gone, after a reset if it failed (mount_reconcile_starting.go:292-308). */
  method ConfirmUnitGone(host: Host) returns (gone: bool)
    requires host.Inv()
    modifies host.runtime, host`past
    ensures host.Inv() && Cleans(old(host.View()), old(host.past), host.View(), host.past)
    ensures gone ==> host.runtime.unit.NotFound?
    ensures host.settled && !Running(old(host.runtime.unit)) ==>
      && (gone <==> old(host.runtime.unit).NotFound? || old(host.runtime.unit).state.UnitFailed?)
      && host.View() == if gone then old(host.View()).(unit := NotFound) else old(host.View())
  {
    hide Host.Inv, Persists, OnlySurvivors, Shrinks, NoSupervisor;
    EvolvesComposes();
    var service := host.QueryUnit();
    gone := service == Known(None);
    if service == Known(Some(UnitFailed)) {
      gone := UnloadUnit(host);
    }
  }

  /** The mount and the process must be gone too (mount_reconcile_starting.go:309-321). */
  method ConfirmRuntimeGone(host: Host, state: MountState, owned: MountState) returns (gone: bool)
    requires host.Inv() && OwnedOf(host.View(), host.past, state, owned) && host.runtime.unit.NotFound?
    modifies host.runtime, host`past
    ensures host.Inv() && Cleans(old(host.View()), old(host.past), host.View(), host.past)
    ensures host.runtime.unit.NotFound?
    ensures gone && owned.pid > 0 ==> Quiet(host.View())
    ensures host.settled && state.stagingTarget !in old(host.runtime.mounts) ==>
      ((owned.pid > 0 ==> !Alive(old(host.View()), RecordedIdent(owned))) ==> gone && host.View() == old(host.View()))
  {
    hide Host.Inv, Persists, OnlySurvivors, Shrinks, NoSupervisor;
    EvolvesComposes();
    ghost var start := host.View();
    host.Sound();
    var mounted := host.IsMountPoint(state.stagingTarget);
    gone := mounted == Known(false);
    if gone {
      var alive := StoppingPIDAlive(host, owned);
      gone := alive == Known(false);
    }
    OwnerIsDead(start, host.View(), owned);
  }

  /** Then the startup files and the artifacts go (mount_reconcile_starting.go:322-327). */
  method RemoveExpired(host: Host, state: MountState) returns (ok: bool, ghost seen: World)
    requires host.Inv() && OfAttempt(host.record, state) && host.runtime.unit.NotFound?
    modifies host.runtime, host`past
    ensures host.Inv() && Cleans(old(host.View()), old(host.past), host.View(), host.past)
    ensures host.runtime.unit.NotFound?
    ensures Evolves(old(host.View()), seen) && Evolves(seen, host.View())
    ensures ok ==> AbsentSince(seen, host.View(), state.stagingTarget)
    ensures host.settled && ok ==> Quiet(seen)
    ensures host.settled && AttemptIsReleased(old(host.View()), state) ==> ok && AttemptIsReleased(host.View(), state)
  {
    hide Host.Inv, Evolves, NoSupervisor, StartupPathsOf, CleansUp, StartingRecord;
    ghost var start, begun := host.View(), host.past;
    ReleasedHasPaths(start, state);
    EvolvesReflexive(start);
    seen := start;
    ok := RemoveAttemptStartupFiles(host, state);
    ghost var removed, between := host.View(), host.past;
    AbsenceEvolves(start, removed);
    if ok {
      ok, seen := RemoveVerifiedDeadRuntimeArtifacts(host, state);
      EvolvesTwice(start, removed, seen);
      EvolvesTwice(start, removed, host.View());
      AbsenceEvolves(removed, host.View());
      CleansUpTwice(begun, between, host.past, host.record);
      if ok && host.settled && AttemptIsReleased(start, state) {
        ReleasedStays(removed, host.View(), state);
      }
    }
  }

  lemma ReleasedStays(a: World, b: World, state: MountState)
    requires AttemptIsReleased(a, state) && Evolves(a, b) && OnlyRemoved(a, b)
    requires state.stagingTarget !in b.processStates
    ensures AttemptIsReleased(b, state)
  {
    hide StartingRecord;
  }

  /** Drain, stop, unmount and kill, each only after the one before it (mount_reconcile_starting.go:251-290). */
  method TearDownExpired(host: Host, state: MountState, owned: MountState, service: Option<UnitState>)
    returns (ok: bool, ghost stopped: World)
    requires host.Inv() && OwnedOf(host.View(), host.past, state, owned)
    modifies host.runtime, host`past
    ensures host.Inv() && Cleans(old(host.View()), old(host.past), host.View(), host.past)
    ensures OwnedOf(host.View(), host.past, state, owned)
    ensures host.settled && Live(service) ==>
      ok && StopEffect(old(host.View()), stopped) && host.View() == Released(stopped, owned)
    ensures host.settled && state.stagingTarget in old(host.runtime.mounts) ==> host.past.drains > old(host.past).drains
  {
    hide Host.Inv, Evolves, StopEffect, Persists, OnlySurvivors;
    ghost var a, p := host.View(), host.past;
    ok := StopExpired(host, state.stagingTarget, service);
    ghost var b, q := host.View(), host.past;
    stopped := b;
    OwnedStays(a, p, b, q, state, owned);
    if ok {
      ok := UnmountExpired(host, state.stagingTarget);
      ghost var c, r := host.View(), host.past;
      OwnedStays(b, q, c, r, state, owned);
      CleansTwice(a, p, b, q, c, r);
      if ok {
        ok := KillExpired(host, state, owned);
        OwnedStays(c, r, host.View(), host.past, state, owned);
        CleansTwice(a, p, c, r, host.View(), host.past);
      }
    }
  }

  /** The process that may be killed is dead, if there is one. */
  predicate AllDead(w: World, owned: MountState) {
    owned.pid > 0 ==> !Alive(w, RecordedIdent(owned))
  }

  /** Confirm that everything is gone and remove what is left (mount_reconcile_starting.go:292-327). */
  method RemoveTerminal(host: Host, state: MountState, owned: MountState) returns (ok: bool, ghost seen: World)
    requires host.Inv() && OfAttempt(host.record, state) && OwnedOf(host.View(), host.past, state, owned)
    modifies host.runtime, host`past
    ensures host.Inv() && Cleans(old(host.View()), old(host.past), host.View(), host.past)
    ensures Evolves(old(host.View()), seen) && Evolves(seen, host.View())
    ensures ok ==>
      host.runtime.unit.NotFound? && !Running(seen.unit) && AbsentSince(seen, host.View(), state.stagingTarget)
    ensures ok && (host.settled || owned.pid > 0) ==> Quiet(seen)
    ensures host.settled && AttemptIsDead(old(host.View()), state) && AllDead(old(host.View()), owned) ==>
      (state.stagingTarget !in old(host.runtime.mounts) ==>
         if ok then AttemptIsReleased(host.View(), state) else AttemptIsDead(host.View(), state))
  {
    hide Host.Inv, Evolves, CleansUp, OwnedOf, NoSupervisor, StartingRecord;
    ghost var a, p := host.View(), host.past;
    EvolvesReflexive(a);
    ok := ConfirmUnitGone(host);
    ghost var b, q := host.View(), host.past;
    seen := b;
    EvolvesReflexive(b);
    OwnedStays(a, p, b, q, state, owned);
    if ok {
      ok := ConfirmRuntimeGone(host, state, owned);
      ghost var c, r := host.View(), host.past;
      CleansTwice(a, p, b, q, c, r);
      if ok {
        ok, seen := RemoveExpired(host, state);
        CleansTwice(a, p, c, r, host.View(), host.past);
        EvolvesTwice(a, c, seen);
        QuietStays(c, seen);
      }
    }
  }

  /** Attribute, tear down and remove an expired attempt; kills name accepted identities only. */
  method RemoveExpiredAttempt(host: Host, state: MountState, process: StartingProcess, service: Option<UnitState>)
    returns (ok: bool, ghost seen: World)
    requires host.Inv() && OfAttempt(host.record, state) && state.pid == 0 && Verified(host.View(), host.past, process)
    modifies host.runtime, host`past
    ensures host.Inv() && Cleans(old(host.View()), old(host.past), host.View(), host.past)
    ensures Evolves(old(host.View()), seen) && Evolves(seen, host.View())
    ensures ok ==>
      host.runtime.unit.NotFound? && !Running(seen.unit) && AbsentSince(seen, host.View(), state.stagingTarget)
    ensures ok && (host.settled || process.ProcessVerified?) ==> Quiet(seen)
    ensures host.settled && AttemptIsStuck(old(host.View()), state) && service == ServiceOf(old(host.runtime.unit)) ==>
      (process == StuckProcess(old(host.View()), state) ==>
         if ok then AttemptIsReleased(host.View(), state) else AttemptIsDead(host.View(), state))
  {
    hide Host.Inv, Evolves, CleansUp, NoSupervisor, PromotedFrom, AbsentSince, StopEffect, Released, OwnsAttempt,
      Consistent, AttemptIsDead, AttemptIsReleased, StuckProcess, OwnedOf, Verified;
    ghost var a, p := host.View(), host.past;
    var owned := AttributeExpired(host, state, process, service);
    ghost var b, q := host.View(), host.past;
    seen := b;
    EvolvesReflexive(b);
    ok := owned.Some?;
    if ok {
      ghost var stopped: World;
      host.Sound();
      ok, stopped := TearDownExpired(host, state, owned.value, service);
      ghost var c, r := host.View(), host.past;
      seen := c;
      EvolvesReflexive(c);
      CleansTwice(a, p, b, q, c, r);
      OwnedTarget(b, q, state, owned.value);
      if host.settled && AttemptIsStuck(a, state) && service == ServiceOf(a.unit) {
        if process == StuckProcess(a, state) {
          AttemptIsLetGo(b, stopped, c, state, owned.value);
        }
      }
      if ok {
        ok, seen := RemoveTerminal(host, state, owned.value);
        CleansTwice(a, p, c, r, host.View(), host.past);
        EvolvesTwice(a, c, seen);
      }
    }
  }

  lemma OwnedTarget(w: World, past: Past, state: MountState, owned: MountState)
    requires OwnedOf(w, past, state, owned)
    ensures owned.stagingTarget == state.stagingTarget
  {
  }

  /**
    * failExpiredStarting. What it starts or deletes rests on a look at the mount from after the unit has
    * gone, and, if it had a process to kill, from after that had died: then nothing was alive any more.
    */
  method FailExpired(
    host: Host, state: MountState, credentials: Option<Credentials>, process: StartingProcess,
    service: Option<UnitState>
  ) returns (result: StartingResult, error: StartingError, ghost seen: World)
    requires host.Inv() && StartingRecord(state) && OfAttempt(host.record, state)
    requires Verified(host.View(), host.past, process)
    modifies host.runtime, host`record, host`past, host`lost
    ensures host.Inv() && host.lost == old(host.lost)
    ensures Step(old(host.View()), old(host.past), host.View(), host.past, state)
    ensures Evolves(old(host.View()), seen) && SeenSince(seen, old(host.past), host.past)
    ensures NothingStarted(old(host.past), host.past) || !Running(seen.unit)
    ensures process.ProcessVerified? ==> NothingStarted(old(host.past), host.past) || Quiet(seen)
    ensures Reports(result, host.View(), state, Quiet(seen) || host.settled)
    ensures Retryable(old(host.record), host.View(), state, result, error)
    ensures host.settled && AttemptIsStuck(old(host.View()), state) && service == ServiceOf(old(host.runtime.unit)) ==>
      (process == StuckProcess(old(host.View()), state) ==>
         Unsticks(state, credentials, result, old(host.past), host.View(), host.past))
  {
    hide StartingRecord, Evolves, Host.Inv, CleansUp, NoSupervisor, Step, AbsentSince, Proceeds, MovesOn,
      AttemptIsStuck, AttemptIsDead, AttemptIsReleased, StuckProcess, SeenSince, SafeActs, OwnerMissed, Verified,
      Cleared;
    ghost var start, begun := host.View(), host.past;
    NoProcessYet(state);
    result, error := LeftAsIs, Failed;
    var removed: bool;
    removed, seen := RemoveExpiredAttempt(host, state, process, service);
    ghost var absent, between := host.View(), host.past;
    StepOfCleanup(start, begun, absent, between, state);
    CleansUpStartsNothing(begun, between, start.record);
    NothingIsSeen(seen, begun, between);
    EvolvesReflexive(seen);
    EvolvingFollows(seen, seen);
    if removed {
      result, error := HandleAbsent(host, state, credentials, ProcessAbsent, true, 0, seen);
      SeenAfter(seen, begun, seen, between, host.past);
      StepAfterCleanup(start, begun, absent, between, host.View(), host.past, state);
      StepStarts(absent, between, host.View(), host.past, state);
      StepStarts(start, begun, absent, between, state);
      if host.settled && AttemptIsReleased(absent, state) {
        MovesOnAfter(state, credentials, true, result, begun, between, host.past);
      }
    }
  }

  lemma NoProcessYet(state: MountState)
    requires StartingRecord(state)
    ensures state.pid == 0
  {
    hide ValidMountArgs;
  }

  lemma StepAfterCleanup(a: World, p: Past, b: World, q: Past, c: World, r: Past, state: MountState)
    requires OfAttempt(a.record, state) && Cleans(a, p, b, q) && Step(b, q, c, r, state)
    ensures Step(a, p, c, r, state)
  {
    StepOfCleanup(a, p, b, q, state);
    StepTwice(a, p, b, q, c, r, state);
  }

  // ---- The reconciler -----------------------------------------------------------------------------

  datatype StartingObservation =
    StartingObservation(mounted: bool, process: StartingProcess, service: Option<UnitState>)

  /** An error that asks for another pass leaves an attempt that another pass accepts. */
  predicate Retryable(
      before: Option<MountState>, after: World, state: MountState, result: StartingResult, error: StartingError
  ) {
    && (error == CleanupRequired ==> result == LeftAsIs)
    && (error == CleanupRequired || error == CredentialsRequired ==>
          after.record == before || (OfAttempt(after.record, state) && Remaining(state, after.clock) == 0))
  }

  /** What a result says about the host: after a deletion nothing of the attempt is left, if that was sure. */
  predicate Reports(result: StartingResult, w: World, state: MountState, sure: bool) {
    && (result == Deleted ==> w.record.None? && w.unit.NotFound? && (sure ==> Cleared(w, state.stagingTarget)))
    && (result == Promoted ==> w.record.Some? && w.record.value.phase == Active)
    && (result == Switched ==> w.record.Some? && Runs(state, w.record.value))
  }

  /** Without credentials, it clears a dead recovery attempt away and asks for them. */
  predicate AsksForCredentials(before: World, state: MountState, after: World, error: StartingError) {
    AttemptIsDead(before, state) && CanGoOn(state) ==> error == CredentialsRequired && AttemptIsReleased(after, state)
  }

  /** Without permission to clean up, a settled host that needs it is left alone. */
  predicate AsksForCleanup(before: World, state: MountState, after: World, error: StartingError) {
    AttemptIsDead(before, state) || AttemptIsStuck(before, state) ==> error == CleanupRequired && after == before
  }

  /** What a settled host shows of a dead attempt. */
  function DeadObservation(w: World, target: Target): StartingObservation {
    StartingObservation(target in w.mounts, if target in w.processStates then ProcessDead else ProcessAbsent,
      if w.unit.Loaded? then Some(w.unit.state) else None)
  }

  predicate SeenDead(w: World, state: MountState, o: StartingObservation) {
    AttemptIsDead(w, state) && o == DeadObservation(w, state.stagingTarget)
  }

  predicate SeenStuck(w: World, state: MountState, o: StartingObservation) {
    AttemptIsStuck(w, state)
    && o == StartingObservation(state.stagingTarget in w.mounts, StuckProcess(w, state), ServiceOf(w.unit))
  }

  predicate SeenFailed(w: World, state: MountState, o: StartingObservation) {
    SeenDead(w, state, o) || SeenStuck(w, state, o)
  }

  /** The attempt cannot go on: its service has stopped, or its deadline has passed. */
  predicate Over(w: World, state: MountState) {
    w.unit.Loaded? || Remaining(state, w.clock) == 0
  }

  /** What the three observations of one pass establish together, the first of which was made in `seen`. */
  predicate Means(seen: World, w: World, past: Past, o: StartingObservation, target: Target) {
    && Evolves(seen, w)
    && !o.process.ProcessMismatch? && Verified(w, past, o.process)
    && (o.service.None? ==> w.unit.NotFound?)
    && (!Live(o.service) ==> !Running(w.unit))
    && (!Live(o.service) && !o.mounted ==> AbsenceHolds(seen, w, o.process, target))
    && (o.process.ProcessDead? && NoneToCome(seen) ==> NoSupervisor(w))
  }

  function ServiceOf(unit: Unit): Option<UnitState> {
    if unit.Loaded? then Some(unit.state) else None
  }

  /** What a settled host answers about a dead or a stuck attempt and about a ready mount. */
  ghost predicate AnswersFor(w: World, state: MountState, answer: Answer<StartingObservation>) {
    && (AttemptIsDead(w, state) ==> answer == Known(DeadObservation(w, state.stagingTarget)))
    && (AttemptIsStuck(w, state) ==> answer.Known? && SeenStuck(w, state, answer.value))
    && (forall process | ReadyMount(w, state, process) ::
          answer == Known(StartingObservation(true, ProcessVerified(process), ServiceOf(w.unit))))
  }

  lemma ObservationAnswers(w: World, state: MountState, process: StartingProcess)
    requires Observation(w, state, process)
    ensures AnswersFor(w, state, if process.ProcessMismatch? then Unknown
              else Known(StartingObservation(state.stagingTarget in w.mounts, process, ServiceOf(w.unit))))
  {
    hide ValidMountState, MainAttributed, NoSupervisor;
  }

  /**
    * The mount, the process and the unit, in this order (mount_reconcile_starting.go:79-95). What they
    * mean depends on the host at the first of them: see WindowIsSafeIff.
    */
  method ObserveStarting(host: Host, state: MountState) returns (answer: Answer<StartingObservation>, ghost seen: World)
    requires host.Inv() && OfAttempt(host.record, state)
    modifies host.runtime, host`past
    ensures host.Observed() && OnlyAccepts(old(host.past), host.past) && Evolves(old(host.View()), seen)
    ensures answer.Known? ==> Means(seen, host.View(), host.past, answer.value, state.stagingTarget)
    ensures host.settled ==> seen == host.View() && AnswersFor(host.View(), state, answer)
  {
    hide Evolves, Host.Inv, AnswersFor, Observation, NoSupervisor, OnlyOne;
    ghost var start := host.View();
    answer := Unknown;
    var mounted := host.IsMountPoint(state.stagingTarget);
    seen := host.View();
    if mounted.Known? {
      var process := ObserveStartingProcess(host, state);
      ghost var atProcess := host.View();
      EvolvesTwice(start, seen, atProcess);
      if host.settled {
        ObservationAnswers(start, state, process);
      }
      if !process.ProcessMismatch? {
        host.Sound();
        if process.ProcessVerified? {
          LiveSupervisorIsOnly(atProcess, process.process);
        }
        var service := host.QueryUnit();
        EvolvesTwice(start, atProcess, host.View());
        EvolvesTwice(seen, atProcess, host.View());
        if service.Known? {
          AbsenceObserved(seen, atProcess, host.View(), mounted.value, process, state.stagingTarget);
          if process.ProcessVerified? {
            OnlyOneStays(atProcess, host.View(), IdentOf(process.process));
          }
          answer := Known(StartingObservation(mounted.value, process, service.value));
        }
      }
    }
  }

  lemma AbsenceObserved(a: World, b: World, c: World, mounted: bool, process: StartingProcess, target: Target)
    requires Evolves(a, b) && Evolves(b, c) && mounted == (target in a.mounts)
    requires process.ProcessAbsent? ==> target !in b.processStates
    requires process.ProcessAbsent? || process.ProcessDead? ==> (!Running(a.unit) ==> NoSupervisor(b))
    ensures !mounted ==> AbsenceHolds(a, c, process, target)
    ensures process.ProcessDead? && NoneToCome(a) ==> NoSupervisor(c)
  {
  }

  /**
    * The branches for a unit that does not run, once clean-up is allowed (mount_reconcile_starting.go:158-188).
    * After a dead process, what is started or deleted rests on a new look at the mount.
    */
  method ReconcileGone(
    host: Host, state: MountState, credentials: Option<Credentials>, o: StartingObservation, remaining: nat,
    ghost seen: World
  ) returns (result: StartingResult, error: StartingError)
    requires host.Inv() && StartingRecord(state) && OfAttempt(host.record, state)
    requires Means(seen, host.View(), host.past, o, state.stagingTarget) && !Live(o.service)
    requires host.settled ==> seen == host.View()
    requires !o.process.ProcessVerified? && (o.mounted ==> o.process.ProcessDead?)
    requires host.record == Some(state) || state.reason == Stage || remaining == 0
    modifies host.runtime, host`record, host`past, host`lost
    ensures host.RiskedSince(seen) && Step(old(host.View()), old(host.past), host.View(), host.past, state)
    ensures o.process.ProcessDead? ==> host.RiskedSince(old(host.View()))
    ensures Reports(result, host.View(), state, Quiet(seen) || host.settled)
    ensures Retryable(old(host.record), host.View(), state, result, error)
    ensures host.settled && SeenDead(old(host.View()), state, o) ==>
      MovesOn(state, credentials, o.service.Some? || remaining == 0, result, old(host.past), host.past)
    ensures host.settled && SeenDead(old(host.View()), state, o) && credentials.None? ==>
      AsksForCredentials(old(host.View()), state, host.View(), error)
  {
    hide StartingRecord, Evolves, Host.Inv, NoSupervisor, Step, Cleans, PromotedFrom, MovesOn, CanGoOn, SeenSince,
      SafeActs, OwnerMissed, Running, Means, SeenDead, AbsenceHolds, AttemptIsDead, AttemptIsReleased;
    ghost var start, begun := host.View(), host.past;
    NoStep(start, begun, state);
    NothingIsSeen(seen, begun, begun);
    NothingIsSeen(start, begun, begun);
    MeansEvolved(seen, start, begun, o, state.stagingTarget);
    result, error := LeftAsIs, Failed;
    var ready := ReleaseGone(host, state, o, seen);
    ghost var released, between := host.View(), host.past;
    StepOfCleanup(start, begun, released, between, state) by {
      CleansIsEvolution(start, begun, released, between);
    }
    CleansStartsNothing(start, begun, released, between);
    CleansIsEvolution(start, begun, released, between);
    NothingIsSeen(seen, begun, between);
    NothingIsSeen(start, begun, between);
    EvolvesTwice(seen, start, released);
    if ready {
      ghost var from := if o.process.ProcessDead? then released else seen;
      EvolvesReflexive(from);
      DeadNeedsNoLook(released, o.process, state.stagingTarget);
      if host.settled && o.process.ProcessAbsent? {
        AbsentIsQuiet(seen, start, begun, o, state.stagingTarget);
      }
      result, error := HandleAbsent(host, state, credentials, o.process, o.service.Some?, remaining, from);
      StepAfterCleanup(start, begun, released, between, host.View(), host.past, state);
      StepStarts(released, between, host.View(), host.past, state);
      StepStarts(start, begun, released, between, state);
      EvolvesReflexive(seen);
      EvolvingFollows(seen, from);
      SeenAfter(seen, begun, from, between, host.past);
      QuietStays(seen, from);
      if o.process.ProcessDead? {
        EvolvingFollows(start, from);
        SeenAfter(start, begun, from, between, host.past);
        QuietStays(start, from);
      }
      if host.settled && SeenDead(start, state, o) {
        MovesOnAfter(state, credentials, o.service.Some? || remaining == 0, result, begun, between, host.past);
        SeenDeadIsDead(start, state, o);
      }
    }
  }

  lemma MeansEvolved(seen: World, w: World, past: Past, o: StartingObservation, target: Target)
    requires Means(seen, w, past, o, target)
    ensures Evolves(seen, w) && !o.process.ProcessMismatch?
  {
  }

  lemma DeadNeedsNoLook(w: World, process: StartingProcess, target: Target)
    ensures process.ProcessDead? ==> AbsenceHolds(w, w, process, target)
  {
  }

  lemma SeenDeadIsDead(w: World, state: MountState, o: StartingObservation)
    requires SeenDead(w, state, o)
    ensures AttemptIsDead(w, state)
  {
  }

  /** On a settled host an absent process means that nothing was alive at the first look either. */
  lemma AbsentIsQuiet(seen: World, w: World, past: Past, o: StartingObservation, target: Target)
    requires Means(seen, w, past, o, target) && !Live(o.service) && !o.mounted && o.process.ProcessAbsent? && seen == w
    ensures Quiet(seen)
  {
  }

  lemma CleansStartsNothing(a: World, p: Past, b: World, q: Past)
    requires Cleans(a, p, b, q)
    ensures NothingStarted(p, q)
  {
  }

  lemma CleansIsEvolution(a: World, p: Past, b: World, q: Past)
    requires Cleans(a, p, b, q)
    ensures Evolves(a, b) && CleansUp(p, q, a.record)
  {
  }

  /** Unmount a disconnected target and unload a stopped unit. */
  method ReleaseGone(host: Host, state: MountState, o: StartingObservation, ghost seen: World) returns (ready: bool)
    requires host.Inv() && OfAttempt(host.record, state)
    requires Means(seen, host.View(), host.past, o, state.stagingTarget) && !Live(o.service)
    requires !o.process.ProcessVerified? && (o.mounted ==> o.process.ProcessDead?)
    modifies host.runtime, host`past
    ensures host.Inv() && Cleans(old(host.View()), old(host.past), host.View(), host.past)
    ensures ready ==> host.runtime.unit.NotFound? && AbsenceHolds(seen, host.View(), o.process, state.stagingTarget)
    ensures host.settled && SeenDead(old(host.View()), state, o) ==> ready && AttemptIsReleased(host.View(), state)
  {
    hide Evolves, Host.Inv, NoSupervisor, CleansUp, PromotedFrom, OnlyOne, AbsentSince;
    ghost var start, begun := host.View(), host.past;
    EvolvesReflexive(start);
    NothingCleanedUp(begun, begun, host.record);
    ready := true;
    if o.service.Some? {
      ready := VerifyUnitDescription(host, state);
      AbsenceSurvives(seen, start, host.View(), o, state.stagingTarget);
    }
    ghost var described := host.View();
    if ready && o.mounted {
      ready := UnmountDisconnected(host, state.stagingTarget);
      EvolvesTwice(start, described, host.View());
      AbsenceSurvives(seen, described, host.View(), o, state.stagingTarget);
    }
    ghost var unmounted, between := host.View(), host.past;
    if ready && o.service.Some? {
      ready := RemoveFailedUnit(host, state);
      EvolvesTwice(start, unmounted, host.View());
      CleansUpTwice(begun, between, host.past, host.record);
      AbsenceSurvives(seen, unmounted, host.View(), o, state.stagingTarget);
    }
  }

  lemma AbsenceSurvives(seen: World, a: World, b: World, o: StartingObservation, target: Target)
    requires Evolves(a, b) && !Running(a.unit)
    ensures !Running(b.unit) && (a.unit.NotFound? ==> b.unit.NotFound?)
    ensures AbsenceHolds(seen, a, o.process, target) ==> AbsenceHolds(seen, b, o.process, target)
  {
  }

  /**
    * A mounted target with a verified process: promote it if its socket and service agree
    * (mount_reconcile_starting.go:96-107).
    */
  method PromoteReady(host: Host, state: MountState, process: VerifiedProcess, service: Option<UnitState>)
    returns (promoted: bool)
    requires host.Inv() && StartingRecord(state) && OfAttempt(host.record, state)
    modifies host.runtime, host`record, host`past
    ensures host.Inv() && Step(old(host.View()), old(host.past), host.View(), host.past, state)
    ensures NothingStarted(old(host.past), host.past)
    ensures promoted ==> host.record.Some? && host.record.value.phase == Active
    ensures host.settled && ReadyMount(old(host.View()), state, process) && Live(service) ==>
      (Promotable(old(host.View()), state) ==> promoted)
    ensures host.settled && promoted && service == ServiceOf(old(host.runtime.unit)) ==>
      (state.stagingTarget in old(host.runtime.mounts) ==> Serving(old(host.View()), state))
  {
    hide StartingRecord, Evolves, Host.Inv, ServesConsumers, Alive, Step, PromotedFrom;
    ghost var start, begun := host.View(), host.past;
    promoted := false;
    var ready := ConfirmService(host, state, process, service);
    ghost var confirmed, between := host.View(), host.past;
    NothingCleanedUp(begun, between, host.record);
    StepOfCleanup(start, begun, confirmed, between, state);
    if ready {
      host.Sound();
      LiveSupervisorIsOnly(confirmed, process);
      var active := PromoteActive(host, state, process);
      promoted := active.Some?;
      StepOfPromotion(confirmed, between, host.View(), host.past, state);
      StepTwice(start, begun, confirmed, between, host.View(), host.past, state) by {
        EvolvingIsLater(start, confirmed);
        CleaningUpProceeds(begun, between, start.record);
      }
    }
  }

  /** validateReadyControlSocket and verifyStartingSystemdOwnership. */
  method ConfirmService(host: Host, state: MountState, process: VerifiedProcess, service: Option<UnitState>)
    returns (ready: bool)
    requires host.Inv()
    modifies host.runtime, host`past
    ensures host.Observed() && OnlyAccepts(old(host.past), host.past)
    ensures ready ==> LiveSupervisor(host.View(), process)
    ensures host.settled && ReadyMount(old(host.View()), state, process) && Live(service) ==> ready
    ensures host.settled && ready && service == ServiceOf(old(host.runtime.unit)) ==>
      (state.stagingTarget in host.runtime.mounts ==> Serving(host.View(), state))
  {
    hide Evolves, Host.Inv, LiveSupervisor;
    ghost var start := host.View();
    var socket := host.LstatControlSocket(state.stagingTarget);
    ready := socket == Known(RealSocket);
    if ready {
      ghost var atSocket := host.View();
      ready := VerifyReadyService(host, state, service, process);
      EvolvesTwice(start, atSocket, host.View());
    }
  }

  lemma StepOfPromotion(a: World, p: Past, b: World, q: Past, state: MountState)
    requires OfAttempt(a.record, state) && OfAttempt(b.record, state) && KeepsConsumers(a.record, b.record)
    requires Evolves(a.(record := b.record), b) && CleansUp(p, q, a.record)
    ensures Step(a, p, b, q, state)
  {
    AttemptSucceeds(a.record, b.record, state);
  }

  /** The rest of a pass on a live unit, before its deadline: wait, and promote when it is ready. */
  method WaitLive(host: Host, state: MountState) returns (promoted: bool)
    requires host.Inv() && StartingRecord(state) && OfAttempt(host.record, state)
    modifies host.runtime, host`record, host`past
    ensures host.Inv() && Step(old(host.View()), old(host.past), host.View(), host.past, state)
    ensures OfAttempt(host.record, state) && Follows(old(host.View()), host.View())
    ensures NothingStarted(old(host.past), host.past)
    ensures promoted ==> host.record.Some? && host.record.value.phase == Active
    ensures forall process |
      host.settled && ReadyMount(old(host.View()), state, process) && Promotable(old(host.View()), state) ::
      promoted
  {
    hide StartingRecord, Evolves, Host.Inv, ServesConsumers, Step, PromotedFrom, ReadyMount, Promotable;
    ghost var start, begun := host.View(), host.past;
    var active, _ := WaitForMountAndPromote(host, state);
    promoted := active.Some?;
    StepOfPromotion(start, begun, host.View(), host.past, state);
  }

  /** Steps of the same attempt compose when the first one keeps its record. */
  lemma StepThenStep(a: World, p: Past, b: World, q: Past, c: World, r: Past, state: MountState)
    requires Step(a, p, b, q, state) && OfAttempt(a.record, state) && OfAttempt(b.record, state)
    requires Step(b, q, c, r, state)
    ensures Step(a, p, c, r, state)
  {
  }

  /**
    * startingReconciler.Reconcile. A service starts only under a record that names the attempt, and the
    * record goes only when nothing of the attempt is left, in the sense of SafeStart and SafeDeletion: surely
    * if nothing of the volume is alive as the pass begins, and never beside another supervisor if none can
    * come then. A pass is followed by another one at most once, because the deadline on record never
    * moves. Without permission to clean up nothing is started and nothing deleted. On a settled host it
    * promotes a ready mount, clears a dead attempt away and moves on from it, and tears a stuck one down first.
    */
  method Reconcile(host: Host, state: MountState, credentials: Option<Credentials>, allowCleanup: bool)
    returns (result: StartingResult, error: StartingError, ghost passes: nat)
    requires host.Inv() && OfAttempt(host.record, state)
    requires host.record == Some(state) || state.reason == Stage || Remaining(state, host.runtime.clock) == 0
    modifies host.runtime, host`record, host`past, host`lost
    ensures host.RiskedSince(old(host.View()))
    ensures Step(old(host.View()), old(host.past), host.View(), host.past, state)
    ensures passes <= 2 && (Remaining(state, old(host.runtime.clock)) == 0 ==> passes <= 1)
    ensures Reports(result, host.View(), state, Quiet(old(host.View())) || host.settled)
    ensures Retryable(old(host.record), host.View(), state, result, error)
    ensures !allowCleanup ==> NothingStarted(old(host.past), host.past)
    ensures host.settled && !allowCleanup ==> AsksForCleanup(old(host.View()), state, host.View(), error)
    ensures host.settled && allowCleanup && credentials.None? ==>
      AsksForCredentials(old(host.View()), state, host.View(), error)
    ensures host.settled && allowCleanup && AttemptIsDead(old(host.View()), state) ==>
      MovesOn(state, credentials, Over(old(host.View()), state), result, old(host.past), host.past)
    ensures host.settled && allowCleanup && AttemptIsStuck(old(host.View()), state) ==>
      Unsticks(state, credentials, result, old(host.past), host.View(), host.past)
    ensures forall process |
      host.settled && ReadyMount(old(host.View()), state, process) && Promotable(old(host.View()), state) ::
      result == Promoted
    decreases Remaining(state, host.runtime.clock), 4
  {
    hide StartingRecord, Host.Inv, NoSupervisor, Step, PromotedFrom, MovesOn, Over, Unsticks, Unambiguous, SeenSince,
      SafeActs, OwnerMissed, Evolves;
    NoStep(host.View(), host.past, state);
    NothingIsSeen(host.View(), host.past, host.past);
    result, error, passes := LeftAsIs, Failed, 0;
    var cancelled := host.Cancelled();
    if !cancelled && StartingRecord(state) {
      result, error, passes := ReconcileValid(host, state, credentials, allowCleanup);
      passes := passes + 1;
    }
  }

  /** The number of passes after this one. */
  predicate PassesOn(passes: nat, state: MountState, now: int) {
    passes <= 1 && (Remaining(state, now) == 0 ==> passes == 0)
  }

  /** Observe, and act on what was seen (mount_reconcile_starting.go:79-192). */
  method ReconcileValid(host: Host, state: MountState, credentials: Option<Credentials>, allowCleanup: bool)
    returns (result: StartingResult, error: StartingError, ghost passes: nat)
    requires host.Inv() && StartingRecord(state) && OfAttempt(host.record, state)
    requires host.record == Some(state) || state.reason == Stage || Remaining(state, host.runtime.clock) == 0
    modifies host.runtime, host`record, host`past, host`lost
    ensures host.RiskedSince(old(host.View()))
    ensures Step(old(host.View()), old(host.past), host.View(), host.past, state)
    ensures PassesOn(passes, state, old(host.runtime.clock))
    ensures Reports(result, host.View(), state, Quiet(old(host.View())) || host.settled)
    ensures Retryable(old(host.record), host.View(), state, result, error)
    ensures !allowCleanup ==> NothingStarted(old(host.past), host.past)
    ensures host.settled && !allowCleanup ==> AsksForCleanup(old(host.View()), state, host.View(), error)
    ensures host.settled && allowCleanup && credentials.None? ==>
      AsksForCredentials(old(host.View()), state, host.View(), error)
    ensures host.settled && allowCleanup && AttemptIsDead(old(host.View()), state) ==>
      MovesOn(state, credentials, Over(old(host.View()), state), result, old(host.past), host.past)
    ensures host.settled && allowCleanup && AttemptIsStuck(old(host.View()), state) ==>
      Unsticks(state, credentials, result, old(host.past), host.View(), host.past)
    ensures forall process |
      host.settled && ReadyMount(old(host.View()), state, process) && Promotable(old(host.View()), state) ::
      result == Promoted
    decreases Remaining(state, host.runtime.clock), 3
  {
    hide StartingRecord, Evolves, Host.Inv, NoSupervisor, Step, Cleans, PromotedFrom, Means, MovesOn, Over,
      AttemptIsDead, Unsticks, SeenStuck, SeenSince, SafeActs, OwnerMissed, OnlyAccepts, Cleared;
    ghost var start, begun := host.View(), host.past;
    result, error, passes := LeftAsIs, Failed, 0;
    var observed: Answer<StartingObservation>;
    ghost var from: World;
    observed, from := ObserveStarting(host, state);
    ghost var seen, between := host.View(), host.past;
    CleansNothing(start, begun, seen, between);
    CleansIsStep(start, begun, seen, between, state);
    CleansStartsNothing(start, begun, seen, between);
    NothingIsSeen(start, begun, between);
    EvolvingFollows(start, from);
    QuietStays(start, from);
    if observed.Known? {
      result, error, passes := ReconcileObserved(host, state, credentials, allowCleanup, observed.value, from);
      SeenAfter(start, begun, from, between, host.past);
      StepAfterCleanup(start, begun, seen, between, host.View(), host.past, state);
      StepStarts(seen, between, host.View(), host.past, state);
      StepStarts(start, begun, seen, between, state);
      if host.settled && allowCleanup && AttemptIsDead(start, state) {
        MovesOnAfter(state, credentials, Over(start, state), result, begun, between, host.past);
      }
      if host.settled && allowCleanup && AttemptIsStuck(start, state) {
        UnsticksAfter(state, credentials, result, begun, between, host.View(), host.past);
      }
    }
  }

  lemma CleansIsStep(a: World, p: Past, b: World, q: Past, state: MountState)
    requires OfAttempt(a.record, state) && Cleans(a, p, b, q)
    ensures Step(a, p, b, q, state)
    ensures Later(a, b) && b.record == a.record && q.starts == p.starts && q.deletions == p.deletions
  {
    StepOfCleanup(a, p, b, q, state);
  }

  lemma MeansPersists(seen: World, a: World, b: World, past: Past, o: StartingObservation, target: Target)
    requires Means(seen, a, past, o, target) && Evolves(a, b)
    ensures Means(seen, b, past, o, target)
  {
    EvolvesTwice(seen, a, b);
    if o.process.ProcessVerified? {
      OnlyOneStays(a, b, IdentOf(o.process.process));
    }
  }

  /** The observation of a ready mount. */
  predicate Shows(o: StartingObservation, w: World, state: MountState) {
    o.mounted && o.process.ProcessVerified? && Live(o.service) && ReadyMount(w, state, o.process.process)
  }

  /** Promote a ready mount, and go on otherwise (mount_reconcile_starting.go:96-192). */
  method ReconcileObserved(
    host: Host, state: MountState, credentials: Option<Credentials>, allowCleanup: bool, o: StartingObservation,
    ghost seen: World
  ) returns (result: StartingResult, error: StartingError, ghost passes: nat)
    requires host.Inv() && StartingRecord(state) && OfAttempt(host.record, state)
    requires Means(seen, host.View(), host.past, o, state.stagingTarget) && (host.settled ==> seen == host.View())
    requires host.record == Some(state) || state.reason == Stage || Remaining(state, host.runtime.clock) == 0
    modifies host.runtime, host`record, host`past, host`lost
    ensures host.RiskedSince(seen)
    ensures Step(old(host.View()), old(host.past), host.View(), host.past, state)
    ensures PassesOn(passes, state, old(host.runtime.clock))
    ensures Reports(result, host.View(), state, Quiet(seen) || host.settled)
    ensures Retryable(old(host.record), host.View(), state, result, error)
    ensures !allowCleanup ==> NothingStarted(old(host.past), host.past)
    ensures host.settled && !allowCleanup && SeenFailed(old(host.View()), state, o) ==>
      error == CleanupRequired && host.View() == old(host.View())
    ensures host.settled && allowCleanup && credentials.None? && SeenDead(old(host.View()), state, o) ==>
      AsksForCredentials(old(host.View()), state, host.View(), error)
    ensures host.settled && allowCleanup && SeenDead(old(host.View()), state, o) ==>
      MovesOn(state, credentials, Over(old(host.View()), state), result, old(host.past), host.past)
    ensures host.settled && allowCleanup && SeenStuck(old(host.View()), state, o) ==>
      Unsticks(state, credentials, result, old(host.past), host.View(), host.past)
    ensures host.settled && Promotable(old(host.View()), state) && Shows(o, old(host.View()), state) ==>
      result == Promoted
    decreases Remaining(state, host.runtime.clock), 2
  {
    hide StartingRecord, Host.Inv, NoSupervisor, Step, PromotedFrom, Means, Alive, MovesOn, Over, Unambiguous,
      AttemptIsDead, SeenSince, SafeActs, OwnerMissed, Evolves, Cleared;
    ghost var begun := host.past;
    host.Sound();
    passes := 0;
    if o.mounted && o.process.ProcessVerified? {
      var promoted := PromoteReady(host, state, o.process.process, o.service);
      NothingIsSeen(seen, begun, host.past);
      result, error := if promoted then Promoted else LeftAsIs, if promoted then NoError else Failed;
    } else {
      result, error, passes := ReconcileUnready(host, state, credentials, allowCleanup, o, seen);
    }
  }

  /** The pass once no ready mount was found (mount_reconcile_starting.go:108-192). */
  method ReconcileUnready(
    host: Host, state: MountState, credentials: Option<Credentials>, allowCleanup: bool, o: StartingObservation,
    ghost seen: World
  ) returns (result: StartingResult, error: StartingError, ghost passes: nat)
    requires host.Inv() && StartingRecord(state) && OfAttempt(host.record, state)
    requires Means(seen, host.View(), host.past, o, state.stagingTarget) && (host.settled ==> seen == host.View())
    requires host.record == Some(state) || state.reason == Stage || Remaining(state, host.runtime.clock) == 0
    modifies host.runtime, host`record, host`past, host`lost
    ensures host.RiskedSince(seen)
    ensures Step(old(host.View()), old(host.past), host.View(), host.past, state)
    ensures PassesOn(passes, state, old(host.runtime.clock))
    ensures Reports(result, host.View(), state, Quiet(seen) || host.settled)
    ensures Retryable(old(host.record), host.View(), state, result, error)
    ensures !allowCleanup ==> NothingStarted(old(host.past), host.past)
    ensures host.settled && !allowCleanup && SeenFailed(old(host.View()), state, o) ==>
      error == CleanupRequired && host.View() == old(host.View())
    ensures host.settled && allowCleanup && credentials.None? && SeenDead(old(host.View()), state, o) ==>
      AsksForCredentials(old(host.View()), state, host.View(), error)
    ensures host.settled && allowCleanup && SeenDead(old(host.View()), state, o) ==>
      MovesOn(state, credentials, Over(old(host.View()), state), result, old(host.past), host.past)
    ensures host.settled && allowCleanup && SeenStuck(old(host.View()), state, o) ==>
      Unsticks(state, credentials, result, old(host.past), host.View(), host.past)
    decreases Remaining(state, host.runtime.clock), 1
  {
    hide StartingRecord, Evolves, Host.Inv, NoSupervisor, Step, Cleans, PromotedFrom, Means, UsesDirectMountStrict,
      Reports, MovesOn, Unambiguous, Unsticks, SeenSince, SafeActs, OwnerMissed;
    ghost var start, begun := host.View(), host.past;
    passes := 0;
    MeansEvolved(seen, start, begun, o, state.stagingTarget);
    var now := host.Now();
    var remaining := Remaining(state, now);
    ghost var timed := host.View();
    CleansNothing(start, begun, timed, begun);
    CleansIsStep(start, begun, timed, begun, state);
    MeansPersists(seen, start, timed, begun, o, state.stagingTarget);
    if !Live(o.service) || remaining == 0 || !UsesDirectMountStrict(state.mountArgs) || o.process.ProcessDead? {
      result, error := ReconcileTerminal(host, state, credentials, allowCleanup, o, remaining, seen);
    } else {
      result, error, passes := WaitOrRetry(host, state, credentials, allowCleanup);
      EvolvesTwice(seen, start, timed);
      EvolvingFollows(seen, timed);
      QuietStays(seen, timed);
      NothingIsSeen(seen, begun, begun);
      SeenAfter(seen, begun, timed, begun, host.past);
      SurelyReported(result, host.View(), state, Quiet(timed) || host.settled, Quiet(seen) || host.settled);
    }
    StepAfterCleanup(start, begun, timed, begun, host.View(), host.past, state);
  }

  lemma SurelyReported(result: StartingResult, w: World, state: MountState, sure: bool, surer: bool)
    requires Reports(result, w, state, sure) && (surer ==> sure)
    ensures Reports(result, w, state, surer)
  {
  }

  /**
    * Wait for a live unit; when the wait ran into the deadline, reconcile once more
    * (mount_reconcile_starting.go:128-144).
    */
  method WaitOrRetry(host: Host, state: MountState, credentials: Option<Credentials>, allowCleanup: bool)
    returns (result: StartingResult, error: StartingError, ghost passes: nat)
    requires host.Inv() && StartingRecord(state) && OfAttempt(host.record, state)
    requires Remaining(state, host.runtime.clock) > 0
    modifies host.runtime, host`record, host`past, host`lost
    ensures host.RiskedSince(old(host.View()))
    ensures Step(old(host.View()), old(host.past), host.View(), host.past, state)
    ensures passes <= 1
    ensures Reports(result, host.View(), state, Quiet(old(host.View())) || host.settled)
    ensures Retryable(old(host.record), host.View(), state, result, error)
    ensures !allowCleanup ==> NothingStarted(old(host.past), host.past)
    decreases Remaining(state, host.runtime.clock), 0
  {
    hide StartingRecord, Evolves, Host.Inv, NoSupervisor, Step, Cleans, PromotedFrom, Means, SeenSince, SafeActs,
      OwnerMissed, Running, Follows;
    ghost var start, begun := host.View(), host.past;
    host.Sound();
    result, error, passes := LeftAsIs, Failed, 0;
    var promoted := WaitLive(host, state);
    ghost var waited, after := host.View(), host.past;
    NothingIsSeen(start, begun, after);
    if promoted {
      result, error := Promoted, NoError;
    } else {
      var expired := ExpiredAfterWait(host, state);
      ghost var again := host.View();
      CleansNothing(waited, after, again, after);
      CleansIsStep(waited, after, again, after, state);
      StepThenStep(start, begun, waited, after, again, after, state);
      EvolvingFollows(waited, again);
      FollowsTwice(start, waited, again);
      if expired {
        result, error, passes := Reconcile(host, state, credentials, allowCleanup);
        LaterStaysExpired(again, after, host.View(), host.past, state);
        StepThenStep(start, begun, again, after, host.View(), host.past, state);
        SeenAfter(start, begun, again, after, host.past);
        QuietFollows(start, again);
        SurelyReported(result, host.View(), state, Quiet(again) || host.settled, Quiet(start) || host.settled);
      }
    }
  }

  lemma LaterStaysExpired(a: World, p: Past, b: World, q: Past, state: MountState)
    requires Step(a, p, b, q, state)
    ensures Remaining(state, a.clock) == 0 ==> Remaining(state, b.clock) == 0
  {
  }

  /** Whether a failed wait ended at the deadline rather than by cancellation (mount_reconcile_starting.go:133-138). */
  method ExpiredAfterWait(host: Host, state: MountState) returns (expired: bool)
    requires host.Inv()
    modifies host.runtime
    ensures host.Observed()
    ensures expired ==> Remaining(state, host.runtime.clock) == 0
  {
    hide Host.Inv, Evolves;
    var cancelled := host.Cancelled();
    var now := host.Now();
    expired := !cancelled && Remaining(state, now) == 0;
  }

  /** The branches that end the attempt: expired, never strict, or without a running unit. */
  method ReconcileTerminal(
    host: Host, state: MountState, credentials: Option<Credentials>, allowCleanup: bool, o: StartingObservation,
    remaining: nat, ghost seen: World
  ) returns (result: StartingResult, error: StartingError)
    requires host.Inv() && StartingRecord(state) && OfAttempt(host.record, state)
    requires Means(seen, host.View(), host.past, o, state.stagingTarget) && (host.settled ==> seen == host.View())
    requires host.record == Some(state) || state.reason == Stage || remaining == 0
    modifies host.runtime, host`record, host`past, host`lost
    ensures host.RiskedSince(seen) && Step(old(host.View()), old(host.past), host.View(), host.past, state)
    ensures Reports(result, host.View(), state, Quiet(seen) || host.settled)
    ensures Retryable(old(host.record), host.View(), state, result, error)
    ensures !allowCleanup ==> NothingStarted(old(host.past), host.past)
    ensures host.settled && !allowCleanup && SeenFailed(old(host.View()), state, o) ==>
      error == CleanupRequired && host.View() == old(host.View())
    ensures host.settled && allowCleanup && credentials.None? && SeenDead(old(host.View()), state, o) ==>
      AsksForCredentials(old(host.View()), state, host.View(), error)
    ensures host.settled && allowCleanup && SeenDead(old(host.View()), state, o) ==>
      MovesOn(state, credentials, o.service.Some? || remaining == 0, result, old(host.past), host.past)
    ensures host.settled && allowCleanup && SeenStuck(old(host.View()), state, o) ==>
      Unsticks(state, credentials, result, old(host.past), host.View(), host.past)
  {
    hide StartingRecord, Host.Inv, NoSupervisor, Step, PromotedFrom, AbsenceHolds, MovesOn, Unambiguous, Unsticks,
      SeenSince, SafeActs, OwnerMissed, Evolves, Cleared, OnlyOne;
    ghost var start, begun := host.View(), host.past;
    host.Sound();
    NoStep(start, begun, state);
    NothingIsSeen(seen, begun, begun);
    result, error := LeftAsIs, Failed;
    if Live(o.service) {
      if !o.process.ProcessDead? {
        if allowCleanup {
          ghost var looked: World;
          result, error, looked := FailExpired(host, state, credentials, o.process, o.service);
          host.Sound();
          EvolvesTwice(seen, start, looked);
          EvolvingFollows(seen, looked);
          QuietStays(seen, looked);
          SeenAfter(seen, begun, looked, begun, host.past);
        } else {
          error := CleanupRequired;
        }
      }
    } else if !o.process.ProcessVerified? && (o.mounted ==> o.process.ProcessDead?) {
      if allowCleanup {
        result, error := ReconcileGone(host, state, credentials, o, remaining, seen);
      } else {
        error := CleanupRequired;
      }
    }
  }

  // ---- What a pass may do ---------------------------------------------------------------------------

  /** A start of this stretch of the history. */
  predicate StartedIn(begun: Past, done: Past, start: Start) {
    exists i: nat | |begun.starts| <= i < |done.starts| :: done.starts[i] == start
  }

  predicate DeletedIn(begun: Past, done: Past, deletion: Deletion) {
    deletion in done.deletions && deletion !in begun.deletions
  }

  /**
    * Until an owner is missed, whatever a pass starts or deletes is safe beyond doubt if nothing of the volume
    * is alive as it begins; and if only no further supervisor can come then, there is at least no other one, so
    * that none is missed. Reconcile promises
    * SeenSince for the host as it begins; WindowIsSafeIff and OwnerIsSeenIff say that nothing less would do.
    */
  lemma PassIsSafe(from: World, begun: Past, done: Past)
    requires SafeActs(done) && SeenSince(from, begun, done) && begun.starts <= done.starts
    ensures NoneToCome(from) ==>
      && (forall start | StartedIn(begun, done, start) :: NoSupervisor(start.host))
      && (forall deletion | DeletedIn(begun, done, deletion) :: NoSupervisor(deletion.host))
    ensures Quiet(from) ==>
      && (forall start | StartedIn(begun, done, start) :: Vacant(start.host, start.host.record.value.stagingTarget))
      && (forall deletion | DeletedIn(begun, done, deletion) ::
            Cleared(deletion.host, deletion.host.record.value.stagingTarget))
  {
    hide Follows, NoSupervisor;
    forall start | StartedIn(begun, done, start)
      ensures start in done.starts && Follows(from, start.seen)
    {
      var i: nat :| |begun.starts| <= i < |done.starts| && done.starts[i] == start;
    }
    forall seen | Follows(from, seen)
      ensures (Quiet(from) ==> Quiet(seen)) && (NoneToCome(from) ==> NoneToCome(seen))
    {
      QuietFollows(from, seen);
    }
  }

  // ---- The observation window ---------------------------------------------------------------------

  /**
    * The answers of a pass that takes the attempt for absent: unmounted in a, no process-state file in b, no
    * running unit in c.
    */
  predicate LooksAbsent(a: World, b: World, c: World, target: Target) {
    target !in a.mounts && target !in b.processStates && !Running(c.unit)
  }

  /** Is the target then really free of a mount and of supervisors? */
  ghost predicate WindowIsSafe(a: World, target: Target) {
    forall b: World, c: World | EnvStep(a, b) && EnvStep(b, c) && LooksAbsent(a, b, c, target) ::
      target !in c.mounts && NoSupervisor(c)
  }

  /** Is it at least free of supervisors? */
  ghost predicate OwnerIsSeen(a: World, target: Target) {
    forall b: World, c: World | EnvStep(a, b) && EnvStep(b, c) && LooksAbsent(a, b, c, target) :: NoSupervisor(c)
  }

  /** What is alive mounts its target and goes with its file, after the mount has been read and before the rest is. */
  function MountedUnseen(a: World, target: Target): World {
    var b := MountedAndGone(a, target);
    b.(processStates := b.processStates - {target})
  }

  /**
    * Exactly when nothing of the volume is alive as the pass begins. Otherwise MountedUnseen is a schedule on
    * which the three answers are those of an absent attempt although the target is mounted; a pass that read
    * the mount last would not be exposed to it.
    */
  lemma WindowIsSafeIff(a: World, target: Target)
    requires Consistent(a) && !a.lost && RecordFor(a, target) && target !in a.mounts
    ensures WindowIsSafe(a, target) <==> Quiet(a)
  {
    if Quiet(a) {
      forall b: World, c: World | EnvStep(a, b) && EnvStep(b, c) ensures target !in c.mounts && NoSupervisor(c) {
        EnvStepKeepsConsistent(a, b);
        EnvStepEvolves(a, b);
        EnvStepEvolves(b, c);
      }
    } else {
      MountedUnseenIsAStep(a, target);
      assert target in MountedUnseen(a, target).mounts;
    }
  }

  lemma MountedUnseenIsAStep(a: World, target: Target)
    requires Consistent(a) && RecordFor(a, target) && target !in a.mounts && !Quiet(a)
    ensures var b := MountedUnseen(a, target); EnvStep(a, b) && EnvStep(b, b) && LooksAbsent(a, b, b, target)
  {
    EnvStepKeepsConsistent(a, MountedUnseen(a, target));
    EnvStepReflexive(MountedUnseen(a, target));
  }

  /**
    * Exactly when the unit does not run as the pass begins, or has spawned its supervisor and lost it.
    * Otherwise a supervisor that writes its file after the file was looked for survives the unit unseen.
    */
  lemma OwnerIsSeenIff(a: World, target: Target)
    requires Consistent(a) && !a.lost && RecordFor(a, target) && target !in a.mounts
    ensures OwnerIsSeen(a, target) <==> NoneToCome(a)
  {
    if NoneToCome(a) {
      forall b: World, c: World | EnvStep(a, b) && EnvStep(b, c) && LooksAbsent(a, b, c, target)
        ensures NoSupervisor(c)
      {
        EnvStepKeepsConsistent(a, b);
        EnvStepEvolves(a, b);
        EnvStepEvolves(b, c);
      }
    } else {
      var b := a.(processStates := a.processStates - {target});
      assert EnvStep(a, b);
      var id := SurvivorOf(b);
      var c := Survivor(b, id);
      assert LooksAbsent(a, b, c, target) && Supervises(c, id.pid);
    }
  }

  /**
    * So there are passes that fail. The service has just been started; its supervisor mounts the target and
    * is gone with the unit and its file before the pass looks at them. The next start is then one that the
    * reconciler may make although the target is mounted.
    */
  lemma ExposedPass(state: MountState)
    requires StartingRecord(state)
    ensures var a, target := JustStarted(state), state.stagingTarget; var b := MountedUnseen(a, target);
      && Consistent(a) && Consistent(b) && EnvStep(a, b) && LooksAbsent(a, b, b, target)
      && target in b.mounts && SafeStart(Start(b, a, true))
  {
    hide ValidMountState;
    NoProcessYet(state);
    MountedUnseenIsAStep(JustStarted(state), state.stagingTarget);
    EnvStepKeepsConsistent(JustStarted(state), MountedUnseen(JustStarted(state), state.stagingTarget));
  }
}
