/** A volume without a durable record (internal/driver/node_no_state.go). */
module NoState {
  import opened Text
  import opened RemotePath
  import opened MountRecord
  import opened World
  import opened Host
  import opened Ownership
  import opened Stop
  import opened Starting
  import opened Recovery

  datatype NoStateObservation = NoStateObservation(unit: Option<UnitState>, deadArtifacts: bool)

  predicate NeedsCleanup(o: NoStateObservation) {
    o.deadArtifacts || o.unit == Some(UnitInactive) || o.unit == Some(UnitFailed)
  }

  /** What a settled host answers when it holds nothing alive for the target. */
  function Expected(w: World, target: Target): NoStateObservation {
    NoStateObservation(
      if w.unit.Loaded? then Some(w.unit.state) else None, target in w.processStates || target in w.sockets)
  }

  /** Without a record, what an observation promises about the host from then on. */
  predicate NothingAlive(w: World, target: Target, o: NoStateObservation) {
    && (w.lost || target !in w.mounts) && !Running(w.unit) && NoSupervisor(w)
    && (o.unit.None? ==> w.unit.NotFound?)
    && (!o.deadArtifacts ==> w.lost || (target !in w.processStates && target !in w.sockets))
  }

  /** The blank record that stands for a volume without one. */
  function Blank(volume: VolumeID, target: Target): MountState {
    MountState(0, NoPhase, NoReason, 0, volume, "", target, UnitOf(volume), NoBinary, NoBinary, [], [],
      NoPath, NoPath, NoStamp, NoStamp, 0, 0, NoPath, NoPath, NoStamp, 0, NoIntent, NoStamp)
  }

  lemma NoRecordMeansNothingRuns(w: World)
    requires Consistent(w) && w.record.None?
    ensures !Running(w.unit) && NoSupervisor(w) && w.startup == {}
  {
  }

  lemma NothingAliveStays(a: World, b: World, target: Target, o: NoStateObservation)
    requires Evolves(a, b) && NothingAlive(a, target, o)
    ensures NothingAlive(b, target, o)
  {
  }

  /** The process-state artifact: Known(true) is the file of a dead process (node_no_state.go:65-87). */
  method ObserveDeadProcess(host: Host, target: Target) returns (answer: Answer<bool>)
    requires host.Inv() && !Running(host.runtime.unit)
    modifies host.runtime
    ensures host.Observed()
    ensures answer == Known(false) ==> target !in host.runtime.processStates
    ensures host.settled && NamesNobody(old(host.View()), target) ==>
      answer == Known(target in old(host.runtime.processStates))
  {
    hide Evolves, Host.Inv, NoSupervisor;
    ghost var start := host.View();
    answer := Unknown;
    var present := host.LstatProcessState(target);
    ghost var atFile := host.View();
    if present == Absent {
      answer := Known(false);
    } else if present == Present {
      var recorded := host.ReadProcessState(target);
      ghost var atRead := host.View();
      EvolvesTwice(start, atFile, atRead);
      if recorded.Known? {
        var started := host.ReadStartTime(recorded.value.pid);
        EvolvesTwice(start, atRead, host.View());
        if started != UnreadableStart && started != StartedAt(recorded.value.start) {
          answer := Known(true);
        }
      }
    }
  }

  /** The unit: live ones are refused, stopped ones must carry a description of the volume (node_no_state.go:43-55). */
  method ObserveStoppedUnit(host: Host) returns (answer: Answer<Option<UnitState>>)
    requires host.Inv()
    modifies host.runtime
    ensures host.Observed()
    ensures answer.Known? ==> answer.value != Some(UnitActive) && answer.value != Some(UnitActivating)
    ensures answer == Known(None) ==> host.runtime.unit.NotFound?
    ensures host.settled && !Running(old(host.runtime.unit)) ==> answer == Known(Expected(old(host.View()), "").unit)
  {
    hide Evolves, Host.Inv;
    ghost var start := host.View();
    answer := Unknown;
    var service := host.QueryUnit();
    ghost var atUnit := host.View();
    if service.Known? && !Live(service.value) {
      answer := service;
      if service.value.Some? {
        var description := host.QueryDescription();
        EvolvesTwice(start, atUnit, host.View());
        if description.Unknown? || description.value.None? {
          answer := Unknown;
        }
      }
    }
  }

  /** The two artifacts of a target (node_no_state.go:57-97). */
  method ObserveArtifacts(host: Host, target: Target) returns (answer: Answer<bool>)
    requires host.Inv() && Quiet(host.View())
    modifies host.runtime
    ensures host.Observed()
    ensures answer == Known(false) ==>
      host.View().lost || (target !in host.runtime.processStates && target !in host.runtime.sockets)
    ensures host.settled && NamesNobody(old(host.View()), target) ==>
      answer == Known(Expected(old(host.View()), target).deadArtifacts)
  {
    hide Persists, OnlySurvivors, Host.Inv, NoSupervisor;
    ghost var start := host.View();
    answer := Unknown;
    var process := ObserveDeadProcess(host, target);
    ghost var atProcess := host.View();
    if process.Known? {
      var socket := host.LstatControlSocket(target);
      EvolvesTwice(start, atProcess, host.View());
      if socket.Known? && socket.value != NotASocket {
        answer := Known(process.value || socket.value == RealSocket);
      }
    }
  }

  /** observeNoStateMount, for a volume without a record. */
  method ObserveNoState(host: Host, target: Target) returns (answer: Answer<NoStateObservation>)
    requires host.Inv() && host.record.None?
    modifies host.runtime
    ensures host.Observed()
    ensures answer.Known? ==> NothingAlive(host.View(), target, answer.value)
    ensures host.settled && CanonicalStagingTarget(target) && ArtifactsDead(old(host.View()), target) ==>
      answer == Known(Expected(old(host.View()), target))
  {
    hide Persists, OnlySurvivors, Shrinks, Host.Inv, CanonicalStagingTarget, NoSupervisor;
    ghost var start := host.View();
    host.Sound();
    NoRecordMeansNothingRuns(start);
    answer := Unknown;
    if !CanonicalStagingTarget(target) {
      host.Interfere();
      return;
    }
    var mounted := host.IsMountPoint(target);
    ghost var atMount := host.View();
    if mounted == Known(false) {
      var unit := ObserveStoppedUnit(host);
      ghost var atUnit := host.View();
      EvolvesTwice(start, atMount, atUnit);
      QuietStays(start, atUnit);
      if unit.Known? {
        var artifacts := ObserveArtifacts(host, target);
        EvolvesTwice(start, atUnit, host.View());
        if artifacts.Known? {
          answer := Known(NoStateObservation(unit.value, artifacts.value));
        }
      }
    }
  }

  /** Unload a stopped unit and remove dead artifacts (node_no_state.go:114-147). */
  method CleanNoState(host: Host, volume: VolumeID, target: Target, current: NoStateObservation) returns (ok: bool)
    requires host.Inv() && host.record.None? && NothingAlive(host.View(), target, current)
    modifies host.runtime, host`past
    ensures host.Inv() && Cleans(old(host.View()), old(host.past), host.View(), host.past)
    ensures ok ==> RuntimeAbsent(host.View(), target)
    ensures host.settled && ArtifactsDead(old(host.View()), target) ==> ok
  {
    hide Evolves, Host.Inv, NoSupervisor, CleansUp;
    ghost var start, begun := host.View(), host.past;
    CleansIsReflexive(start, begun);
    EvolvesReflexive(start);
    ok := true;
    if current.unit.Some? {
      ok := UnloadUnit(host);
    }
    ghost var unloaded, p := host.View(), host.past;
    NothingAliveStays(start, unloaded, target, current);
    if ok && current.deadArtifacts {
      ghost var looked: World;
      ok, looked := RemoveVerifiedDeadRuntimeArtifacts(host, Blank(volume, target));
      CleansTwice(start, begun, unloaded, p, host.View(), host.past);
      NothingAliveStays(unloaded, host.View(), target, current);
      AbsenceEvolves(unloaded, host.View());
    }
  }

  /** The observation still holds, of a target without a mount and without a live process. */
  predicate StillExpected(w: World, target: Target, expected: NoStateObservation) {
    CanonicalStagingTarget(target) && ArtifactsDead(w, target) && expected == Expected(w, target)
  }

  /**
    * reconcileNoStateMount. Success means that the host holds nothing at all for the volume, neither alive
    * nor left behind. On a settled host without a mount and without a live process it always succeeds, if
    * the observation it is given still holds.
    */
  method ReconcileNoState(host: Host, volume: VolumeID, target: Target, expected: NoStateObservation) returns (ok: bool)
    requires host.Inv() && host.record.None?
    modifies host.runtime, host`past
    ensures host.Inv() && Cleans(old(host.View()), old(host.past), host.View(), host.past)
    ensures ok ==> RuntimeAbsent(host.View(), target)
    ensures host.settled && StillExpected(old(host.View()), target, expected) ==> ok
  {
    hide Evolves, Host.Inv, NoSupervisor, CleansUp, Cleans, CanonicalStagingTarget;
    ghost var start, begun := host.View(), host.past;
    ok := false;
    var current := ObserveNoState(host, target);
    ghost var seen := host.View();
    CleansNothing(start, begun, seen, begun);
    if current == Known(expected) {
      ok := CleanNoState(host, volume, target, expected);
      ghost var cleaned, p := host.View(), host.past;
      CleansTwice(start, begun, seen, begun, cleaned, p);
      if ok {
        var final := ObserveNoState(host, target);
        CleansNothing(cleaned, p, host.View(), p);
        CleansTwice(start, begun, cleaned, p, host.View(), p);
        RuntimeStaysAbsent(cleaned, host.View(), target);
        ok := final.Known? && final.value.unit.None? && !NeedsCleanup(final.value);
      }
    }
  }

  lemma RuntimeStaysAbsent(a: World, b: World, target: Target)
    requires RuntimeAbsent(a, target) && Evolves(a, b)
    ensures RuntimeAbsent(b, target)
  {
  }
}
