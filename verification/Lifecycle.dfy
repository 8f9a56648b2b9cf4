/** Waiting for readiness and promotion to active (internal/driver/mount_lifecycle.go:335-449). */
module Lifecycle {
  import opened Text
  import opened MountRecord
  import opened MountArgs
  import opened World
  import opened Host
  import opened Ownership
  import opened Stop

  const POLL_INTERVAL := 250_000_000

  /** The active record that one starting record may turn into. */
  predicate PromotedFrom(state: MountState, active: MountState) {
    active.phase == Active && SameMountIdentity(state, active) && SameAttempt(state, active)
  }

  /** The durable record while a starting attempt is driven: itself, or promoted although that was not reported. */
  predicate OfAttempt(record: Option<MountState>, state: MountState) {
    record.Some? && (record.value == state || PromotedFrom(state, record.value))
  }

  predicate StartingRecord(state: MountState) {
    ValidMountState(state) && state.phase == Starting
  }

  /** The deadline that the record carries and that no step moves. */
  function Deadline(state: MountState): int {
    if state.startupDeadline.At? then state.startupDeadline.ns else 0
  }

  /** remainingStartupTimeout of a starting record. */
  function Remaining(state: MountState, now: int): nat {
    if Deadline(state) < now then 0 else Deadline(state) - now
  }

  /** The main process of the unit is this process beyond doubt. */
  predicate MainIs(w: World, state: MountState, process: VerifiedProcess) {
    && MainAttributed(w, state, true)
    && process.pid > 0 && w.unit.mainPID == process.pid && Alive(w, IdentOf(process))
  }

  /** What a poll on a settled host must see to promote: the mount, its socket, and one process everywhere. */
  predicate ReadyMount(w: World, state: MountState, process: VerifiedProcess) {
    && !process.isLauncher && state.stagingTarget in w.mounts && state.stagingTarget in w.sockets
    && RecordedAt(w, state.stagingTarget, IdentOf(process))
    && Attributed(w, IdentOf(process), state.stagingTarget, state.binaryPath)
    && Running(w.unit) && MainIs(w, state, process)
  }

  /** What a settled host must show before an attempt is promoted. */
  predicate Serving(w: World, state: MountState) {
    && state.stagingTarget in w.mounts && state.stagingTarget in w.sockets
    && Running(w.unit) && w.unit.attempt == state.attemptID
  }

  /** The record may still be promoted: it is the starting one, and the clock is not behind it. */
  predicate Promotable(w: World, state: MountState) {
    w.record == Some(state) && StartingRecord(state) && state.createdAt.ns <= w.clock
  }

  /** verifyStartingSystemdOwnership. */
  method VerifyReadyService(host: Host, state: MountState, service: Option<UnitState>, process: VerifiedProcess)
    returns (ok: bool)
    requires host.Inv()
    modifies host.runtime, host`past
    ensures host.Observed() && OnlyAccepts(old(host.past), host.past)
    ensures ok ==> LiveSupervisor(host.View(), process)
    ensures host.settled && Live(service) && MainIs(old(host.View()), state, process) ==> ok
    ensures ok ==> Live(service)
    ensures host.settled && ok ==> host.runtime.unit.Loaded? && host.runtime.unit.attempt == state.attemptID
  {
    if !Live(service) {
      host.Interfere();
      return false;
    }
    var main := VerifyStartingMainPID(host, state);
    ok := main.Known? && main.value.Some? && IdentOf(main.value.value) == IdentOf(process);
  }

  /**
    * promoteActive. The credentials are gone before the record turns active; a reported failure leaves
    * the starting record, or the active one.
    */
  method PromoteActive(host: Host, state: MountState, process: VerifiedProcess) returns (promoted: Option<MountState>)
    requires host.Inv() && StartingRecord(state) && OfAttempt(host.record, state)
    requires process.pid > 0 && IdentOf(process) in host.runtime.born && OnlyOne(host.View(), IdentOf(process))
    modifies host.runtime, host`record, host`past
    ensures host.Inv() && Evolves(old(host.View()).(record := host.record), host.View())
    ensures CleansUp(old(host.past), host.past, old(host.record))
    ensures promoted.Some? ==>
      && host.record == promoted && promoted.value.phase == Active
      && RecordedIdent(promoted.value) == IdentOf(process)
      && host.runtime.startup == {}
    ensures OfAttempt(host.record, state) && KeepsConsumers(old(host.record), host.record)
    ensures host.settled && Promotable(old(host.View()), state) && process.pidStartTime > 0 ==> promoted.Some?
  {
    hide StartingRecord, Evolves, Host.Inv, CleansUp, ServesConsumers, StartupPathsOf;
    ghost var start := host.View();
    StartingHasPaths(state);
    var removed := RemoveAttemptStartupFiles(host, state);
    if !removed {
      return None;
    }
    ghost var clean := host.View();
    BornStays(start, clean, IdentOf(process));
    OnlyOneStays(start, clean, IdentOf(process));
    promoted := WriteActive(host, state, process);
    EvolvesThrough(start, clean, host.View());
  }

  /** Write the active record, once the startup files are gone. */
  method WriteActive(host: Host, state: MountState, process: VerifiedProcess) returns (promoted: Option<MountState>)
    requires host.Inv() && OfAttempt(host.record, state) && host.runtime.startup == {}
    requires process.pid > 0 && IdentOf(process) in host.runtime.born && OnlyOne(host.View(), IdentOf(process))
    modifies host.runtime, host`record
    ensures host.Inv() && Evolves(old(host.View()).(record := host.record), host.View())
    ensures promoted.Some? ==>
      && host.record == promoted && promoted.value.phase == Active
      && RecordedIdent(promoted.value) == IdentOf(process)
      && host.runtime.startup == {}
    ensures OfAttempt(host.record, state) && KeepsConsumers(old(host.record), host.record)
    ensures host.settled && Promotable(old(host.View()), state) && process.pidStartTime > 0 ==> promoted.Some?
  {
    hide Evolves, Host.Inv, ServesConsumers, ValidTransition, NoSupervisor, StartingRecord, ActiveRecord;
    ghost var start := host.View();
    var now := host.Now();
    ghost var atNow := host.View();
    BornStays(start, atNow, IdentOf(process));
    OnlyOneStays(start, atNow, IdentOf(process));
    NoStartupFilesAppear(start, atNow);
    PromotionIsSound(state, process, now);
    if host.settled && Promotable(start, state) && process.pidStartTime > 0 {
      PromotionIsAccepted(state, process, now);
    }
    var active := ActiveRecord(state, process, now);
    var written := host.WriteRecord(active);
    EvolvesThrough(start, atNow, host.View());
    NoStartupFilesAppear(atNow.(record := host.record), host.View());
    promoted := if written then Some(active) else None;
  }

  lemma NoStartupFilesAppear(a: World, b: World)
    requires Evolves(a, b)
    ensures a.startup == {} ==> b.startup == {}
  {
  }

  lemma StartingHasPaths(state: MountState)
    requires StartingRecord(state)
    ensures StartupPathsOf(state)
  {
    hide ValidMountArgs;
  }

  lemma PromotionIsAccepted(state: MountState, process: VerifiedProcess, now: int)
    requires StartingRecord(state) && state.createdAt.ns <= now
    requires process.pid > 0 && process.pidStartTime > 0
    ensures ValidTransition(Some(state), ActiveRecord(state, process, now))
  {
    ActiveRecordAcceptedIff(state, process, now);
  }

  lemma PromotionIsSound(state: MountState, process: VerifiedProcess, now: int)
    requires process.pid > 0
    ensures var active := ActiveRecord(state, process, now);
      && PromotedFrom(state, active) && active.attemptID == state.attemptID
      && active.phase == Active && active.envPath.NoPath? && active.pid > 0
      && RecordedIdent(active) == IdentOf(process)
      && active.stagingTarget == state.stagingTarget
      && Ident(active.pid, active.pidStartTime) == IdentOf(process)
  {
  }

  datatype Poll = NotReady | PollFailed | Ready(process: VerifiedProcess)

  /** One look at the mount, its process, its socket and its service (mount_lifecycle.go:348-385). */
  method PollReadiness(host: Host, state: MountState) returns (poll: Poll)
    requires host.Inv()
    modifies host.runtime, host`past
    ensures host.Observed() && OnlyAccepts(old(host.past), host.past)
    ensures poll.Ready? ==> LiveSupervisor(host.View(), poll.process) && IdentOf(poll.process) in host.past.accepted
    ensures forall process | host.settled && ReadyMount(old(host.View()), state, process) :: poll == Ready(process)
    ensures host.settled && poll.Ready? ==> Serving(host.View(), state)
  {
    hide Evolves, Host.Inv, NoSupervisor;
    ghost var start, begun := host.View(), host.past;
    var cancelled := host.Cancelled();
    if cancelled {
      host.Interfere();
      return PollFailed;
    }
    var mounted := host.IsMountPoint(state.stagingTarget);
    if mounted.Unknown? {
      return PollFailed;
    }
    ghost var atMount := host.View();
    var present := host.LstatProcessState(state.stagingTarget);
    ghost var atFile := host.View();
    EvolvesTwice(start, atMount, atFile);
    if present == Unreadable {
      return PollFailed;
    }
    if present == Absent {
      return NotReady;
    }
    poll := PollProcess(host, state, mounted.value);
    EvolvesTwice(start, atFile, host.View());
  }

  /** The part of a poll that has found a process-state file (mount_lifecycle.go:356-385). */
  method PollProcess(host: Host, state: MountState, mounted: bool) returns (poll: Poll)
    requires host.Inv()
    modifies host.runtime, host`past
    ensures host.Observed() && OnlyAccepts(old(host.past), host.past)
    ensures poll.Ready? ==> LiveSupervisor(host.View(), poll.process) && IdentOf(poll.process) in host.past.accepted
    ensures forall process | host.settled && mounted && ReadyMount(old(host.View()), state, process) ::
      poll == Ready(process)
    ensures poll.Ready? ==> mounted
    ensures host.settled && poll.Ready? && state.stagingTarget in host.runtime.mounts ==> Serving(host.View(), state)
  {
    hide Evolves, Host.Inv, LiveSupervisor;
    ghost var start, begun := host.View(), host.past;
    var verified := VerifyProcessOwnership(host, state, None);
    ghost var atProcess, between := host.View(), host.past;
    if verified.Unknown? {
      return PollFailed;
    }
    if !mounted {
      return NotReady;
    }
    poll := ConfirmReady(host, state, verified.value);
    EvolvesTwice(start, atProcess, host.View());
    OnlyAcceptsTwice(begun, between, host.past);
  }

  /** A verified process of a mounted target must have a real socket and be the main process. */
  method ConfirmReady(host: Host, state: MountState, process: VerifiedProcess) returns (poll: Poll)
    requires host.Inv()
    modifies host.runtime, host`past
    ensures host.Observed() && OnlyAccepts(old(host.past), host.past)
    ensures poll.Ready? ==> poll.process == process && LiveSupervisor(host.View(), process)
    ensures host.settled && ReadyMount(old(host.View()), state, process) ==> poll == Ready(process)
    ensures host.settled && poll.Ready? && state.stagingTarget in host.runtime.mounts ==> Serving(host.View(), state)
  {
    hide Evolves, Host.Inv, LiveSupervisor;
    ghost var start := host.View();
    var socket := host.LstatControlSocket(state.stagingTarget);
    if socket != Known(RealSocket) {
      return PollFailed;
    }
    ghost var atSocket := host.View();
    var service := host.QueryUnit();
    ghost var atUnit := host.View();
    EvolvesTwice(start, atSocket, atUnit);
    if service.Unknown? {
      return PollFailed;
    }
    var ok := VerifyReadyService(host, state, service.value, process);
    EvolvesTwice(start, atUnit, host.View());
    poll := if ok then Ready(process) else PollFailed;
  }

  /** One turn of the loop up to the deadline check (mount_lifecycle.go:345-385). */
  method PollAndPromote(host: Host, state: MountState) returns (poll: Poll, active: Option<MountState>)
    requires host.Inv() && StartingRecord(state) && OfAttempt(host.record, state)
    modifies host.runtime, host`record, host`past
    ensures host.Inv() && Evolves(old(host.View()).(record := host.record), host.View())
    ensures CleansUp(old(host.past), host.past, old(host.record))
    ensures active.Some? ==>
      && host.record == active && active.value.phase == Active
      && RecordedIdent(active.value) in host.past.accepted
    ensures OfAttempt(host.record, state) && KeepsConsumers(old(host.record), host.record)
    ensures !poll.Ready? ==> host.record == old(host.record) && active.None?
    ensures forall process |
      host.settled && ReadyMount(old(host.View()), state, process) && Promotable(old(host.View()), state) ::
      active.Some?
    ensures host.settled && active.Some? ==> Serving(old(host.View()), state)
    ensures host.settled && !poll.Ready? ==> host.View() == old(host.View())
  {
    hide StartingRecord, Evolves, Host.Inv, CleansUp, ServesConsumers, OnlyAccepts;
    ghost var start, begun := host.View(), host.past;
    poll := PollReadiness(host, state);
    ghost var polled, between := host.View(), host.past;
    NothingCleanedUp(begun, between, host.record);
    active := None;
    if poll.Ready? {
      host.Sound();
      LiveSupervisorIsOnly(polled, poll.process);
      active := PromoteActive(host, state, poll.process);
      EvolvesThrough(start, polled, host.View());
      CleansUpTwice(begun, between, host.past, old(host.record));
      AcceptanceStays(between, host.past, old(host.record), IdentOf(poll.process));
    }
  }

  /** The number of polls until the deadline: one every interval, and the last one at it. */
  function PollBound(remaining: nat): nat {
    (remaining + POLL_INTERVAL - 1) / POLL_INTERVAL + 1
  }

  /** waitForMountAndPromote: polls until the mount is ready, something fails, or the deadline passes. */
  method WaitForMountAndPromote(host: Host, state: MountState)
    returns (active: Option<MountState>, ghost polls: nat)
    requires host.Inv() && StartingRecord(state) && OfAttempt(host.record, state)
    modifies host.runtime, host`record, host`past
    ensures host.Inv() && Evolves(old(host.View()).(record := host.record), host.View())
    ensures CleansUp(old(host.past), host.past, old(host.record))
    ensures active.Some? ==>
      && host.record == active && active.value.phase == Active
      && RecordedIdent(active.value) in host.past.accepted
    ensures OfAttempt(host.record, state) && KeepsConsumers(old(host.record), host.record)
    ensures polls <= PollBound(Remaining(state, old(host.runtime.clock)))
    ensures forall process |
      host.settled && ReadyMount(old(host.View()), state, process) && Promotable(old(host.View()), state) ::
      active.Some? && polls == 1
    ensures host.settled && active.Some? ==> Serving(old(host.View()), state)
  {
    hide StartingRecord, Evolves, Host.Inv, CleansUp, ServesConsumers, OnlyAccepts, PollBound, ReadyMount, Promotable;
    ghost var start, begun := host.View(), host.past;
    ghost var ready := host.settled && Promotable(start, state) && exists process :: ReadyMount(start, state, process);
    ghost var remaining := Remaining(state, start.clock);
    EvolvesReflexive(start);
    NothingCleanedUp(begun, begun, host.record);
    polls := 0;
    while true
      invariant host.Inv() && host.record == old(host.record)
      invariant Evolves(start, host.View()) && CleansUp(begun, host.past, host.record)
      invariant host.runtime.clock >= Deadline(state) || host.runtime.clock >= start.clock + polls * POLL_INTERVAL
      invariant polls > 0 ==> (polls - 1) * POLL_INTERVAL < remaining
      invariant ready ==> polls == 0 && host.View() == start
      invariant host.settled ==> host.View() == start.(clock := host.runtime.clock)
      decreases Remaining(state, host.runtime.clock)
    {
      ghost var atPoll, before := host.View(), host.past;
      var poll: Poll;
      poll, active := PollAndPromote(host, state);
      ghost var polled := host.View();
      CleansUpTwice(begun, before, host.past, old(host.record));
      PollsAreBounded(remaining, polls);
      EvolvesThrough(start, atPoll, polled);
      polls := polls + 1;
      if !poll.NotReady? {
        return;
      }
      var ok := AwaitNextPoll(host, state);
      EvolvesTwice(start, polled, host.View());
      ClockAdvances(atPoll, polled);
      if !ok {
        return None, polls;
      }
    }
  }

  /**
    * Past the deadline classify the failure, and before it wait for one interval at most
    * (mount_lifecycle.go:387-397).
    */
  method AwaitNextPoll(host: Host, state: MountState) returns (ok: bool)
    requires host.Inv()
    modifies host.runtime
    ensures host.Moved()
    ensures ok ==>
      && old(host.runtime.clock) < Deadline(state)
      && (host.runtime.clock >= Deadline(state) || host.runtime.clock >= old(host.runtime.clock) + POLL_INTERVAL)
    ensures host.settled ==> host.View() == old(host.View()).(clock := host.runtime.clock)
  {
    hide Host.Inv, Persists, OnlySurvivors, Shrinks, NoSupervisor;
    ghost var start := host.View();
    var now := host.Now();
    ghost var atNow := host.View();
    if now >= Deadline(state) {
      var service := host.QueryUnit();
      EvolvesTwice(start, atNow, host.View());
      return false;
    }
    var wait := if Deadline(state) - now < POLL_INTERVAL then Deadline(state) - now else POLL_INTERVAL;
    ok := host.Wait(wait);
    EvolvesTwice(start, atNow, host.View());
  }

  lemma ClockAdvances(a: World, b: World)
    requires Evolves(a, b)
    ensures a.clock <= b.clock
  {
  }

  lemma AcceptanceStays(p: Past, q: Past, record: Option<MountState>, id: Ident)
    requires CleansUp(p, q, record) && id in p.accepted
    ensures id in q.accepted
  {
  }

  lemma PollsAreBounded(remaining: nat, polls: nat)
    requires polls > 0 ==> (polls - 1) * POLL_INTERVAL < remaining
    ensures polls + 1 <= PollBound(remaining)
  {
  }
}
