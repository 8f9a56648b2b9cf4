/**
  * The host runtime and the durable record of one volume, as the reconcilers use them
  * (internal/driver/host_runtime.go, the command helpers of mount_stop.go and systemd.go, and the
  * mountStateStore of mount_state.go).
  *
  * The environment may act before every operation. An operation may fail, with or without having had
  * its effect; a crash after some step is the run in which every later operation fails without effect.
  * On a settled host nothing moves by itself and every operation does its job; on a prompt one a started
  * service is up at once.
  *
  * A start or a deletion that rests on a look at the mount from while the unit ran may find a
  * supervisor still alive. The history remembers it together with that look, and from there on the world
  * is lost: the driver goes on, but nothing is claimed about owners any more.
  */
module Host {
  import opened Text
  import opened MountRecord
  import opened World

  datatype Answer<+T> = Known(value: T) | Unknown
  datatype StartTime = StartedAt(start: nat) | NoSuchProcess | UnreadableStart
  datatype Presence = Present | Absent | Unreadable
  datatype SocketKind = RealSocket | NoSocket | NotASocket

  /**
    * The host when a service was started, and when the pass that did so last read the target as unmounted;
    * loaded says whether the command had its effect.
    */
  datatype Start = Start(host: World, seen: World, loaded: bool)

  /** The same when a record was deleted, or replaced by that of another attempt. */
  datatype Deletion = Deletion(host: World, seen: World)

  /** What has happened, for stating what never does. */
  datatype Past = Past(
    starts: seq<Start>,                     // every start of a mount service
    deletions: set<Deletion>,               // every time that the durable record of an attempt went
    commandsUnder: set<Option<MountState>>, // the durable record at each command that changes the runtime
    accepted: map<Ident, Executable>,       // identities that passed an ownership check, and what they ran
    lastAlive: Option<Ident>,               // the last identity whose liveness check succeeded
    killed: set<Ident>,
    drains: nat,                            // how often the mount was drained
    published: set<StartupFile>)            // startup files that were reported as published

  /**
    * The record names the attempt, and the target is vacant: of supervisors unless the unit ran when the
    * mount was read and had not lost its own, and of a mount unless anything of the volume was alive then.
    */
  predicate SafeStart(start: Start) {
    && start.host.record.Some? && start.host.record.value.phase == Starting
    && ClearSince(start.seen, start.host, start.host.record.value.stagingTarget)
  }

  /** In the same sense nothing of the record is left on the host when it goes. */
  predicate SafeDeletion(deletion: Deletion) {
    && deletion.host.record.Some?
    && ClearedSince(deletion.seen, deletion.host, deletion.host.record.value.stagingTarget)
    && (deletion.host.record.value.phase == Stopping && !Running(deletion.seen.unit) ==>
          deletion.host.lost || deletion.host.record.value.stagingTarget !in deletion.host.sockets)
  }

  /** Every start and every deletion is safe in this sense, and the world was not lost before an owner was missed. */
  ghost predicate SafeActs(past: Past) {
    && (forall start | start in past.starts ::
          && SafeStart(start) && Published(past, start.host.record.value.attemptID)
          && (start.host.lost ==> OwnerMissed(past)))
    && (forall deletion | deletion in past.deletions ::
          SafeDeletion(deletion) && (deletion.host.lost ==> OwnerMissed(past)))
  }

  /** Every identity that was killed had been accepted, and one that was accepted is still what it was, if it lives. */
  predicate SafeKills(w: World, past: Past) {
    && (forall id | id in past.accepted :: id in w.born && (Alive(w, id) ==> Owned(w, id, past.accepted[id])))
    && (past.lastAlive.Some? ==> past.lastAlive.value in w.born)
    && past.killed <= past.accepted.Keys
  }

  lemma SafeKillsEvolve(a: World, b: World, past: Past)
    requires SafeKills(a, past) && Evolves(a, b)
    ensures SafeKills(b, past)
  {
  }

  /** A supervisor was alive at a start or a deletion, whose pass had read the mount while the unit ran. */
  ghost predicate OwnerMissed(past: Past) {
    || (exists start | start in past.starts :: !NoneToCome(start.seen) && !NoSupervisor(start.host))
    || (exists deletion | deletion in past.deletions :: !NoneToCome(deletion.seen) && !NoSupervisor(deletion.host))
  }

  lemma SafeDeletionStays(seen: World, a: World, b: World)
    requires SafeDeletion(Deletion(a, seen)) && Evolves(a, b)
    ensures SafeDeletion(Deletion(b, seen))
  {
    ClearedSinceEvolves(seen, a, b, a.record.value.stagingTarget) by {
      assert a.(record := b.record) == a;
    }
  }

  /** Both startup files of the attempt have been published. */
  predicate Published(past: Past, attempt: AttemptID) {
    {StartupFile(attempt, Env), StartupFile(attempt, Args)} <= past.published
  }

  /** In the meantime the service of this record was loaded. */
  ghost predicate Started(before: Past, after: Past, state: MountState) {
    exists i: nat ::
      |before.starts| <= i < |after.starts| && after.starts[i].host.record == Some(state) && after.starts[i].loaded
  }

  /** Whatever was started or deleted in the meantime rests on this look at the mount. */
  ghost predicate ActsSee(before: Past, after: Past, seen: World) {
    && (forall i: nat | |before.starts| <= i < |after.starts| :: after.starts[i].seen == seen)
    && (forall deletion | deletion in after.deletions :: deletion in before.deletions || deletion.seen == seen)
  }

  /** Whatever was started or deleted in the meantime rests on a look at the mount from this point on. */
  ghost predicate SeenSince(from: World, before: Past, after: Past) {
    && (forall i: nat | |before.starts| <= i < |after.starts| :: Follows(from, after.starts[i].seen))
    && (forall deletion | deletion in after.deletions ::
          deletion in before.deletions || Follows(from, deletion.seen))
  }

  lemma ActsSeeSince(from: World, seen: World, p: Past, q: Past)
    requires ActsSee(p, q, seen) && Follows(from, seen)
    ensures SeenSince(from, p, q)
  {
  }

  lemma ActsSeeTwice(p: Past, q: Past, r: Past, seen: World)
    requires ActsSee(p, q, seen) && ActsSee(q, r, seen) && p.starts <= q.starts <= r.starts
    ensures ActsSee(p, r, seen)
  {
    forall i: nat | |p.starts| <= i < |r.starts| ensures r.starts[i].seen == seen {
      if i < |q.starts| {
        assert r.starts[i] == q.starts[i];
      }
    }
  }

  class Runtime {
    var unit: Unit
    var procs: map<nat, Process>
    var born: set<Ident>
    var mounts: set<Target>
    var processStates: map<Target, ProcessState>
    var sockets: set<Target>
    var startup: set<StartupFile>
    var clock: int

    constructor (w: World)
      ensures unit == w.unit && procs == w.procs && born == w.born && mounts == w.mounts
      ensures processStates == w.processStates && sockets == w.sockets && startup == w.startup
      ensures clock == w.clock
    {
      unit, procs, born, mounts := w.unit, w.procs, w.born, w.mounts;
      processStates, sockets, startup := w.processStates, w.sockets, w.startup;
      clock := w.clock;
    }
  }

  class Host {
    const runtime: Runtime
    var record: Option<MountState>
    const settled: bool
    const prompt: bool
    var lost: bool   // a start or a deletion has missed a live supervisor; never on a settled host
    ghost var past: Past

    constructor (w: World, settled: bool, prompt: bool)
      requires Consistent(w) && !w.lost
      ensures Inv() && View() == w && this.settled == settled && this.prompt == prompt
      ensures past == Past([], {}, {}, map[], None, {}, 0, {})
      ensures fresh(runtime)
    {
      runtime := new Runtime(w);
      record := w.record;
      this.settled, this.prompt := settled, prompt;
      lost := false;
      past := Past([], {}, {}, map[], None, {}, 0, {});
    }

    function View(): World
      reads this, runtime
    {
      World(record, runtime.unit, runtime.procs, runtime.born, runtime.mounts, runtime.processStates,
        runtime.sockets, runtime.startup, runtime.clock, lost && !settled)
    }

    /** Holds between any two operations, so also wherever the driver crashes. */
    ghost predicate Inv()
      reads this, runtime
    {
      && Consistent(View()) && SafeActs(past) && SafeKills(View(), past)
      && (lost ==> !settled && OwnerMissed(past))
    }

    /** What Inv says, for callers that hide it. */
    lemma Sound()
      requires Inv()
      ensures Consistent(View()) && (forall id | id in past.accepted :: id in runtime.born)
    {
    }

    method Assign(w: World)
      modifies runtime
      ensures View() == w.(record := record, lost := View().lost)
    {
      runtime.unit, runtime.procs, runtime.born, runtime.mounts := w.unit, w.procs, w.born, w.mounts;
      runtime.processStates, runtime.sockets, runtime.startup := w.processStates, w.sockets, w.startup;
      runtime.clock := w.clock;
    }

    /** One step of the environment. */
    method Interfere()
      requires Inv()
      modifies runtime
      ensures Inv() && EnvStep(old(View()), View()) && Evolves(old(View()), View())
      ensures settled ==> unchanged(runtime)
    {
      hide Consistent, EnvStep, Evolves, SafeActs, SafeKills, OwnerMissed;
      ghost var before := View();
      Sound();
      EnvStepReflexive(before);
      EnvStepEvolves(before, before);
      if !settled {
        var w: World :| EnvStep(View(), w);
        EnvStepKeepsConsistent(before, w);
        EnvStepEvolves(before, w);
        SafeKillsEvolve(before, w, past);
        SameEvolution(before, w);
        Assign(w);
      }
    }

    /** What every operation guarantees that leaves the durable record alone. */
    twostate predicate Moved()
      reads this, runtime
    {
      Inv() && Evolves(old(View()), View()) && record == old(record)
    }

    /** What every observation guarantees. */
    twostate predicate Observed()
      reads this, runtime
    {
      && Moved()
      && (settled ==> unchanged(runtime) && View() == old(View()))
    }

    /** What every step guarantees that acts on this look at the mount: it misses an owner only if the unit ran then. */
    twostate predicate Risked(seen: World)
      reads this, runtime
    {
      Inv() && ActsSee(old(past), past, seen) && (NoneToCome(seen) ==> lost == old(lost))
    }

    /** The same for looks from this point on. */
    twostate predicate RiskedSince(from: World)
      reads this, runtime
    {
      Inv() && SeenSince(from, old(past), past) && (NoneToCome(from) ==> lost == old(lost))
    }

    // ---- Observations ------------------------------------------------------------------------

    method Cancelled() returns (cancelled: bool)
      ensures settled ==> !cancelled
    {
      cancelled := *;
      if settled {
        cancelled := false;
      }
    }

    method Now() returns (now: int)
      requires Inv()
      modifies runtime
      ensures Observed() && now == runtime.clock
    {
      Interfere();
      now := runtime.clock;
    }

    /** NewAttemptID: never the attempt on record. */
    method NewAttemptID() returns (attempt: Option<AttemptID>)
      ensures attempt.Some? ==> WellFormedAttempt(attempt.value)
      ensures attempt.Some? && record.Some? ==> attempt.value != record.value.attemptID
      ensures settled ==> attempt.Some?
    {
      var id: int := *;
      var fails: bool := *;
      var candidate := if id > 0 then id else 1;
      if record.Some? && candidate == record.value.attemptID {
        candidate := candidate + 1;
      }
      attempt := if fails && !settled then None else Some(candidate);
    }

    method IsMountPoint(target: Target) returns (answer: Answer<bool>)
      requires Inv()
      modifies runtime
      ensures Observed() && (settled ==> answer.Known?)
      ensures answer.Known? ==> answer.value == (target in runtime.mounts)
    {
      Interfere();
      var fails: bool := *;
      answer := if fails && !settled then Unknown else Known(target in runtime.mounts);
    }

    /** querySystemdUnit: None is not-found. */
    method QueryUnit() returns (answer: Answer<Option<UnitState>>)
      requires Inv()
      modifies runtime
      ensures Observed() && (settled ==> answer.Known?)
      ensures answer.Known? ==>
        answer.value == if runtime.unit.Loaded? then Some(runtime.unit.state) else None
    {
      Interfere();
      var fails: bool := *;
      answer := if fails && !settled then Unknown
                else Known(if runtime.unit.Loaded? then Some(runtime.unit.state) else None);
    }

    /** querySystemdUnitDescription: the attempt that the description names. */
    method QueryDescription() returns (answer: Answer<Option<AttemptID>>)
      requires Inv()
      modifies runtime
      ensures Observed() && (settled ==> answer.Known?)
      ensures answer.Known? ==>
        answer.value == if runtime.unit.Loaded? then Some(runtime.unit.attempt) else None
    {
      Interfere();
      var fails: bool := *;
      answer := if fails && !settled then Unknown
                else Known(if runtime.unit.Loaded? then Some(runtime.unit.attempt) else None);
    }

    /** querySystemdMainPID: 0 is no main process. */
    method QueryMainPID() returns (answer: Answer<nat>)
      requires Inv()
      modifies runtime
      ensures Observed() && (settled ==> answer.Known?)
      ensures answer.Known? ==> answer.value == if runtime.unit.Loaded? then runtime.unit.mainPID else 0
    {
      Interfere();
      var fails: bool := *;
      answer := if fails && !settled then Unknown
                else Known(if runtime.unit.Loaded? then runtime.unit.mainPID else 0);
    }

    /** readHostProcessStartTime. */
    method ReadStartTime(pid: nat) returns (answer: StartTime)
      requires Inv()
      modifies runtime
      ensures Observed() && (settled ==> answer != UnreadableStart)
      ensures answer.StartedAt? ==> pid in runtime.procs && runtime.procs[pid].start == answer.start
      ensures answer.NoSuchProcess? ==> pid !in runtime.procs
    {
      Interfere();
      var fails: bool := *;
      answer := if fails && !settled then UnreadableStart
                else if pid in runtime.procs then StartedAt(runtime.procs[pid].start) else NoSuchProcess;
    }

    method ReadCommandLine(pid: nat) returns (answer: Answer<CommandLine>)
      requires Inv()
      modifies runtime
      ensures Observed() && (settled && pid in runtime.procs ==> answer.Known?)
      ensures answer.Known? ==> pid in runtime.procs && answer.value == runtime.procs[pid].argv
    {
      Interfere();
      var fails: bool := *;
      answer := if (fails && !settled) || pid !in runtime.procs then Unknown else Known(runtime.procs[pid].argv);
    }

    /** Whether the process is in the cgroup of the volume's unit. */
    method ReadCgroup(pid: nat) returns (answer: Answer<bool>)
      requires Inv()
      modifies runtime
      ensures Observed() && (settled && pid in runtime.procs ==> answer.Known?)
      ensures answer.Known? ==> pid in runtime.procs && answer.value == runtime.procs[pid].origin.Supervisor?
    {
      Interfere();
      var fails: bool := *;
      answer := if (fails && !settled) || pid !in runtime.procs then Unknown
                else Known(runtime.procs[pid].origin.Supervisor?);
    }

    method ReadExecutable(pid: nat) returns (answer: Answer<Executable>)
      requires Inv()
      modifies runtime
      ensures Observed() && (settled && pid in runtime.procs ==> answer.Known?)
      ensures answer.Known? ==> pid in runtime.procs && answer.value == runtime.procs[pid].exe
    {
      Interfere();
      var fails: bool := *;
      answer := if (fails && !settled) || pid !in runtime.procs then Unknown else Known(runtime.procs[pid].exe);
    }

    method LstatProcessState(target: Target) returns (answer: Presence)
      requires Inv()
      modifies runtime
      ensures Observed() && (settled ==> answer != Unreadable)
      ensures answer == Present ==> target in runtime.processStates
      ensures answer == Absent ==> target !in runtime.processStates
    {
      Interfere();
      var fails: bool := *;
      answer := if fails && !settled then Unreadable
                else if target in runtime.processStates then Present else Absent;
    }

    /** readDrive9ProcessState and validateDrive9SupervisorProcessState: the identity that the file names. */
    method ReadProcessState(target: Target) returns (answer: Answer<Ident>)
      requires Inv()
      modifies runtime
      ensures Observed()
      ensures settled && target in runtime.processStates && runtime.processStates[target].Names? ==> answer.Known?
      ensures answer.Known? ==> RecordedAt(View(), target, answer.value)
    {
      Interfere();
      var fails: bool := *;
      answer := if (fails && !settled) || target !in runtime.processStates then Unknown
                else match runtime.processStates[target]
                     case Malformed => Unknown
                     case Names(id) => Known(id);
    }

    method LstatControlSocket(target: Target) returns (answer: Answer<SocketKind>)
      requires Inv()
      modifies runtime
      ensures Observed() && (settled ==> answer.Known? && answer.value != NotASocket)
      ensures answer == Known(RealSocket) ==> target in runtime.sockets
      ensures answer == Known(NoSocket) ==> target !in runtime.sockets
    {
      Interfere();
      var fails, foreign: bool := *, *;
      answer := if fails && !settled then Unknown
                else if target !in runtime.sockets then Known(NoSocket)
                else if foreign && !settled then Known(NotASocket) else Known(RealSocket);
    }

    method Wait(duration: int) returns (ok: bool)
      requires Inv() && duration >= 0
      modifies runtime
      ensures Moved() && (ok ==> runtime.clock >= old(runtime.clock) + duration)
      ensures settled ==> ok && View() == old(View()).(clock := old(runtime.clock) + duration)
    {
      hide Consistent, Evolves;
      ghost var start := View();
      Interfere();
      ghost var before := View();
      var cancelled: bool := *;
      ok := !cancelled || settled;
      if ok {
        runtime.clock := runtime.clock + duration;
        TimePasses(before, runtime.clock);
        EvolvesTwice(start, before, View());
      }
    }

    ghost method Accept(id: Ident, exe: Executable)
      requires Inv() && id in runtime.born
      requires Alive(View(), id) && Owned(View(), id, exe)
      modifies this`past
      ensures Inv()
      ensures past == old(past).(accepted := old(past).accepted[id := exe])
    {
      past := past.(accepted := past.accepted[id := exe]);
    }

    ghost method SawAlive(id: Ident)
      requires Inv() && id in runtime.born
      modifies this`past
      ensures Inv() && past == old(past).(lastAlive := Some(id))
    {
      past := past.(lastAlive := Some(id));
    }

    // ---- Commands ----------------------------------------------------------------------------

    ghost method Command()
      modifies this`past
      ensures SafeActs(old(past)) ==> SafeActs(past)
      ensures past == old(past).(commandsUnder := old(past).commandsUnder + {record})
    {
      past := past.(commandsUnder := past.commandsUnder + {record});
    }

    /** runDrain. */
    method Drain() returns (ok: bool)
      requires Inv()
      modifies runtime, this`past
      ensures Observed() && (settled ==> ok)
      ensures past == old(past).(commandsUnder := old(past).commandsUnder + {record}, drains := old(past).drains + 1)
    {
      Interfere();
      Command();
      past := past.(drains := past.drains + 1);
      ok := *;
      ok := ok || settled;
    }

    method TakeStopEffect()
      requires Inv()
      modifies runtime
      ensures Moved() && StopEffect(old(View()), View())
    {
      ghost var before := View();
      StopEffectIsPossible(before);
      var w: World :| StopEffect(View(), w);
      StopEffectEvolves(before, w);
      hide StopEffect, Consistent;
      Assign(w);
    }

    /** stopSystemdUnit. */
    method StopUnit() returns (ok: bool)
      requires Inv()
      modifies runtime, this`past
      ensures Moved() && (ok ==> !Running(runtime.unit))
      ensures settled ==> ok && StopEffect(old(View()), View())
      ensures past == old(past).(commandsUnder := old(past).commandsUnder + {record})
    {
      Interfere();
      Command();
      var effective, reported: bool := *, *;
      if effective || settled {
        TakeStopEffect();
      }
      ok := (effective && reported) || settled;
    }

    /** resetFailedUnit: a unit that does not run is unloaded. */
    method ResetFailed() returns (ok: bool)
      requires Inv()
      modifies runtime, this`past
      ensures Moved()
      ensures settled ==> ok && (!Running(old(runtime.unit)) ==> View() == old(View()).(unit := NotFound))
      ensures past == old(past).(commandsUnder := old(past).commandsUnder + {record})
    {
      hide Consistent, EnvStep, Evolves, SafeActs;
      ghost var start := View();
      Interfere();
      ghost var before := View();
      Sound();
      Command();
      var effective, reported: bool := *, *;
      if (effective || settled) && !Running(runtime.unit) {
        runtime.unit := NotFound;
      }
      RemovingEvolves(before, View());
      EvolvesTwice(start, before, View());
      ok := reported || settled;
    }

    /** runKernelUnmount. */
    method KernelUnmount(target: Target, lazy: bool) returns (ok: bool)
      requires Inv()
      modifies runtime, this`past
      ensures Moved()
      ensures settled ==> ok && View() == old(View()).(mounts := old(runtime.mounts) - {target})
      ensures past == old(past).(commandsUnder := old(past).commandsUnder + {record})
    {
      hide Consistent, EnvStep, Evolves, SafeActs;
      ghost var start := View();
      Interfere();
      ghost var before := View();
      Sound();
      Command();
      var effective, reported: bool := *, *;
      if effective || settled {
        runtime.mounts := runtime.mounts - {target};
      }
      RemovingEvolves(before, View());
      EvolvesTwice(start, before, View());
      ok := (effective && reported) || settled;
    }

    method Signal(pid: nat)
      requires Inv()
      modifies runtime, this`past
      ensures Moved()
      ensures settled ==> View() == old(View()).(procs := old(runtime.procs) - {pid})
      ensures past == old(past).(commandsUnder := old(past).commandsUnder + {record})
    {
      hide Consistent, EnvStep, Evolves, SafeActs;
      ghost var start := View();
      Interfere();
      ghost var before := View();
      Sound();
      Command();
      var effective: bool := *;
      if effective || settled {
        runtime.procs := runtime.procs - {pid};
      }
      RemovingEvolves(before, View());
      EvolvesTwice(start, before, View());
    }

    /** kill -KILL: names an identity, but reaches whichever process then holds its pid. */
    method Kill(id: Ident) returns (ok: bool)
      requires Inv()
      requires past.lastAlive == Some(id) && id in past.accepted
      modifies runtime, this`past
      ensures Moved()
      ensures settled ==> ok && View() == old(View()).(procs := old(runtime.procs) - {id.pid})
      ensures past == old(past).(commandsUnder := old(past).commandsUnder + {record}, killed := old(past).killed + {id})
    {
      Signal(id.pid);
      past := past.(killed := past.killed + {id});
      ok := *;
      if settled {
        ok := true;
      }
    }

    /** kill -TERM. */
    method Terminate(pid: nat) returns (ok: bool)
      requires Inv()
      modifies runtime, this`past
      ensures Moved()
      ensures settled ==> ok && View() == old(View()).(procs := old(runtime.procs) - {pid})
      ensures past == old(past).(commandsUnder := old(past).commandsUnder + {record})
    {
      Signal(pid);
      ok := *;
      ok := ok || settled;
    }

    /** Remove of one startup file; a missing file is no error. */
    method RemoveStartupFile(file: StartupFile) returns (ok: bool)
      requires Inv()
      modifies runtime, this`past
      ensures Moved() && (ok ==> file !in runtime.startup)
      ensures settled ==> ok && View() == old(View()).(startup := old(runtime.startup) - {file})
      ensures past == old(past).(commandsUnder := old(past).commandsUnder + {record})
    {
      hide Consistent, EnvStep, Evolves, SafeActs;
      ghost var start := View();
      Interfere();
      ghost var before := View();
      Sound();
      Command();
      var effective, reported: bool := *, *;
      if effective || settled {
        runtime.startup := runtime.startup - {file};
      }
      RemovingEvolves(before, View());
      EvolvesTwice(start, before, View());
      ok := (effective && reported) || settled;
    }

    /** Remove of a process-state file: never that of a live supervisor. */
    method RemoveProcessState(target: Target) returns (ok: bool)
      requires Inv()
      requires !Running(runtime.unit) && NoSupervisor(View())
      modifies runtime, this`past
      ensures Moved() && (ok ==> target !in runtime.processStates)
      ensures settled ==> ok && View() == old(View()).(processStates := old(runtime.processStates) - {target})
      ensures past == old(past).(commandsUnder := old(past).commandsUnder + {record})
    {
      hide Consistent, EnvStep, Evolves, SafeActs;
      ghost var start := View();
      Interfere();
      ghost var before := View();
      QuietStays(start, before);
      Sound();
      Command();
      var effective, reported: bool := *, *;
      if effective || settled {
        runtime.processStates := runtime.processStates - {target};
      }
      RemovingEvolves(before, View());
      EvolvesTwice(start, before, View());
      ok := (effective && reported) || settled;
    }

    method RemoveControlSocket(target: Target) returns (ok: bool)
      requires Inv()
      modifies runtime, this`past
      ensures Moved() && (ok ==> target !in runtime.sockets)
      ensures settled ==> ok && View() == old(View()).(sockets := old(runtime.sockets) - {target})
      ensures past == old(past).(commandsUnder := old(past).commandsUnder + {record})
    {
      hide Consistent, EnvStep, Evolves, SafeActs;
      ghost var start := View();
      Interfere();
      ghost var before := View();
      Sound();
      Command();
      var effective, reported: bool := *, *;
      if effective || settled {
        runtime.sockets := runtime.sockets - {target};
      }
      RemovingEvolves(before, View());
      EvolvesTwice(start, before, View());
      ok := (effective && reported) || settled;
    }

    ghost method RememberPublished(files: set<StartupFile>)
      modifies this`past
      ensures SafeActs(old(past)) ==> SafeActs(past)
      ensures past == old(past).(published := old(past).published + files)
    {
      past := past.(published := past.published + files);
    }

    /**
      * publishStartupFile: a failure may leave the temporary file, the published one, or both behind.
      * Only the attempt on record may publish.
      */
    method PublishStartupFile(file: StartupFile, temp: StartupFile) returns (ok: bool)
      requires Inv()
      requires record.Some? && !record.value.envPath.NoPath?
      requires file.attempt == temp.attempt == record.value.attemptID
      modifies runtime, this`past
      ensures Inv() && record == old(record)
      ensures Evolves(old(View()).(startup := runtime.startup), View())
      ensures settled ==> ok && View() == old(View()).(startup := runtime.startup)
      ensures past == old(past).(commandsUnder := old(past).commandsUnder + {record},
                        published := old(past).published + if ok then {file} else {})
    {
      hide Consistent, EnvStep, Evolves, SafeActs;
      ghost var start := View();
      Interfere();
      ghost var before := View();
      Command();
      var linked, cleaned, reported: bool := *, *, *;
      if settled {
        linked, cleaned, reported := true, true, true;
      }
      var files := (if linked then {file} else {}) + (if cleaned then {} else {temp});
      PublishKeepsConsistent(View(), files);
      runtime.startup := runtime.startup + files;
      EvolvesApart(start, before, record, runtime.startup);
      ok := linked && cleaned && reported;
      RememberPublished(if ok then {file} else {});
    }

    /** On a prompt host the service comes up as soon as it is started. */
    method BringUp()
      requires Inv() && record.Some? && record.value.pid == 0 && Quiet(View())
      modifies runtime
      ensures Inv() && CameUp(old(View()), View())
    {
      hide Consistent, SafeActs;
      ghost var free := FreshIdent(View());
      var id: Ident :| Fresh(View(), id);
      Sound();
      BroughtUpIsConsistent(View(), id);
      Assign(BroughtUp(View(), id));
    }

    ghost method RememberDeletion(seen: World)
      requires SafeActs(past) && SafeDeletion(Deletion(View(), seen)) && (lost ==> OwnerMissed(past))
      modifies this`past
      ensures SafeActs(past) && ActsSee(old(past), past, seen)
      ensures past == old(past).(deletions := old(past).deletions + {Deletion(View(), seen)})
      ensures OwnerMissed(old(past)) || (!NoneToCome(seen) && !NoSupervisor(View())) ==> OwnerMissed(past)
    {
      past := past.(deletions := past.deletions + {Deletion(View(), seen)});
    }

    ghost method RememberStart(seen: World, loaded: bool)
      requires SafeActs(past)
      requires SafeStart(Start(View(), seen, loaded)) && Published(past, record.value.attemptID)
      requires lost ==> OwnerMissed(past)
      modifies this`past
      ensures SafeActs(past) && ActsSee(old(past), past, seen)
      ensures past == old(past).(starts := old(past).starts + [Start(View(), seen, loaded)],
                        commandsUnder := old(past).commandsUnder + {record})
      ensures loaded ==> Started(old(past), past, record.value)
      ensures OwnerMissed(old(past)) || (!NoneToCome(seen) && !NoSupervisor(View())) ==> OwnerMissed(past)
    {
      past := past.(starts := past.starts + [Start(View(), seen, loaded)],
                    commandsUnder := past.commandsUnder + {record});
      assert past.starts[|past.starts| - 1] == Start(View(), seen, loaded);
    }

    /** Before an act beside a supervisor that was missed: the world is lost from here on. */
    method MissOwner()
      requires Inv() && (NoSupervisor(View()) || (!settled && OwnerMissed(past)))
      modifies this`lost
      ensures Inv() && NoSupervisor(View())
      ensures Evolves(old(View()), View()) && View() == old(View()).(lost := View().lost)
      ensures NoSupervisor(old(View())) ==> lost == old(lost)
    {
      LosingEvolves(View());
      EvolvesReflexive(View());
      var clear := NoSupervisor(View());
      if !clear {
        lost := true;
      }
    }

    /** systemd-run of the mount service for the attempt on record. */
    method StartUnit(ghost seen: World) returns (ok: bool)
      requires Inv() && record.Some? && record.value.pid == 0 && (settled ==> NoSupervisor(View()))
      requires SafeStart(Start(View(), seen, false)) && Published(past, record.value.attemptID)
      modifies runtime, this`past, this`lost
      ensures Inv() && record == old(record)
      ensures NoSupervisor(old(View())) ==> lost == old(lost)
      ensures runtime.clock >= old(runtime.clock) && runtime.startup <= old(runtime.startup)
      ensures old(past).starts < past.starts && ActsSee(old(past), past, seen)
      ensures past.(starts := []) ==
              old(past).(starts := [], commandsUnder := old(past).commandsUnder + {record})
      ensures old(runtime.born) <= runtime.born
      ensures settled ==>
        && ok && Started(old(past), past, record.value)
        && (if prompt then CameUp(old(View()), View()) else Activated(old(View()), View()))
    {
      hide Consistent, SafeActs, NoSupervisor, ActsSee, Started, OwnerMissed, Published;
      ghost var start := View();
      Interfere();
      ClearSinceEvolves(seen, start, View(), record.value.stagingTarget);
      SupervisorsStayGone(start, View());
      var effective, reported: bool := *, *;
      effective := effective || settled;
      RememberStart(seen, effective);
      ok := effective && (reported || settled);
      if effective {
        MissOwner();
        if settled && prompt {
          BringUp();
        } else {
          Load();
        }
      }
    }

    /** The unit is loaded and has not spawned its supervisor yet. */
    method Load()
      requires Inv() && record.Some? && record.value.pid == 0 && Quiet(View())
      modifies runtime
      ensures Inv() && Activated(old(View()), View())
    {
      hide SafeActs;
      runtime.unit := Loaded(UnitActivating, record.value.attemptID, false, 0);
    }

    // ---- What is decided elsewhere -------------------------------------------------------------

    /** A check outside this model, such as a capability probe or a remote lookup. */
    method Gate() returns (open: bool)
      ensures settled ==> open
    {
      open := *;
      open := open || settled;
    }

    /** readDesiredBinary: a version that is installed. */
    method DesiredBinary() returns (desired: Option<BinaryPath>)
      ensures settled ==> desired.Some? && desired.value.ContentAddressed?
    {
      var digest: int := *;
      desired := *;
      if settled {
        desired := Some(ContentAddressed(if digest >= 0 then digest else 0));
      }
    }

    // ---- The durable record ------------------------------------------------------------------

    /** mountStateStore.Read. */
    method ReadRecord() returns (answer: Answer<Option<MountState>>)
      ensures answer.Known? ==> answer.value == record && (record.Some? ==> ValidMountState(record.value))
      ensures settled && (record.Some? ==> ValidMountState(record.value)) ==> answer.Known?
    {
      var fails: bool := *;
      answer := if (fails && !settled) || (record.Some? && !ValidMountState(record.value)) then Unknown
                else Known(record);
    }

    /**
      * mountStateStore.Write: the transition is checked against the record on disk, and the write is
      * atomic, but a failure may be reported after it took effect.
      */
    method WriteRecord(next: MountState) returns (ok: bool)
      requires Inv()
      requires if record.Some? then record.value.attemptID == next.attemptID else Replaceable(View())
      requires next.pid > 0 ==>
        Ident(next.pid, next.pidStartTime) in runtime.born && OnlyOne(View(), Ident(next.pid, next.pidStartTime))
      requires next.envPath.NoPath? ==> runtime.startup == {}
      modifies runtime, this`record
      ensures Inv() && Evolves(old(View()).(record := record), View())
      ensures ok ==> record == Some(next)
      ensures record == old(record) || (record == Some(next) && ValidTransition(old(record), next))
      ensures next.phase != Stopping ==> KeepsConsumers(old(record), record)
      ensures settled && ValidTransition(old(record), next) ==> ok && View() == old(View()).(record := Some(next))
    {
      hide ValidTransition, ValidMountState, SafeActs, Consistent, EnvStep, Evolves;
      ghost var start := View();
      Interfere();
      ghost var before := View();
      ReplaceableStays(start, before);
      if next.pid > 0 {
        OnlyOneStays(start, before, Ident(next.pid, next.pidStartTime));
      }
      ok := ValidTransition(record, next);
      var effective, reported: bool := *, *;
      if ok && (effective || settled) {
        if next.phase != Stopping && record.Some? {
          WriteKeepsConsumers(record.value, next);
        }
        WriteKeepsConsistent(View(), next);
        record := Some(next);
      }
      EvolvesApart(start, before, record, runtime.startup);
      ok := ok && ((effective && reported) || settled);
    }

    /** The same when the record of another attempt goes, of which nothing is left. */
    method ReplaceRecord(next: MountState, ghost seen: World) returns (ok: bool)
      requires Inv() && record.Some? && SafeDeletion(Deletion(View(), seen)) && (settled ==> NoSupervisor(View()))
      requires next.pid == 0 && !next.envPath.NoPath? && next.phase != Stopping
      modifies runtime, this`record, this`past, this`lost
      ensures Inv() && Evolves(old(View()).(record := record), View())
      ensures NoSupervisor(old(View())) ==> lost == old(lost)
      ensures ok ==> record == Some(next)
      ensures record == old(record) || (record == Some(next) && ValidTransition(old(record), next))
      ensures KeepsConsumers(old(record), record)
      ensures past.deletions >= old(past).deletions && past.(deletions := {}) == old(past).(deletions := {})
      ensures ActsSee(old(past), past, seen)
      ensures settled && ValidTransition(old(record), next) ==> ok && View() == old(View()).(record := Some(next))
    {
      hide ValidTransition, ValidMountState, Consistent, EnvStep, Evolves, SafeActs, NoSupervisor;
      ghost var start := View();
      Interfere();
      SafeDeletionStays(seen, start, View());
      SupervisorsStayGone(start, View());
      ok := ValidTransition(record, next);
      var effective, reported: bool := *, *;
      if ok && (effective || settled) {
        ghost var before := View();
        WriteKeepsConsumers(record.value, next);
        RememberDeletion(seen);
        MissOwner();
        EvolvesTwice(start, before, View());
        ghost var missed := View();
        WriteKeepsConsistent(missed, next);
        record := Some(next);
        EvolvesApart(start, missed, record, runtime.startup);
      }
      ok := ok && ((effective && reported) || settled);
    }

    /** mountStateStore.Delete: only the expected record is deleted; a missing one is no error. */
    method DeleteRecord(expected: MountState, ghost seen: World) returns (ok: bool)
      requires Inv() && Deletable(expected)
      requires record == Some(expected) ==> NoSupervisor(View()) && SafeDeletion(Deletion(View(), seen))
      modifies runtime, this`record, this`past
      ensures Inv() && Evolves(old(View()).(record := record), View())
      ensures ok ==> record.None?
      ensures record == old(record) || (record.None? && old(record) == Some(expected))
      ensures past.deletions >= old(past).deletions && past.(deletions := {}) == old(past).(deletions := {})
      ensures ActsSee(old(past), past, seen)
      ensures settled ==> View() == old(View()).(record := record)
      ensures settled && old(record) == Some(expected) ==> ok
    {
      hide Consistent, EnvStep, Evolves, SafeActs, NoSupervisor;
      ghost var start := View();
      Interfere();
      ghost var before := View();
      SupervisorsStayGone(start, before);
      var effective, reported: bool := *, *;
      if record == Some(expected) && (effective || settled) {
        SafeDeletionStays(seen, start, before);
        RememberDeletion(seen);
        DeletionKeepsConsistent(before);
        record := None;
        effective := true;
      }
      EvolvesApart(start, before, record, runtime.startup);
      ok := record.None? && (reported || settled);
    }

    /** The same where a supervisor may be missed. */
    method DropRecord(expected: MountState, ghost seen: World) returns (ok: bool)
      requires Inv() && Deletable(expected) && record == Some(expected)
      requires SafeDeletion(Deletion(View(), seen)) && (settled ==> NoSupervisor(View()))
      modifies runtime, this`record, this`past, this`lost
      ensures Inv() && Evolves(old(View()).(record := record), View())
      ensures NoSupervisor(old(View())) ==> lost == old(lost)
      ensures ok ==> record.None?
      ensures record == old(record) || (record.None? && old(record) == Some(expected))
      ensures past.deletions >= old(past).deletions && past.(deletions := {}) == old(past).(deletions := {})
      ensures ActsSee(old(past), past, seen)
      ensures settled ==> ok && View() == old(View()).(record := record)
    {
      hide Consistent, EnvStep, Evolves, SafeActs, NoSupervisor;
      ghost var start := View();
      Interfere();
      ghost var before := View();
      SafeDeletionStays(seen, start, before);
      SupervisorsStayGone(start, before);
      var effective, reported: bool := *, *;
      effective := effective || settled;
      if effective {
        RememberDeletion(seen);
        MissOwner();
        DeletionKeepsConsistent(View());
        EvolvesTwice(start, before, View());
      }
      ghost var missed := View();
      if effective {
        record := None;
      }
      EvolvesApart(start, missed, record, runtime.startup);
      ok := effective && (reported || settled);
    }
  }
}
