/**
  * What one node holds for one volume, and how it may change on its own.
  *
  * The assumptions about the host, each a named predicate below:
  *   - a (pid, start time) pair never comes back to life, and a process keeps its cgroup and, once it
  *     runs Drive9, its executable and argv (IdentitiesNeverReturn);
  *   - a unit that is gone stays gone, one that stopped running stays stopped, and its attempt is
  *     fixed (UnitOnlyDecays);
  *   - a started unit spawns at most one supervisor, for the durable target (SupervisorsComeFromTheUnit);
  *   - a supervisor that outlives its unit has written its process-state file (SurvivorsAreRecorded);
  *   - mounts, process-state files and control sockets appear at a recorded target only while its unit
  *     runs or a supervisor of it lives (NeedsAnOwner);
  *   - the clock never goes back.
  *
  * Once the driver has started a service or dropped a record beside a supervisor that it had not seen, the
  * world is lost: there may be several owners, or one that nothing on record accounts for. Then nothing is
  * assumed any more about survivors and about where things appear, and the predicates about owners, and about
  * what they have left, claim nothing.
  */
module World {
  import opened Text
  import opened MountRecord

  datatype Ident = Ident(pid: nat, start: nat)

  datatype UnitState = UnitActive | UnitActivating | UnitInactive | UnitFailed

  datatype Unit =
    | NotFound
    | Loaded(state: UnitState, attempt: AttemptID, spawned: bool, mainPID: nat)

  datatype Executable = LauncherExe | Drive9Exe(binary: BinaryPath) | OtherExe

  datatype CommandLine = LauncherArgv(attempt: AttemptID) | MountArgv(target: Target) | OtherArgv

  /** Supervisors are the processes in the cgroup of the volume's unit. */
  datatype Origin = Foreign | Supervisor(attempt: AttemptID, target: Target)

  datatype Process = Process(start: nat, exe: Executable, argv: CommandLine, origin: Origin)

  /** A process-state file that names a supervisor for its own target, or anything else. */
  datatype ProcessState = Malformed | Names(ident: Ident)

  datatype StartupKind = Env | EnvTemp | Args | ArgsTemp
  datatype StartupFile = StartupFile(attempt: AttemptID, kind: StartupKind)

  datatype World = World(
    record: Option<MountState>,
    unit: Unit,
    procs: map<nat, Process>,
    born: set<Ident>,
    mounts: set<Target>,
    processStates: map<Target, ProcessState>,
    sockets: set<Target>,
    startup: set<StartupFile>,
    clock: int,
    lost: bool)

  // ---- Reading a world -----------------------------------------------------------------------

  predicate Running(unit: Unit) {
    unit.Loaded? && (unit.state.UnitActive? || unit.state.UnitActivating?)
  }

  predicate Alive(w: World, id: Ident) {
    id.pid in w.procs && w.procs[id.pid].start == id.start
  }

  predicate Supervises(w: World, pid: nat) {
    pid in w.procs && w.procs[pid].origin.Supervisor?
  }

  predicate NoSupervisor(w: World) {
    w.lost || forall pid | pid in w.procs :: !w.procs[pid].origin.Supervisor?
  }

  /** Nothing of the volume is alive, so nothing of it can appear any more. */
  predicate Quiet(w: World) {
    !Running(w.unit) && NoSupervisor(w)
  }

  /** No further supervisor can come: the unit does not run, or it has spawned the one that it may. */
  predicate Spent(w: World) {
    !Running(w.unit) || w.unit.spawned
  }

  /** If the unit runs, it has lost the one supervisor that it may spawn. */
  predicate NoneToCome(w: World) {
    !Running(w.unit) || (w.unit.spawned && NoSupervisor(w))
  }

  /** No supervisor is left, and none can come. */
  predicate NoneLeft(w: World) {
    w.lost || (Spent(w) && NoSupervisor(w))
  }

  /** This identity is the only supervisor that the volume has or will have. */
  predicate OnlyOne(w: World, id: Ident) {
    || w.lost
    || (&& Spent(w)
        && forall pid | pid in w.procs && w.procs[pid].origin.Supervisor? :: Ident(pid, w.procs[pid].start) == id)
  }

  /** The process of an identity that an ownership check accepted with this executable. */
  predicate Owned(w: World, id: Ident, exe: Executable) {
    && id.pid in w.procs && w.procs[id.pid].origin.Supervisor?
    && (w.procs[id.pid].exe == exe || exe.LauncherExe?)
  }

  predicate RecordFor(w: World, target: Target) {
    w.record.Some? && w.record.value.stagingTarget == target
  }

  /** No unit, no mount at the target, and no supervisor: what every start requires. */
  predicate Vacant(w: World, target: Target) {
    w.unit.NotFound? && (w.lost || target !in w.mounts) && NoSupervisor(w)
  }

  predicate RecordedAt(w: World, target: Target, id: Ident) {
    target in w.processStates && w.processStates[target] == Names(id)
  }

  // ---- The invariant -------------------------------------------------------------------------

  predicate IdentitiesKnown(w: World) {
    && (forall pid | pid in w.procs :: Ident(pid, w.procs[pid].start) in w.born)
    && (w.record.Some? && w.record.value.pid > 0 ==>
          Ident(w.record.value.pid, w.record.value.pidStartTime) in w.born)
  }

  /** A loaded unit carries the attempt of the durable record, and a running one always has a record. */
  predicate UnitMatchesRecord(w: World) {
    && (w.unit.Loaded? && w.record.Some? ==> w.unit.attempt == w.record.value.attemptID)
    && (Running(w.unit) ==> w.record.Some?)
    && (w.unit.Loaded? && !w.unit.spawned ==> NoSupervisor(w))
  }

  /** A record that names a process names the only supervisor that the volume has or will have. */
  predicate RecordNamesOwner(w: World) {
    w.record.Some? && w.record.value.pid > 0 ==> OnlyOne(w, Ident(w.record.value.pid, w.record.value.pidStartTime))
  }

  /** One owner: there is at most one supervisor, and it belongs to the durable record's attempt. */
  predicate OneOwner(w: World) {
    || w.lost
    || (&& (forall p, q | p in w.procs && q in w.procs ::
              w.procs[p].origin.Supervisor? && w.procs[q].origin.Supervisor? ==> p == q)
        && (forall pid | pid in w.procs && w.procs[pid].origin.Supervisor? ::
              && w.record.Some?
              && w.procs[pid].origin == Supervisor(w.record.value.attemptID, w.record.value.stagingTarget)))
  }

  predicate SurvivorsAreRecorded(w: World) {
    w.lost || forall pid | pid in w.procs && w.procs[pid].origin.Supervisor? ::
      Running(w.unit) || RecordedAt(w, w.procs[pid].origin.target, Ident(pid, w.procs[pid].start))
  }

  /** Startup files hold credentials: they exist only for the current attempt, and only until it is active. */
  predicate StartupFilesOwned(w: World) {
    forall file | file in w.startup ::
      && w.record.Some?
      && file.attempt == w.record.value.attemptID
      && !w.record.value.envPath.NoPath?
  }

  predicate Consistent(w: World) {
    && IdentitiesKnown(w)
    && UnitMatchesRecord(w)
    && RecordNamesOwner(w)
    && OneOwner(w)
    && SurvivorsAreRecorded(w)
    && StartupFilesOwned(w)
  }

  // ---- Steps of the environment ----------------------------------------------------------------

  predicate SameProcess(before: Process, after: Process) {
    || after == before
    || (before.exe.LauncherExe? && after.start == before.start && after.origin == before.origin)
  }

  predicate IdentitiesNeverReturn(a: World, b: World) {
    && a.born <= b.born
    && forall pid | pid in b.procs ::
        && Ident(pid, b.procs[pid].start) in b.born
        && (Ident(pid, b.procs[pid].start) in a.born ==>
              pid in a.procs && SameProcess(a.procs[pid], b.procs[pid]))
  }

  predicate UnitOnlyDecays(a: World, b: World) {
    || b.unit.NotFound?
    || (&& a.unit.Loaded?
        && b.unit.attempt == a.unit.attempt
        && (a.unit.spawned ==> b.unit.spawned)
        && (Running(b.unit) ==> Running(a.unit)))
  }

  predicate SupervisorsComeFromTheUnit(a: World, b: World) {
    && (forall pid | pid in b.procs && b.procs[pid].origin.Supervisor? ::
          Ident(pid, b.procs[pid].start) in a.born ||
          (&& Running(a.unit) && !a.unit.spawned && a.record.Some?
           && b.procs[pid].origin == Supervisor(a.unit.attempt, a.record.value.stagingTarget)
           && (b.unit.Loaded? ==> b.unit.spawned)))
    && (forall p, q | p in b.procs && q in b.procs && b.procs[p].origin.Supervisor? && b.procs[q].origin.Supervisor? ::
          Ident(p, b.procs[p].start) !in a.born && Ident(q, b.procs[q].start) !in a.born ==> p == q)
  }

  /** The only target at which something may appear, and only through a running unit or a live supervisor. */
  predicate Reachable(a: World, target: Target) {
    a.record.Some? && target == a.record.value.stagingTarget && !Quiet(a)
  }

  predicate NeedsAnOwner(a: World, b: World) {
    || a.lost
    || (&& (forall target | target in b.mounts :: target in a.mounts || Reachable(a, target))
        && (forall target | target in b.sockets :: target in a.sockets || Reachable(a, target))
        && (forall target | target in b.processStates ::
              || (target in a.processStates && b.processStates[target] == a.processStates[target])
              || Reachable(a, target)))
  }

  /** Everything that may happen on the host between two operations of the driver. */
  predicate EnvStep(a: World, b: World) {
    && b.record == a.record && b.lost == a.lost
    && b.startup <= a.startup
    && a.clock <= b.clock
    && IdentitiesNeverReturn(a, b)
    && UnitOnlyDecays(a, b)
    && SupervisorsComeFromTheUnit(a, b)
    && SurvivorsAreRecorded(b)
    && NeedsAnOwner(a, b)
  }

  lemma EnvStepReflexive(w: World)
    requires Consistent(w)
    ensures EnvStep(w, w)
  {
  }

  lemma EnvStepKeepsConsistent(a: World, b: World)
    requires Consistent(a) && EnvStep(a, b)
    ensures Consistent(b)
  {
    assert OneOwner(b);
    assert UnitMatchesRecord(b);
  }

  /** An identity that lives on has always been the same process. */
  predicate Persists(a: World, b: World) {
    forall id | id in a.born && Alive(b, id) :: Alive(a, id) && SameProcess(a.procs[id.pid], b.procs[id.pid])
  }

  predicate Shrinks(before: map<Target, ProcessState>, after: map<Target, ProcessState>) {
    forall target | target in after :: target in before && after[target] == before[target]
  }

  /** Every supervisor was there before. */
  predicate OnlySurvivors(a: World, b: World) {
    forall pid | pid in b.procs && b.procs[pid].origin.Supervisor? ::
      && pid in a.procs && a.procs[pid].origin == b.procs[pid].origin
      && a.procs[pid].start == b.procs[pid].start
  }

  /**
    * What the driver may rely on once it has seen it: the record is its own, no supervisor comes after
    * the last one, and absence is final as soon as nothing of the volume is alive.
    */
  predicate Evolves(a: World, b: World) {
    && b.record == a.record && (a.lost ==> b.lost)
    && b.startup <= a.startup
    && a.clock <= b.clock
    && a.born <= b.born
    && (a.unit.NotFound? ==> b.unit.NotFound?)
    && (!Running(a.unit) ==> !Running(b.unit))
    && (Spent(a) ==> Spent(b) && OnlySurvivors(a, b))
    && (Quiet(a) ==> NoSupervisor(b))
    && (Quiet(a) && !b.lost ==>
          && b.mounts <= a.mounts
          && b.sockets <= a.sockets
          && Shrinks(a.processStates, b.processStates))
    && Persists(a, b)
  }

  lemma SameEvolution(a: World, b: World)
    ensures EnvStep(a, b) ==> b.record == a.record && b.lost == a.lost
  {
  }

  lemma EnvStepEvolves(a: World, b: World)
    requires Consistent(a) && EnvStep(a, b)
    ensures Evolves(a, b)
  {
  }

  /** Evolution composes; the form with quantifiers serves methods that hide the two parts. */
  lemma EvolvesComposes()
    ensures forall a: World, b: World, c: World {:trigger Persists(a, b), Persists(b, c)} ::
      a.born <= b.born && Persists(a, b) && Persists(b, c) ==> Persists(a, c)
    ensures forall p: map<Target, ProcessState>, q: map<Target, ProcessState>, r: map<Target, ProcessState>
      {:trigger Shrinks(p, q), Shrinks(q, r)} ::
      Shrinks(p, q) && Shrinks(q, r) ==> Shrinks(p, r)
    ensures forall a: World, b: World, c: World {:trigger OnlySurvivors(a, b), OnlySurvivors(b, c)} ::
      OnlySurvivors(a, b) && OnlySurvivors(b, c) ==> OnlySurvivors(a, c)
  {
  }

  lemma EvolvesReflexive(w: World)
    ensures Evolves(w, w)
  {
  }

  lemma EvolvesTwice(a: World, b: World, c: World)
    requires Evolves(a, b) && Evolves(b, c)
    ensures Evolves(a, c)
  {
  }

  /** The same, when the record may change at the end. */
  lemma EvolvesThrough(a: World, b: World, c: World)
    requires Evolves(a, b) && Evolves(b.(record := c.record), c)
    ensures Evolves(a.(record := c.record), c)
  {
  }

  lemma LosingEvolves(w: World)
    ensures Evolves(w, w.(lost := true)) && (Consistent(w) ==> Consistent(w.(lost := true)))
  {
  }

  /** The record and the startup files have no part in what evolves. */
  lemma EvolvesApart(a: World, b: World, record: Option<MountState>, startup: set<StartupFile>)
    requires Evolves(a, b)
    ensures Evolves(a.(record := record, startup := startup), b.(record := record, startup := startup))
    ensures Evolves(a.(record := record), b.(record := record))
  {
  }

  /** The same, whatever has become of the record. */
  predicate Follows(a: World, b: World) {
    Evolves(a.(record := b.record), b)
  }

  lemma EvolvingFollows(a: World, b: World)
    requires Evolves(a, b)
    ensures Follows(a, b)
  {
    assert a.(record := b.record) == a;
  }

  lemma FollowsTwice(a: World, b: World, c: World)
    requires Follows(a, b) && Follows(b, c)
    ensures Follows(a, c)
  {
    hide Evolves;
    EvolvesThrough(a.(record := b.record), b, c);
  }

  lemma QuietFollows(a: World, b: World)
    requires Follows(a, b)
    ensures Quiet(a) ==> Quiet(b)
    ensures NoneToCome(a) ==> NoneToCome(b)
    ensures !Running(a.unit) ==> !Running(b.unit)
  {
  }

  /** Something was removed; a process-state file only if nothing is alive. */
  predicate Removes(a: World, b: World) {
    && b.record == a.record && b.lost == a.lost && b.born == a.born && b.clock == a.clock
    && (b.unit == a.unit || (b.unit.NotFound? && !Running(a.unit)))
    && (forall pid | pid in b.procs :: pid in a.procs && b.procs[pid] == a.procs[pid])
    && b.mounts <= a.mounts && b.sockets <= a.sockets && b.startup <= a.startup
    && (b.processStates == a.processStates || (Quiet(a) && Shrinks(a.processStates, b.processStates)))
  }

  lemma RemovingEvolves(a: World, b: World)
    requires Consistent(a) && Removes(a, b)
    ensures Consistent(b) && Evolves(a, b)
  {
  }

  lemma TimePasses(w: World, now: int)
    requires Consistent(w) && w.clock <= now
    ensures Consistent(w.(clock := now)) && Evolves(w, w.(clock := now))
  {
  }

  lemma IdentityPersists(a: World, b: World, id: Ident)
    requires Persists(a, b) && id in a.born && Alive(b, id)
    ensures Alive(a, id) && SameProcess(a.procs[id.pid], b.procs[id.pid])
  {
  }

  lemma OnlyOneStays(a: World, b: World, id: Ident)
    requires OnlyOne(a, id) && Evolves(a, b)
    ensures OnlyOne(b, id)
  {
  }

  lemma QuietStays(a: World, b: World)
    requires Evolves(a, b)
    ensures Quiet(a) ==> Quiet(b)
    ensures NoneToCome(a) ==> NoneToCome(b)
    ensures !Running(a.unit) ==> !Running(b.unit)
  {
  }

  /** Without a unit, no supervisor comes back. */
  lemma SupervisorsStayGone(a: World, b: World)
    requires Evolves(a, b)
    ensures NoSupervisor(a) && a.unit.NotFound? ==> NoSupervisor(b) && Quiet(b)
    ensures a.unit.NotFound? ==> b.unit.NotFound?
  {
  }

  lemma NoneLeftStays(a: World, b: World)
    requires Evolves(a, b)
    ensures NoneLeft(a) ==> NoneLeft(b)
    ensures NoneLeft(b) && !Running(b.unit) ==> Quiet(b)
  {
  }

  /** Once the only supervisor is dead there is none. */
  lemma OnlyOneDies(w: World, id: Ident)
    requires OnlyOne(w, id) && !Alive(w, id)
    ensures NoneLeft(w)
  {
  }

  // ---- What a look at the mount is worth -----------------------------------------------------------

  /** The target was read as unmounted in a; is it so once nothing of the volume is alive any more? */
  ghost predicate MountReadHolds(a: World, target: Target) {
    forall b: World | EnvStep(a, b) && Quiet(b) :: target !in b.mounts
  }

  /** What is alive mounts its target and dies, after the mount has been read. */
  function MountedAndGone(a: World, target: Target): World {
    WithoutSupervisors(a).(mounts := a.mounts + {target}, unit := NotFound)
  }

  lemma MountedAndGoneIsAStep(a: World, target: Target)
    requires Consistent(a) && RecordFor(a, target) && !Quiet(a)
    ensures EnvStep(a, MountedAndGone(a, target)) && Quiet(MountedAndGone(a, target))
  {
  }

  /** Exactly if nothing is alive when the mount is read. */
  lemma MountReadHoldsIff(a: World, target: Target)
    requires Consistent(a) && !a.lost && RecordFor(a, target) && target !in a.mounts
    ensures MountReadHolds(a, target) <==> Quiet(a)
  {
    if !Quiet(a) {
      MountedAndGoneIsAStep(a, target);
      assert target in MountedAndGone(a, target).mounts;
    }
  }

  /**
    * The unit and every supervisor are gone, as far as a pass can tell that read the target as unmounted
    * in `seen`: supervisors if the unit did not run then or could spawn none any more, and the mount if
    * nothing was alive then.
    */
  predicate ClearSince(seen: World, w: World, target: Target) {
    && w.unit.NotFound?
    && (NoneToCome(seen) ==> NoSupervisor(w))
    && (w.lost || (target !in seen.mounts && (Quiet(seen) ==> target !in w.mounts)))
  }

  lemma ClearSinceEvolves(seen: World, a: World, b: World, target: Target)
    requires ClearSince(seen, a, target) && Evolves(a.(record := b.record), b)
    ensures ClearSince(seen, b, target)
  {
  }

  /** The same with the files of the attempt gone: what every deletion and replacement of a record requires. */
  predicate ClearedSince(seen: World, w: World, target: Target) {
    && ClearSince(seen, w, target) && w.startup == {}
    && (!Running(seen.unit) ==> w.lost || target !in w.processStates)
  }

  lemma ClearedSinceEvolves(seen: World, a: World, b: World, target: Target)
    requires ClearedSince(seen, a, target) && Evolves(a.(record := b.record), b)
    ensures ClearedSince(seen, b, target)
  {
  }

  // ---- Effects of commands ---------------------------------------------------------------------

  /** systemctl stop: the unit no longer runs; what it started may be gone, and nothing new appears. */
  predicate StopEffect(a: World, b: World) {
    && b.record == a.record && b.born == a.born && b.startup == a.startup && b.clock == a.clock && b.lost == a.lost
    && !Running(b.unit) && (b.unit.Loaded? ==> a.unit.Loaded? && b.unit.attempt == a.unit.attempt && b.unit.spawned)
    && (forall pid | pid in b.procs :: pid in a.procs && b.procs[pid] == a.procs[pid])
    && (forall pid | pid in a.procs && a.procs[pid].origin.Foreign? :: pid in b.procs)
    && (forall target | target in b.processStates ::
          target in a.processStates && b.processStates[target] == a.processStates[target])
    && b.mounts <= a.mounts && b.sockets <= a.sockets
    && SurvivorsAreRecorded(b)
  }

  function WithoutSupervisors(w: World): World {
    w.(procs := map pid | pid in w.procs && w.procs[pid].origin.Foreign? :: w.procs[pid])
  }

  lemma StopEffectIsPossible(a: World)
    requires Consistent(a)
    ensures StopEffect(a, WithoutSupervisors(a).(unit := NotFound))
  {
  }

  lemma StopEffectIsAStep(a: World, b: World)
    requires Consistent(a) && StopEffect(a, b)
    ensures EnvStep(a, b)
  {
  }

  lemma StopEffectEvolves(a: World, b: World)
    requires Consistent(a) && StopEffect(a, b)
    ensures Consistent(b) && Evolves(a, b)
  {
    StopEffectIsAStep(a, b);
    EnvStepKeepsConsistent(a, b);
    EnvStepEvolves(a, b);
  }

  /** Nothing on the host depends on the attempt on record. */
  predicate Replaceable(w: World) {
    w.unit.NotFound? && NoSupervisor(w) && w.startup == {}
  }

  lemma ReplaceableStays(a: World, b: World)
    requires Evolves(a, b)
    ensures Replaceable(a) ==> Replaceable(b)
    ensures a.startup == {} ==> b.startup == {}
    ensures a.born <= b.born
  {
  }

  lemma DeletionKeepsConsistent(w: World)
    requires Consistent(w) && Replaceable(w)
    ensures Consistent(w.(record := None))
  {
  }

  lemma NoRecordIsReplaceable(w: World)
    requires Consistent(w) && w.record.None? && w.unit.NotFound?
    ensures Replaceable(w)
  {
  }

  /** The service of the record on file, up at once: its supervisor has mounted the target. */
  function BroughtUp(w: World, id: Ident): World
    requires w.record.Some?
  {
    var state := w.record.value;
    w.(unit := Loaded(UnitActive, state.attemptID, true, id.pid),
       procs := w.procs[id.pid := Process(id.start, Drive9Exe(state.binaryPath), MountArgv(state.stagingTarget),
                        Supervisor(state.attemptID, state.stagingTarget))],
       born := w.born + {id},
       mounts := w.mounts + {state.stagingTarget},
       processStates := w.processStates[state.stagingTarget := Names(id)],
       sockets := w.sockets + {state.stagingTarget})
  }

  predicate Fresh(w: World, id: Ident) {
    id.pid > 0 && id.start > 0 && id.pid !in w.procs && id !in w.born
  }

  ghost predicate CameUp(before: World, after: World) {
    before.record.Some? && exists id :: Fresh(before, id) && after == BroughtUp(before, id)
  }

  /** Its unit has been loaded and has not spawned anything yet. */
  predicate Activated(before: World, after: World) {
    before.record.Some? && after == before.(unit := Loaded(UnitActivating, before.record.value.attemptID, false, 0))
  }

  /** No pid of the set exceeds the bound. */
  lemma {:induction false} PidBound(pids: set<nat>) returns (bound: nat)
    ensures forall pid | pid in pids :: pid <= bound
  {
    if pids == {} {
      bound := 0;
    } else {
      var pid :| pid in pids;
      var rest := PidBound(pids - {pid});
      bound := if pid > rest then pid else rest;
      assert forall p | p in pids :: p == pid || p in pids - {pid};
    }
  }

  /** There is always an identity that no process has had. */
  lemma FreshIdent(w: World) returns (id: Ident)
    ensures Fresh(w, id)
  {
    var pids := w.procs.Keys + set known | known in w.born :: known.pid;
    var bound := PidBound(pids);
    assert bound + 1 !in pids && forall known | known in w.born :: known.pid in pids;
    id := Ident(bound + 1, 1);
  }

  /** The host just after a service was started. */
  function JustStarted(state: MountState): World {
    World(Some(state), Loaded(UnitActivating, state.attemptID, false, 0), map[], {}, {}, map[], {}, {}, 0,
      false)
  }

  // ---- What outlives its unit ------------------------------------------------------------------------

  /** The supervisor of a running unit, alive or yet to be spawned, that writes its file and outlives the unit. */
  function Survivor(a: World, id: Ident): World
    requires a.record.Some?
  {
    var target := a.record.value.stagingTarget;
    a.(unit := NotFound, born := a.born + {id},
       procs := if id.pid in a.procs then a.procs else a.procs[id.pid :=
         Process(id.start, LauncherExe, OtherArgv, Supervisor(a.record.value.attemptID, target))],
       processStates := a.processStates[target := Names(id)])
  }

  /** The one that is alive, or a fresh one. */
  lemma SurvivorOf(b: World) returns (id: Ident)
    requires Consistent(b) && !NoneToCome(b)
    ensures EnvStep(b, Survivor(b, id)) && Supervises(Survivor(b, id), id.pid)
  {
    if NoSupervisor(b) {
      id := FreshIdent(b);
    } else {
      var pid :| pid in b.procs && b.procs[pid].origin.Supervisor?;
      id := Ident(pid, b.procs[pid].start);
    }
  }

  lemma BroughtUpIsConsistent(w: World, id: Ident)
    requires Consistent(w) && w.record.Some? && w.record.value.pid == 0 && Quiet(w) && Fresh(w, id)
    ensures Consistent(BroughtUp(w, id))
  {
  }

  /** The attempt on record may publish startup files until it is active. */
  lemma PublishKeepsConsistent(w: World, files: set<StartupFile>)
    requires Consistent(w) && w.record.Some? && !w.record.value.envPath.NoPath?
    requires forall file | file in files :: file.attempt == w.record.value.attemptID
    ensures Consistent(w.(startup := w.startup + files))
  {
  }

  /** A record of another attempt may be written only when nothing belongs to the current one. */
  lemma WriteKeepsConsistent(w: World, next: MountState)
    requires Consistent(w) && ValidTransition(w.record, next)
    requires (w.record.Some? && w.record.value.attemptID == next.attemptID) || Replaceable(w)
    requires next.pid > 0 ==>
      Ident(next.pid, next.pidStartTime) in w.born && OnlyOne(w, Ident(next.pid, next.pidStartTime))
    requires next.envPath.NoPath? ==> w.startup == {}
    ensures Consistent(w.(record := Some(next)))
  {
    hide ValidMountState, PhaseTransition;
  }
}
