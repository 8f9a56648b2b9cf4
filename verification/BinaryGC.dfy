/** The garbage collector of host binaries (internal/driver/binary_gc.go). */
module BinaryGC {
  import opened Text
  import opened MountRecord

  /** A name in the binary directory; the versioned ones match binaryNamePattern. */
  datatype BinaryName = VersionName(digest: nat) | UnversionedName(text: string)

  datatype BinaryKind = RegularBinary | OtherKind

  /** A name in the state directory: listed ones end in .json and do not begin with published-. */
  datatype StateName = RecordName(volume: VolumeID) | StrangeJSON(text: string) | Unlisted(text: string)

  /** A file there: what it decodes to, if it is a regular file of mode 0600 that does. */
  datatype StateEntry = StateEntry(decoded: Option<MountState>)

  /** A file in the runtime directory that names an attempt or a target, and a systemd unit. */
  datatype Artifact = ProcessArtifact(target: Target) | SocketArtifact(target: Target) |
    StartupArtifact(path: RuntimePath) | MalformedArtifact

  datatype GCResult = Collected(removed: set<BinaryName>) | Skipped | RemovalFailed(removed: set<BinaryName>)

  function DigestOf(path: BinaryPath): set<nat> {
    if path.ContentAddressed? then {path.digest} else {}
  }

  /** The binaries that one record refers to. */
  function RecordDigests(s: MountState): set<nat> {
    DigestOf(s.binaryPath) + DigestOf(s.fallbackBinaryPath)
  }

  predicate Listed(name: StateName) {
    !name.Unlisted?
  }

  /** Every record on disk is readable and lies under its own name. */
  predicate Readable(stateFiles: map<StateName, StateEntry>) {
    forall name | name in stateFiles && Listed(name) ::
      stateFiles[name].decoded.Some? && name == RecordName(stateFiles[name].decoded.value.volumeID)
  }

  /** The binaries that some record on disk refers to. */
  predicate OnRecord(stateFiles: map<StateName, StateEntry>, digest: nat) {
    exists name | name in stateFiles ::
      Listed(name) && stateFiles[name].decoded.Some? && digest in RecordDigests(stateFiles[name].decoded.value)
  }

  function ListedFiles(stateFiles: map<StateName, StateEntry>): map<StateName, StateEntry> {
    map name | name in stateFiles && Listed(name) :: stateFiles[name]
  }

  /** readStateSnapshot's result: the records, and the listed files for the comparison later on. */
  datatype Snapshot = Snapshot(states: seq<MountState>, files: map<StateName, StateEntry>)

  /** A snapshot holds the records on disk and nothing else. */
  predicate Snapshots(states: seq<MountState>, stateFiles: map<StateName, StateEntry>) {
    && (forall s | s in states ::
          RecordName(s.volumeID) in stateFiles && stateFiles[RecordName(s.volumeID)] == StateEntry(Some(s)))
    && (forall name | name in stateFiles && Listed(name) ::
          stateFiles[name].decoded.Some? && stateFiles[name].decoded.value in states)
  }

  /** The artifacts that a record accounts for. */
  predicate Accounts(s: MountState, artifact: Artifact) {
    match artifact
    case ProcessArtifact(target) => target == s.stagingTarget
    case SocketArtifact(target) => target == s.stagingTarget
    case StartupArtifact(path) => path != NoPath && (path == s.envPath || path == s.argsPath)
    case MalformedArtifact => false
  }

  /** A version that is not a regular file. */
  predicate Irregular(name: BinaryName, binaries: map<BinaryName, BinaryKind>) {
    name.VersionName? && name in binaries && !binaries[name].RegularBinary?
  }

  /** An installation adds a version, and may take it back; it never touches anything else at such a name. */
  predicate Drifts(before: map<BinaryName, BinaryKind>, after: map<BinaryName, BinaryKind>) {
    forall name | name in before.Keys + after.Keys :: Irregular(name, before) <==> Irregular(name, after)
  }

  /**
    * What the collector looks at. The inventory lock keeps the records as they are; the installer does not take
    * it, so that versions may come and go and the desired link may be moved at any time, as the runtime artifacts
    * and the units may change. On a reliable inventory nothing changes, every read succeeds, and every recorded
    * process can be verified.
    */
  class Inventory {
    const reliable: bool
    var binaries: map<BinaryName, BinaryKind>
    var desired: Option<nat>
    var stateFiles: map<StateName, StateEntry>
    var artifacts: set<Artifact>
    var units: set<UnitName>
    ghost var lastRead: Option<nat>                   // the version that the link named when it was last read
    ghost var listed: map<BinaryName, BinaryKind>     // the binary directory when it was listed
    ghost var removed: set<BinaryName>                // what this collection has removed from it

    constructor (
      binaries: map<BinaryName, BinaryKind>, desired: Option<nat>, stateFiles: map<StateName, StateEntry>,
      artifacts: set<Artifact>, units: set<UnitName>, reliable: bool
    )
      ensures this.reliable == reliable
      ensures this.binaries == binaries && this.desired == desired && this.stateFiles == stateFiles
      ensures this.artifacts == artifacts && this.units == units
    {
      lastRead, listed, removed := None, map[], {};
      this.binaries, this.desired, this.stateFiles := binaries, desired, stateFiles;
      this.artifacts, this.units, this.reliable := artifacts, units, reliable;
    }

    /** The desired link names a regular version that is there. */
    predicate DesiredIsThere()
      reads `binaries, `desired
    {
      && desired.Some? && VersionName(desired.value) in binaries && binaries[VersionName(desired.value)].RegularBinary?
    }

    /** An inventory in which the collector finds nothing that it cannot account for. */
    ghost predicate Collectable()
      reads `binaries, `desired, `stateFiles, `artifacts, `units
    {
      && DesiredIsThere() && Readable(stateFiles) && MalformedArtifact !in artifacts
      && (forall n, m | n in stateFiles && m in stateFiles && Listed(n) && Listed(m) ::
            stateFiles[n].decoded.value.systemdUnit == stateFiles[m].decoded.value.systemdUnit ==>
              stateFiles[n].decoded.value.volumeID == stateFiles[m].decoded.value.volumeID)
      && (forall artifact | artifact in artifacts ::
            exists n | n in stateFiles :: Listed(n) && Accounts(stateFiles[n].decoded.value, artifact))
      && (forall unit | unit in units ::
            exists n | n in stateFiles :: Listed(n) && stateFiles[n].decoded.value.systemdUnit == unit)
    }

    /** The link may be moved, and regular versions may come and go, as other names may. */
    method Drift()
      modifies this`desired, this`binaries
      ensures Drifts(old(binaries), binaries)
      ensures reliable ==> desired == old(desired) && binaries == old(binaries)
    {
      var moved: Option<nat> := *;
      var others: map<BinaryName, BinaryKind> := *;
      var moves: bool := *;
      if moves && !reliable {
        desired := moved;
        binaries := (map name | name in others && !Irregular(name, others) :: others[name])
          + map name | name in binaries && Irregular(name, binaries) :: binaries[name];
      }
    }

    /** readDesiredBinaryName: a link to a regular version that is there. */
    method ReadDesired() returns (digest: Option<nat>)
      modifies this`desired, this`binaries, this`lastRead
      ensures Drifts(old(binaries), binaries)
      ensures digest.Some? ==> desired == digest && lastRead == digest && DesiredIsThere()
      ensures reliable ==> desired == old(desired) && binaries == old(binaries) && (DesiredIsThere() ==> digest.Some?)
    {
      Drift();
      var fails: bool := *;
      digest := if (!fails || reliable) && DesiredIsThere() then desired else None;
      lastRead := desired;
    }

    /** readStateSnapshot: one unsafe, unreadable or misplaced record makes it fail. */
    method ReadSnapshot() returns (snapshot: Option<Snapshot>)
      modifies this`desired, this`binaries
      ensures Drifts(old(binaries), binaries)
      ensures reliable ==> desired == old(desired) && binaries == old(binaries)
      ensures snapshot.Some? ==>
        Snapshots(snapshot.value.states, stateFiles) && snapshot.value.files == ListedFiles(stateFiles)
      ensures reliable && Readable(stateFiles) ==> snapshot.Some?
    {
      Drift();
      var entries := stateFiles.Keys;
      var states: seq<MountState> := [];
      var files: map<StateName, StateEntry> := map[];
      while entries != {}
        invariant entries <= stateFiles.Keys
        invariant forall s | s in states ::
          RecordName(s.volumeID) in stateFiles && stateFiles[RecordName(s.volumeID)] == StateEntry(Some(s))
        invariant forall name | name in stateFiles && Listed(name) ::
          name in entries || (stateFiles[name].decoded.Some? && stateFiles[name].decoded.value in states)
        invariant files == map name | name in stateFiles && Listed(name) && name !in entries :: stateFiles[name]
        decreases |entries|
      {
        var name :| name in entries;
        if Listed(name) {
          var fails: bool := *;
          var decoded := stateFiles[name].decoded;
          if (fails && !reliable) || decoded.None? || name != RecordName(decoded.value.volumeID) {
            return None;
          }
          states := states + [decoded.value];
          files := files[name := stateFiles[name]];
        }
        entries := entries - {name};
      }
      snapshot := Some(Snapshot(states, files));
    }

    /** listRuntimeArtifacts and listDrive9SystemdUnits. */
    method ListRuntime() returns (listing: Option<(set<Artifact>, set<UnitName>)>)
      modifies this`artifacts, this`units, this`desired, this`binaries
      ensures Drifts(old(binaries), binaries)
      ensures listing.Some? ==> listing == Some((artifacts, units)) && MalformedArtifact !in artifacts
      ensures reliable ==> artifacts == old(artifacts) && units == old(units)
      ensures reliable ==> desired == old(desired) && binaries == old(binaries)
      ensures reliable && MalformedArtifact !in artifacts ==> listing.Some?
    {
      Drift();
      var changedArtifacts: set<Artifact> := *;
      var changedUnits: set<UnitName> := *;
      var changes, fails: bool := *, *;
      if changes && !reliable {
        artifacts, units := changedArtifacts, changedUnits;
      }
      listing := if (fails && !reliable) || MalformedArtifact in artifacts then None else Some((artifacts, units));
    }

    /** ReadDir of the binary directory. */
    method ReadDir() returns (entries: Option<seq<BinaryName>>)
      modifies this`desired, this`binaries, this`listed
      ensures Drifts(old(binaries), binaries) && listed == binaries
      ensures entries.Some? ==> Lists(entries.value, listed)
      ensures reliable ==> entries.Some? && desired == old(desired) && binaries == old(binaries)
    {
      Drift();
      listed := binaries;
      var fails: bool := *;
      if fails && !reliable {
        return None;
      }
      var names: seq<BinaryName> := [];
      var left := binaries.Keys;
      while left != {}
        invariant left <= binaries.Keys && Distinct(names)
        invariant forall name | name in names :: name in binaries && name !in left
        invariant forall name | name in binaries :: name in left || name in names
        decreases |left|
      {
        var name :| name in left;
        names := names + [name];
        left := left - {name};
      }
      entries := Some(names);
    }

    /** Remove of one binary: a failure may be reported after it took effect. */
    method RemoveBinary(name: BinaryName) returns (ok: bool)
      requires RegularVersion(name, binaries)
      modifies this`binaries, this`desired, this`removed
      ensures Drifts(old(binaries), binaries)
      ensures removed == old(removed) || removed == old(removed) + {name}
      ensures ok ==> removed == old(removed) + {name}
      ensures reliable ==> ok && desired == old(desired) && binaries == old(binaries) - {name}
    {
      Drift();
      var effective, reported: bool := *, *;
      effective := name in binaries && (effective || reliable);
      if effective {
        binaries := binaries - {name};
        removed := removed + {name};
      }
      ok := effective && (reported || reliable);
    }
  }

  predicate Distinct(names: seq<BinaryName>) {
    forall i, j | 0 <= i < j < |names| :: names[i] != names[j]
  }

  predicate Lists(entries: seq<BinaryName>, binaries: map<BinaryName, BinaryKind>) {
    && Distinct(entries)
    && (forall name | name in entries :: name in binaries) && (forall name | name in binaries :: name in entries)
  }

  /** The loop that fills keep and stateByUnit (binary_gc.go:56-80): None for two volumes with one unit. */
  method Correlate(desired: nat, states: seq<MountState>)
    returns (correlated: Option<(set<nat>, map<UnitName, MountState>)>)
    ensures correlated.Some? ==>
      && desired in correlated.value.0
      && (forall s | s in states :: RecordDigests(s) <= correlated.value.0)
      && (forall d | d in correlated.value.0 :: d == desired || exists s | s in states :: d in RecordDigests(s))
      && (forall unit | unit in correlated.value.1 ::
            correlated.value.1[unit] in states && correlated.value.1[unit].systemdUnit == unit)
      && (forall s | s in states :: s.systemdUnit in correlated.value.1)
    ensures correlated.None? ==> exists s, t | s in states && t in states ::
      s.systemdUnit == t.systemdUnit && s.volumeID != t.volumeID
  {
    var keep := {desired};
    var byUnit: map<UnitName, MountState> := map[];
    for i := 0 to |states|
      invariant desired in keep
      invariant forall k | 0 <= k < i :: RecordDigests(states[k]) <= keep
      invariant forall d | d in keep :: d == desired || exists s | s in states :: d in RecordDigests(s)
      invariant forall unit | unit in byUnit :: byUnit[unit] in states && byUnit[unit].systemdUnit == unit
      invariant forall k | 0 <= k < i :: states[k].systemdUnit in byUnit
    {
      var state := states[i];
      keep := keep + RecordDigests(state);
      if state.systemdUnit in byUnit && byUnit[state.systemdUnit].volumeID != state.volumeID {
        return None;
      }
      byUnit := byUnit[state.systemdUnit := state];
    }
    correlated := Some((keep, byUnit));
  }

  predicate AllAccounted(artifacts: set<Artifact>, states: seq<MountState>) {
    forall artifact | artifact in artifacts :: exists s | s in states :: Accounts(s, artifact)
  }

  /** What a version is kept for, if the link was read as naming `read`. */
  predicate Referenced(stateFiles: map<StateName, StateEntry>, read: nat, digest: nat) {
    digest == read || OnRecord(stateFiles, digest)
  }

  /** What holds once every check has passed: the collector may remove what is not kept. */
  ghost predicate Cleared(stateFiles: map<StateName, StateEntry>, read: nat, keep: set<nat>) {
    && (forall d | d in keep :: Referenced(stateFiles, read, d))
    && (forall d: nat | Referenced(stateFiles, read, d) :: d in keep)
  }

  predicate AccountedFor(inventory: Inventory, states: seq<MountState>, byUnit: map<UnitName, MountState>)
    reads inventory
  {
    && MalformedArtifact !in inventory.artifacts && AllAccounted(inventory.artifacts, states)
    && inventory.units <= byUnit.Keys
  }

  /** The inventory is still what was seen of it. */
  predicate Matches(
    inventory: Inventory, desired: nat, files: map<StateName, StateEntry>, listing: (set<Artifact>, set<UnitName>)
  )
    reads inventory
  {
    && inventory.DesiredIsThere() && inventory.desired == Some(desired) && Readable(inventory.stateFiles)
    && files == ListedFiles(inventory.stateFiles)
    && MalformedArtifact !in inventory.artifacts && listing == (inventory.artifacts, inventory.units)
  }

  /** Everything on the host is accounted for by a record, as far as it can be told (binary_gc.go:82-153). */
  method AccountForRuntime(inventory: Inventory, states: seq<MountState>, byUnit: map<UnitName, MountState>)
    returns (listing: Option<(set<Artifact>, set<UnitName>)>)
    modifies inventory`artifacts, inventory`units, inventory`desired, inventory`binaries
    ensures Drifts(old(inventory.binaries), inventory.binaries)
    ensures listing.Some? ==> AllAccounted(listing.value.0, states) && listing.value.1 <= byUnit.Keys
    ensures listing.Some? && inventory.reliable ==> listing == Some((inventory.artifacts, inventory.units))
    ensures inventory.reliable ==>
      && inventory.artifacts == old(inventory.artifacts) && inventory.units == old(inventory.units)
      && inventory.desired == old(inventory.desired) && inventory.binaries == old(inventory.binaries)
    ensures inventory.reliable && old(AccountedFor(inventory, states, byUnit)) ==> listing.Some?
  {
    listing := inventory.ListRuntime();
    var attributable: bool := *;
    attributable := attributable || inventory.reliable;
    if listing.Some? && !(attributable && listing.value.1 <= byUnit.Keys && AllAccounted(listing.value.0, states)) {
      listing := None;
    }
  }

  /** verifyInventoryUnchanged: the link is read first, and may be moved while the rest is. */
  method VerifyUnchanged(
    inventory: Inventory, desired: nat, files: map<StateName, StateEntry>, listing: (set<Artifact>, set<UnitName>)
  ) returns (same: bool)
    modifies inventory`desired, inventory`binaries, inventory`lastRead, inventory`artifacts, inventory`units
    ensures Drifts(old(inventory.binaries), inventory.binaries)
    ensures same ==> inventory.lastRead == Some(desired)
    ensures inventory.reliable ==>
      inventory.desired == old(inventory.desired) && inventory.binaries == old(inventory.binaries)
    ensures inventory.reliable && old(Matches(inventory, desired, files, listing)) ==> same
  {
    same := false;
    var current := inventory.ReadDesired();
    if current == Some(desired) {
      var again := inventory.ReadSnapshot();
      if again.Some? && again.value.files == files {
        var runtime := inventory.ListRuntime();
        same := runtime == Some(listing);
      }
    }
  }

  /** Everything before the removal loop (binary_gc.go:46-157): the digests to keep, or a reason to skip. */
  method TakeInventory(inventory: Inventory) returns (keep: Option<set<nat>>)
    modifies inventory`desired, inventory`binaries, inventory`lastRead, inventory`artifacts, inventory`units
    ensures Drifts(old(inventory.binaries), inventory.binaries)
    ensures keep.Some? ==>
      inventory.lastRead.Some? && Cleared(inventory.stateFiles, inventory.lastRead.value, keep.value)
    ensures inventory.reliable ==>
      inventory.desired == old(inventory.desired) && inventory.binaries == old(inventory.binaries)
    ensures inventory.reliable && old(inventory.Collectable()) ==> keep.Some?
  {
    hide Cleared, OnRecord, Snapshots;
    keep := None;
    var desired := inventory.ReadDesired();
    if desired.Some? {
      var snapshot := inventory.ReadSnapshot();
      if snapshot.Some? {
        keep := ConfirmSnapshot(inventory, desired.value, snapshot.value);
      }
    }
  }

  /** What the records refer to, if the host agrees with them and nothing has changed (binary_gc.go:55-157). */
  method ConfirmSnapshot(inventory: Inventory, desired: nat, snapshot: Snapshot) returns (keep: Option<set<nat>>)
    requires Snapshots(snapshot.states, inventory.stateFiles) && snapshot.files == ListedFiles(inventory.stateFiles)
    modifies inventory`desired, inventory`binaries, inventory`lastRead, inventory`artifacts, inventory`units
    ensures Drifts(old(inventory.binaries), inventory.binaries)
    ensures keep.Some? ==>
      inventory.lastRead.Some? && Cleared(inventory.stateFiles, inventory.lastRead.value, keep.value)
    ensures inventory.reliable ==>
      inventory.desired == old(inventory.desired) && inventory.binaries == old(inventory.binaries)
    ensures inventory.reliable && old(inventory.Collectable()) && old(inventory.desired) == Some(desired) ==> keep.Some?
  {
    hide Cleared, OnRecord, Snapshots;
    keep := None;
    if inventory.Collectable() {
      UnitsAreDistinct(inventory, snapshot.states);
    }
    var correlated := Correlate(desired, snapshot.states);
    if correlated.Some? {
      CollectableIsAccounted(inventory, snapshot.states, correlated.value.1);
      var listing := AccountForRuntime(inventory, snapshot.states, correlated.value.1);
      if listing.Some? {
        var same := VerifyUnchanged(inventory, desired, snapshot.files, listing.value);
        if same {
          keep := Some(correlated.value.0);
          KeepIsReferenced(inventory.stateFiles, desired, snapshot.states, correlated.value.0);
        }
      }
    }
  }

  lemma UnitsAreDistinct(inventory: Inventory, states: seq<MountState>)
    requires inventory.Collectable() && Snapshots(states, inventory.stateFiles)
    ensures forall s, t | s in states && t in states && s.systemdUnit == t.systemdUnit :: s.volumeID == t.volumeID
  {
    forall s, t | s in states && t in states && s.systemdUnit == t.systemdUnit ensures s.volumeID == t.volumeID {
      assert inventory.stateFiles[RecordName(s.volumeID)].decoded.value == s;
      assert inventory.stateFiles[RecordName(t.volumeID)].decoded.value == t;
    }
  }

  lemma CollectableIsAccounted(inventory: Inventory, states: seq<MountState>, byUnit: map<UnitName, MountState>)
    requires Snapshots(states, inventory.stateFiles)
    requires forall s | s in states :: s.systemdUnit in byUnit
    ensures inventory.Collectable() ==> AccountedFor(inventory, states, byUnit)
  {
    if inventory.Collectable() {
      forall artifact | artifact in inventory.artifacts ensures exists s | s in states :: Accounts(s, artifact) {
        var n :| n in inventory.stateFiles && Listed(n) && Accounts(inventory.stateFiles[n].decoded.value, artifact);
        assert inventory.stateFiles[n].decoded.value in states;
      }
      forall unit | unit in inventory.units ensures unit in byUnit {
        var n :| n in inventory.stateFiles && Listed(n) && inventory.stateFiles[n].decoded.value.systemdUnit == unit;
        assert inventory.stateFiles[n].decoded.value in states;
      }
    }
  }

  lemma KeepIsReferenced(stateFiles: map<StateName, StateEntry>, read: nat, states: seq<MountState>, keep: set<nat>)
    requires Snapshots(states, stateFiles) && read in keep
    requires forall s | s in states :: RecordDigests(s) <= keep
    requires forall d | d in keep :: d == read || exists s | s in states :: d in RecordDigests(s)
    ensures Cleared(stateFiles, read, keep)
  {
    forall d: nat | Referenced(stateFiles, read, d) ensures d in keep {
      if d != read {
        var name :| name in stateFiles && Listed(name) && stateFiles[name].decoded.Some?
          && d in RecordDigests(stateFiles[name].decoded.value);
        assert stateFiles[name].decoded.value in states;
      }
    }
    forall d | d in keep ensures Referenced(stateFiles, read, d) {
      if d != read {
        var s :| s in states && d in RecordDigests(s);
        assert stateFiles[RecordName(s.volumeID)].decoded == Some(s);
      }
    }
  }

  // ---- The removal loop ---------------------------------------------------------------------------

  predicate RegularVersion(name: BinaryName, binaries: map<BinaryName, BinaryKind>) {
    name.VersionName? && name in binaries && binaries[name].RegularBinary?
  }

  predicate Unkept(name: BinaryName, binaries: map<BinaryName, BinaryKind>, keep: set<nat>) {
    RegularVersion(name, binaries) && name.digest !in keep
  }

  /** How the loop meets its entries: in which order, which cannot be inspected, and which cannot be removed. */
  datatype Sweep = Sweep(entries: seq<BinaryName>, unreadable: set<BinaryName>, stuck: set<BinaryName>)

  predicate Skips(sweep: Sweep, name: BinaryName) {
    name.VersionName? && name in sweep.unreadable
  }

  predicate Sticks(sweep: Sweep, binaries: map<BinaryName, BinaryKind>, keep: set<nat>, i: nat)
    requires i < |sweep.entries|
  {
    Unkept(sweep.entries[i], binaries, keep) && sweep.entries[i] in sweep.stuck
  }

  /** The number of entries that the loop gets past (binary_gc.go:167-187). */
  function Passed(sweep: Sweep, binaries: map<BinaryName, BinaryKind>, keep: set<nat>, i: nat): (end: nat)
    requires i <= |sweep.entries|
    ensures i <= end <= |sweep.entries|
    decreases |sweep.entries| - i
  {
    if i == |sweep.entries| || Skips(sweep, sweep.entries[i]) then i
    else if Sticks(sweep, binaries, keep, i) then i
    else Passed(sweep, binaries, keep, i + 1)
  }

  /** The entries among the first n that the loop removes. */
  function Removed(sweep: Sweep, binaries: map<BinaryName, BinaryKind>, keep: set<nat>, n: nat): set<BinaryName>
    requires n <= |sweep.entries|
  {
    set i | 0 <= i < n && Unkept(sweep.entries[i], binaries, keep) :: sweep.entries[i]
  }

  /** How the loop ends. */
  function SweepResult(sweep: Sweep, binaries: map<BinaryName, BinaryKind>, keep: set<nat>): GCResult {
    var n := Passed(sweep, binaries, keep, 0);
    if n == |sweep.entries| then Collected(Removed(sweep, binaries, keep, n))
    else if Skips(sweep, sweep.entries[n]) then Skipped
    else RemovalFailed(Removed(sweep, binaries, keep, n))
  }

  /** What it has removed; a removal that is reported as failed may have taken effect. */
  predicate SweptTo(
    sweep: Sweep, listed: map<BinaryName, BinaryKind>, keep: set<nat>, result: GCResult, removed: set<BinaryName>
  ) {
    var n := Passed(sweep, listed, keep, 0);
    && result == SweepResult(sweep, listed, keep)
    && (|| removed == Removed(sweep, listed, keep, n)
        || (result.RemovalFailed? && removed == Removed(sweep, listed, keep, n) + {sweep.entries[n]}))
  }

  lemma {:induction false} StopsAt(sweep: Sweep, binaries: map<BinaryName, BinaryKind>, keep: set<nat>, i: nat)
    requires i <= |sweep.entries|
    ensures var n := Passed(sweep, binaries, keep, i);
      && (forall k | i <= k < n ::
            !Skips(sweep, sweep.entries[k]) && !Sticks(sweep, binaries, keep, k))
      && (n < |sweep.entries| ==>
            Skips(sweep, sweep.entries[n]) || Sticks(sweep, binaries, keep, n))
    decreases |sweep.entries| - i
  {
    if i < |sweep.entries| && Passed(sweep, binaries, keep, i) != i {
      StopsAt(sweep, binaries, keep, i + 1);
    }
  }

  /** The first entry that cannot be inspected. */
  predicate FirstUnreadable(sweep: Sweep, u: nat) {
    u < |sweep.entries| && Skips(sweep, sweep.entries[u]) && forall k | 0 <= k < u :: !Skips(sweep, sweep.entries[k])
  }

  /** An unkept regular version precedes this entry, and each of them can be removed. */
  predicate RemovableBefore(sweep: Sweep, binaries: map<BinaryName, BinaryKind>, keep: set<nat>, u: nat)
    requires u <= |sweep.entries|
  {
    && (exists k | 0 <= k < u :: Unkept(sweep.entries[k], binaries, keep))
    && (forall k | 0 <= k < u :: Unkept(sweep.entries[k], binaries, keep) ==> sweep.entries[k] !in sweep.stuck)
  }

  /** The collector reports that it skipped, although the loop has removed files. */
  predicate SkipsAfterRemovals(sweep: Sweep, binaries: map<BinaryName, BinaryKind>, keep: set<nat>) {
    var n := Passed(sweep, binaries, keep, 0);
    SweepResult(sweep, binaries, keep).Skipped? && Removed(sweep, binaries, keep, n) != {}
  }

  /**
    * That happens exactly if an unkept regular version precedes the first entry that cannot be inspected, and
    * every such version before it can be removed.
    */
  lemma SkipsAfterRemovalsIff(sweep: Sweep, binaries: map<BinaryName, BinaryKind>, keep: set<nat>)
    ensures SkipsAfterRemovals(sweep, binaries, keep) <==>
      exists u: nat :: FirstUnreadable(sweep, u) && RemovableBefore(sweep, binaries, keep, u)
  {
    var n := Passed(sweep, binaries, keep, 0);
    StopsAt(sweep, binaries, keep, 0);
    if SkipsAfterRemovals(sweep, binaries, keep) {
      assert FirstUnreadable(sweep, n);
      var name :| name in Removed(sweep, binaries, keep, n);
    }
    if u: nat :| FirstUnreadable(sweep, u) && RemovableBefore(sweep, binaries, keep, u) {
      assert n == u;
      var k :| 0 <= k < u && Unkept(sweep.entries[k], binaries, keep);
      assert sweep.entries[k] in Removed(sweep, binaries, keep, n);
    }
  }

  /** What is gone was a regular version that nothing is kept for. */
  ghost predicate OnlyUnreferencedGone(
    listed: map<BinaryName, BinaryKind>, removed: set<BinaryName>, stateFiles: map<StateName, StateEntry>, read: nat
  ) {
    forall name | name in removed ::
      RegularVersion(name, listed) && name.digest != read && !OnRecord(stateFiles, name.digest)
  }

  /** Of the versions that were listed, only those that something is kept for are left. */
  predicate SweptFor(
    listed: map<BinaryName, BinaryKind>, removed: set<BinaryName>, stateFiles: map<StateName, StateEntry>, read: nat
  ) {
    forall name | name in listed && RegularVersion(name, listed) ::
      name in removed || Referenced(stateFiles, read, name.digest)
  }

  /** What is gone was unkept; a completed loop has removed every such version. */
  lemma OnlyUnkeptGone(
    sweep: Sweep, listed: map<BinaryName, BinaryKind>, keep: set<nat>, result: GCResult, removed: set<BinaryName>
  )
    requires SweptTo(sweep, listed, keep, result, removed) && Lists(sweep.entries, listed)
    ensures forall name | name in removed :: Unkept(name, listed, keep)
    ensures result.Collected? ==> result.removed == removed
    ensures result.RemovalFailed? ==> result.removed <= removed
  {
    hide Unkept, Skips, Passed;
    StopsAt(sweep, listed, keep, 0);
    var n := Passed(sweep, listed, keep, 0);
    assert forall name | name in Removed(sweep, listed, keep, n) :: Unkept(name, listed, keep);
  }

  lemma UnkeptIsRemoved(
    sweep: Sweep, listed: map<BinaryName, BinaryKind>, keep: set<nat>, result: GCResult, removed: set<BinaryName>,
    name: BinaryName
  )
    requires SweptTo(sweep, listed, keep, result, removed) && Lists(sweep.entries, listed) && result.Collected?
    requires name in listed
    ensures Unkept(name, listed, keep) ==> name in removed
  {
    hide Unkept, Skips;
    var i :| 0 <= i < |sweep.entries| && sweep.entries[i] == name;
  }

  lemma SweepIsSafe(
    sweep: Sweep, listed: map<BinaryName, BinaryKind>, keep: set<nat>, result: GCResult, removed: set<BinaryName>,
    stateFiles: map<StateName, StateEntry>, read: nat
  )
    requires SweptTo(sweep, listed, keep, result, removed) && Lists(sweep.entries, listed)
    requires Cleared(stateFiles, read, keep)
    ensures OnlyUnreferencedGone(listed, removed, stateFiles, read)
    ensures result.Collected? ==> result.removed == removed && SweptFor(listed, removed, stateFiles, read)
    ensures result.RemovalFailed? ==> result.removed <= removed
    ensures SweptFor(listed, {}, stateFiles, read) ==> removed == {}
  {
    hide OnRecord, SweptTo, Lists;
    OnlyUnkeptGone(sweep, listed, keep, result, removed);
    if result.Collected? {
      forall name | name in listed && RegularVersion(name, listed)
        ensures name in removed || Referenced(stateFiles, read, name.digest)
      {
        UnkeptIsRemoved(sweep, listed, keep, result, removed, name);
      }
    }
    if SweptFor(listed, {}, stateFiles, read) {
      assert forall name | name in removed :: name in listed && RegularVersion(name, listed);
    }
  }

  /** The version that the link names has been removed. */
  predicate LinkIsBroken(desired: Option<nat>, removed: set<BinaryName>) {
    desired.Some? && VersionName(desired.value) in removed
  }

  /**
    * A completed collection has removed the version that the link names now exactly if the link has been
    * moved, since it was last read, to a version that no record refers to and that was there as a regular file
    * when the directory was listed, be it old or just installed.
    */
  lemma LinkIsBrokenIff(
    listed: map<BinaryName, BinaryKind>, removed: set<BinaryName>, stateFiles: map<StateName, StateEntry>, read: nat,
    desired: Option<nat>
  )
    requires OnlyUnreferencedGone(listed, removed, stateFiles, read) && SweptFor(listed, removed, stateFiles, read)
    ensures LinkIsBroken(desired, removed) <==>
      && desired.Some? && desired != Some(read)
      && RegularVersion(VersionName(desired.value), listed) && !OnRecord(stateFiles, desired.value)
  {
    if desired.Some? && RegularVersion(VersionName(desired.value), listed) {
      assert VersionName(desired.value) in listed;
    }
  }

  /** Two versions, of which only the first is kept: a completed loop removes the second one. */
  lemma SecondIsRemoved()
    ensures var listed := map[VersionName(1) := RegularBinary, VersionName(2) := RegularBinary];
      var sweep := Sweep([VersionName(1), VersionName(2)], {}, {});
      && Lists(sweep.entries, listed) && Cleared(map[], 1, {1})
      && SweptTo(sweep, listed, {1}, Collected({VersionName(2)}), {VersionName(2)})
  {
    var listed := map[VersionName(1) := RegularBinary, VersionName(2) := RegularBinary];
    var sweep := Sweep([VersionName(1), VersionName(2)], {}, {});
    assert Passed(sweep, listed, {1}, 2) == 2 && Passed(sweep, listed, {1}, 1) == 2;
    assert sweep.entries[1] in Removed(sweep, listed, {1}, 2);
    assert Removed(sweep, listed, {1}, 2) == {VersionName(2)};
  }

  /**
    * So a rollback of the link during a collection may leave it broken: both versions are there, it is read as
    * version 1 and moved to version 2.
    */
  lemma RollbackBreaksLink()
    ensures var before := map[VersionName(1) := RegularBinary, VersionName(2) := RegularBinary];
      var sweep := Sweep([VersionName(1), VersionName(2)], {}, {});
      && Lists(sweep.entries, before) && Cleared(map[], 1, {1})
      && SweptTo(sweep, before, {1}, Collected({VersionName(2)}), {VersionName(2)})
      && LinkIsBroken(Some(2), {VersionName(2)})
  {
    SecondIsRemoved();
  }

  /**
    * And so may an installation: only version 1 is there when the link is read, version 2 is added before the
    * directory is listed, and the link is moved to it.
    */
  lemma InstallBreaksLink()
    ensures var before := map[VersionName(1) := RegularBinary];
      var listed := before[VersionName(2) := RegularBinary];
      var sweep := Sweep([VersionName(1), VersionName(2)], {}, {});
      && Drifts(before, listed) && VersionName(2) !in before && Lists(sweep.entries, listed) && Cleared(map[], 1, {1})
      && SweptTo(sweep, listed, {1}, Collected({VersionName(2)}), {VersionName(2)})
      && LinkIsBroken(Some(2), {VersionName(2)})
  {
    SecondIsRemoved();
    assert map[VersionName(1) := RegularBinary][VersionName(2) := RegularBinary] ==
           map[VersionName(1) := RegularBinary, VersionName(2) := RegularBinary];
  }

  /**
    * The removal loop (binary_gc.go:158-189). An entry that cannot be inspected ends it as skipped, after
    * whatever it has removed; a removal that fails ends it as well.
    */
  method RemoveUnkept(inventory: Inventory, entries: seq<BinaryName>, keep: set<nat>)
    returns (result: GCResult, ghost sweep: Sweep)
    requires Lists(entries, inventory.listed) && inventory.binaries == inventory.listed && inventory.removed == {}
    modifies inventory`binaries, inventory`desired, inventory`removed
    ensures sweep.entries == entries && SweptTo(sweep, inventory.listed, keep, result, inventory.removed)
    ensures inventory.reliable ==> result.Collected? && inventory.desired == old(inventory.desired)
    ensures inventory.reliable ==> inventory.binaries == inventory.listed - inventory.removed
  {
    ghost var listed := inventory.listed;
    sweep := Sweep(entries, {}, {});
    var removed: set<BinaryName> := {};
    for i := 0 to |entries|
      invariant sweep == Sweep(entries, {}, {})
      invariant removed == inventory.removed == Removed(sweep, listed, keep, i)
      invariant Drifts(listed, inventory.binaries)
      invariant inventory.reliable ==>
        inventory.desired == old(inventory.desired) && inventory.binaries == listed - removed
    {
      var name := entries[i];
      OneMoreEntry(sweep, listed, keep, i);
      inventory.Drift();
      var unreadable: bool := *;
      if name.VersionName? && (name !in inventory.binaries || (unreadable && !inventory.reliable)) {
        sweep := sweep.(unreadable := {name});
        SweepEndsAt(sweep, listed, keep, i);
        return Skipped, sweep;
      }
      assert Irregular(name, inventory.binaries) <==> Irregular(name, listed);
      if RegularVersion(name, inventory.binaries) && name.digest !in keep {
        var ok := inventory.RemoveBinary(name);
        if !ok {
          sweep := sweep.(stuck := {name});
          SweepEndsAt(sweep, listed, keep, i);
          return RemovalFailed(removed), sweep;
        }
        removed := removed + {name};
      }
    }
    SweepEndsAt(sweep, listed, keep, |entries|);
    result := Collected(removed);
  }

  lemma OneMoreEntry(sweep: Sweep, before: map<BinaryName, BinaryKind>, keep: set<nat>, i: nat)
    requires i < |sweep.entries| && Lists(sweep.entries, before)
    ensures Removed(sweep, before, keep, i + 1) ==
            Removed(sweep, before, keep, i) + if Unkept(sweep.entries[i], before, keep) then {sweep.entries[i]} else {}
    ensures sweep.entries[i] in before && sweep.entries[i] !in Removed(sweep, before, keep, i)
  {
    var more := if Unkept(sweep.entries[i], before, keep) then {sweep.entries[i]} else {};
    forall name | name in Removed(sweep, before, keep, i) + more ensures name in Removed(sweep, before, keep, i + 1) {
      var k :| 0 <= k < i + 1 && sweep.entries[k] == name && Unkept(name, before, keep);
    }
  }

  /** The loop ends at its first entry of either kind, and there is only this one. */
  lemma SweepEndsAt(sweep: Sweep, before: map<BinaryName, BinaryKind>, keep: set<nat>, n: nat)
    requires n <= |sweep.entries| && Lists(sweep.entries, before)
    requires if n == |sweep.entries| then sweep.unreadable == {} && sweep.stuck == {}
             else if Skips(sweep, sweep.entries[n]) then sweep.unreadable == {sweep.entries[n]} && sweep.stuck == {}
             else Unkept(sweep.entries[n], before, keep) && sweep.stuck == {sweep.entries[n]} && sweep.unreadable == {}
    ensures Passed(sweep, before, keep, 0) == n
    ensures Removed(sweep, before, keep, n) == Removed(Sweep(sweep.entries, {}, {}), before, keep, n)
  {
    StopsAt(sweep, before, keep, 0);
  }

  /**
    * binaryGarbageCollector.Run. No removed file is the binary or fallback of any record on disk, nor the
    * version that the link named when it was last read; LinkIsBrokenIff says when it is the one that the link
    * names now. Only what was listed is removed, by the loop; a check that fails before it removes
    * nothing. A completed run leaves only referenced versions of those that were listed, so that the next one
    * removes nothing as long as the link stays and nothing is installed.
    */
  method Run(inventory: Inventory) returns (result: GCResult, ghost sweep: Option<Sweep>)
    modifies inventory
    ensures inventory.stateFiles == old(inventory.stateFiles)
    ensures sweep.None? ==> result.Skipped? && inventory.removed == {}
    ensures sweep.Some? ==>
      && inventory.lastRead.Some? && Lists(sweep.value.entries, inventory.listed)
      && Drifts(old(inventory.binaries), inventory.listed)
      && OnlyUnreferencedGone(
           inventory.listed, inventory.removed, inventory.stateFiles, inventory.lastRead.value)
      && (exists keep: set<nat> ::
            && Cleared(inventory.stateFiles, inventory.lastRead.value, keep)
            && SweptTo(sweep.value, inventory.listed, keep, result, inventory.removed))
    ensures result.Collected? ==>
      && sweep.Some? && result.removed == inventory.removed
      && SweptFor(inventory.listed, inventory.removed, inventory.stateFiles, inventory.lastRead.value)
    ensures result.RemovalFailed? ==> sweep.Some? && result.removed <= inventory.removed
    ensures inventory.reliable && old(inventory.Collectable()) ==>
      && result.Collected? && inventory.desired == old(inventory.desired)
      && inventory.binaries == old(inventory.binaries) - inventory.removed
    ensures sweep.Some? && SweptFor(inventory.listed, {}, inventory.stateFiles, inventory.lastRead.value) ==>
      inventory.removed == {}
  {
    hide Cleared, SweptTo, OnRecord, Lists;
    inventory.removed := {};
    result, sweep := Skipped, None;
    var keep := TakeInventory(inventory);
    if keep.Some? {
      var entries := inventory.ReadDir();
      if entries.Some? {
        ghost var swept: Sweep;
        result, swept := RemoveUnkept(inventory, entries.value, keep.value);
        sweep := Some(swept);
        SweepIsSafe(
          swept, inventory.listed, keep.value, result, inventory.removed, inventory.stateFiles,
          inventory.lastRead.value);
      }
    }
  }
}
