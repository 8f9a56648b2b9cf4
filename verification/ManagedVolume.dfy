/**
  * Creating and deleting managed directory volumes over a remote path map (internal/driver/driver.go:438-603
  * and 1247-1262, drive9_client.go:90-218, path.go:98-140).
  */
module ManagedVolume {
  import opened Text

  /** A path segment; the two kinds of index files have names made from hashes, which are taken as injective. */
  datatype Segment = Plain(text: string) | IndexFile(volumeID: VolumeID) | NameFile(name: string)

  datatype VolumeID = RootID(root: seq<Segment>) | ForeignID(text: string)

  /** A canonical remote path: it is at or under another one if that is a prefix of it. */
  type Path = seq<Segment>

  const DRIVER := "csi.drive9.ai"
  const ALLOWED_ROOT: Path := [Plain("k8s")]
  const METADATA_ROOT: Path := [Plain("k8s"), Plain(".drive9-csi"), Plain("volumes")]
  const NAME_INDEX_ROOT: Path := METADATA_ROOT + [Plain("by-name")]

  datatype Marker = Marker(driver: string, volumeID: VolumeID, name: string, root: Path, createdAt: int)

  datatype Node = Directory | Document(marker: Marker) | Data

  type Files = map<Path, Node>

  datatype Reading = NotFound | Unreadable | Found(marker: Marker)
  datatype MkdirAnswer = Created | AlreadyExists | ParentMissing | MkdirFailed

  /** pathIsOrUnder. */
  predicate Under(p: Path, base: Path) {
    base <= p
  }

  function VolumeIDFor(root: Path): VolumeID {
    RootID(root)
  }

  function MarkerPath(root: Path): Path {
    root + [Plain(".drive9-csi-volume.json")]
  }

  function IndexPath(volumeID: VolumeID): Path {
    METADATA_ROOT + [IndexFile(volumeID)]
  }

  function NameIndexPath(name: string): Path {
    NAME_INDEX_ROOT + [NameFile(name)]
  }

  /** validateSafeDeleteRoot. */
  predicate SafeDeleteRoot(root: Path) {
    root != [] && Under(root, ALLOWED_ROOT) && !Under(root, METADATA_ROOT) && !Under(METADATA_ROOT, root)
  }

  /** The comparison of validateMarker: the creation time may differ. */
  predicate SameVolume(a: Marker, b: Marker) {
    a.(createdAt := 0) == b.(createdAt := 0)
  }

  // ---- The remote ------------------------------------------------------------------------------------------

  /** The remote path map: a request may fail with or without effect, unless the remote is reliable. */
  class Remote {
    var files: Files
    var reliable: bool

    constructor (files: Files, reliable: bool)
      ensures this.files == files && this.reliable == reliable
    {
      this.files, this.reliable := files, reliable;
    }

    method Exists(path: Path) returns (answer: Option<bool>)
      ensures answer.Some? ==> answer.value == (path in files)
      ensures reliable ==> answer.Some?
    {
      var fails: bool := *;
      answer := if fails && !reliable then None else Some(path in files);
    }

    method ReadMarker(path: Path) returns (answer: Reading)
      ensures answer.NotFound? ==> path !in files
      ensures answer.Found? ==> path in files && files[path] == Document(answer.marker)
      ensures reliable && path !in files ==> answer.NotFound?
      ensures reliable && path in files && files[path].Document? ==> answer.Found?
    {
      var fails: bool := *;
      answer := if fails && !reliable then Unreadable
                else if path !in files then NotFound
                else if files[path].Document? then Found(files[path].marker) else Unreadable;
    }

    method WriteMarker(path: Path, marker: Marker) returns (ok: bool)
      modifies this`files
      ensures files == old(files) || files == old(files)[path := Document(marker)]
      ensures ok ==> files == old(files)[path := Document(marker)]
      ensures reliable ==> ok
    {
      var effective, reported: bool := *, *;
      if effective || reliable {
        files := files[path := Document(marker)];
      }
      ok := (effective && reported) || reliable;
    }

    method Mkdir(path: Path) returns (answer: MkdirAnswer)
      requires path != []
      modifies this`files
      ensures files == old(files) || (path !in old(files) && files == old(files)[path := Directory])
      ensures answer.Created? || answer.AlreadyExists? ==> path in files
      ensures reliable ==> answer == (if path in old(files) then AlreadyExists
                                      else if |path| == 1 || path[..|path| - 1] in old(files) then Created
                                      else ParentMissing)
    {
      var effective, reported: bool := *, *;
      if path in files {
        answer := if reported || reliable then AlreadyExists else MkdirFailed;
      } else if |path| > 1 && path[..|path| - 1] !in files {
        answer := if reported || reliable then ParentMissing else MkdirFailed;
      } else {
        if effective || reliable {
          files := files[path := Directory];
        }
        answer := if (effective && reported) || reliable then Created else MkdirFailed;
      }
    }

    /** removeAll: everything at or under the path; nothing there is no error. */
    method RemoveAll(path: Path) returns (ok: bool)
      modifies this`files
      ensures files == old(files) || files == Without(old(files), path)
      ensures ok ==> files == Without(old(files), path)
      ensures reliable ==> ok
    {
      var effective, reported: bool := *, *;
      if effective || reliable {
        files := Without(files, path);
      }
      ok := (effective && reported) || reliable;
    }

    /** mkdirAll: directly if the parent is there, and otherwise segment by segment. */
    method MkdirAll(path: Path) returns (ok: bool)
      modifies this`files
      ensures OnlyAdds(old(files), files, path)
      ensures ok && path != [] ==> path in files
      ensures reliable ==> ok
    {
      if path == [] {
        return true;
      }
      var answer := Mkdir(path);
      if answer.Created? || answer.AlreadyExists? {
        return true;
      }
      if answer.MkdirFailed? {
        return false;
      }
      ok := true;
      for i := 1 to |path| + 1
        invariant ok && OnlyAdds(old(files), files, path)
        invariant i > 1 ==> path[..i - 1] in files
      {
        assert path[..i][..i - 1] == path[..i - 1];
        answer := Mkdir(path[..i]);
        if !answer.Created? && !answer.AlreadyExists? {
          return false;
        }
      }
      assert path[..|path|] == path;
    }
  }

  function Without(files: Files, path: Path): Files {
    map p | p in files && !Under(p, path) :: files[p]
  }

  /** Nothing is lost or overwritten, and what is new are directories at or above the path. */
  ghost predicate OnlyAdds(before: Files, after: Files, path: Path) {
    && (forall p | p in before :: p in after && after[p] == before[p])
    && (forall p | p in after && p !in before :: Under(path, p) && after[p] == Directory)
  }

  // ---- The records of a volume -------------------------------------------------------------------------------

  /** The path holds a marker of this volume. */
  predicate Holds(files: Files, path: Path, v: Marker) {
    path in files && files[path].Document? && SameVolume(files[path].marker, v)
  }

  predicate FreeOrOwn(files: Files, path: Path, v: Marker) {
    path in files ==> Holds(files, path, v)
  }

  /** A marker that belongs to a managed volume of this driver. */
  predicate Managed(v: Marker) {
    v.driver == DRIVER && v.volumeID == VolumeIDFor(v.root) && v.name != "" && SafeDeleteRoot(v.root)
  }

  /** What a completed create leaves: the two indexes and the root marker. */
  predicate Completed(files: Files, v: Marker) {
    && Holds(files, IndexPath(v.volumeID), v) && Holds(files, NameIndexPath(v.name), v)
    && v.root in files && Holds(files, MarkerPath(v.root), v)
  }

  /**
    * What deletes make of it, however far they get: none of the three paths is anybody else's, and the
    * index is not gone while the name index remains.
    */
  predicate PartlyDeleted(files: Files, v: Marker) {
    && FreeOrOwn(files, IndexPath(v.volumeID), v) && FreeOrOwn(files, NameIndexPath(v.name), v)
    && FreeOrOwn(files, MarkerPath(v.root), v)
    && (NameIndexPath(v.name) in files ==> IndexPath(v.volumeID) in files)
  }

  lemma CompletedIsPartlyDeleted(files: Files, v: Marker)
    requires Completed(files, v)
    ensures PartlyDeleted(files, v)
  {
  }

  /** The index files lie outside every volume root, and apart from each other and from the root marker. */
  lemma PathsApart(root: Path, volumeID: VolumeID, name: string)
    requires SafeDeleteRoot(root)
    ensures forall p: Path | Under(p, root) :: !Under(p, IndexPath(volumeID)) && !Under(p, NameIndexPath(name))
    ensures !Under(IndexPath(volumeID), MarkerPath(root)) && !Under(NameIndexPath(name), MarkerPath(root))
    ensures !Under(NameIndexPath(name), IndexPath(volumeID)) && !Under(IndexPath(volumeID), NameIndexPath(name))
    ensures Under(MarkerPath(root), root) && !Under(root, MarkerPath(root))
    ensures !Under(root, IndexPath(volumeID)) && !Under(root, NameIndexPath(name))
  {
    forall p: Path | Under(p, root) ensures !Under(p, METADATA_ROOT) {
      if Under(p, METADATA_ROOT) {
        PrefixesCompare(root, METADATA_ROOT, p);
      }
    }
    forall p: Path | Under(p, IndexPath(volumeID)) || Under(p, NameIndexPath(name)) ensures Under(p, METADATA_ROOT) {
      UnderMetadata(volumeID, name, p);
    }
    assert IndexPath(volumeID)[3] == IndexFile(volumeID) && NameIndexPath(name)[3] == Plain("by-name");
    assert Under(IndexPath(volumeID), METADATA_ROOT) && Under(NameIndexPath(name), METADATA_ROOT);
    assert Under(MarkerPath(root), root);
  }

  lemma PrefixesCompare(a: Path, b: Path, p: Path)
    requires Under(p, a) && Under(p, b)
    ensures Under(b, a) || Under(a, b)
  {
    if |a| <= |b| {
      assert a == p[..|a|] && b == p[..|b|];
      assert b[..|a|] == p[..|a|];
    } else {
      assert a == p[..|a|] && b == p[..|b|];
      assert a[..|b|] == p[..|b|];
    }
  }

  lemma UnderMetadata(volumeID: VolumeID, name: string, p: Path)
    requires Under(p, IndexPath(volumeID)) || Under(p, NameIndexPath(name))
    ensures Under(p, METADATA_ROOT)
  {
    var q := if IndexPath(volumeID) <= p then IndexPath(volumeID) else NameIndexPath(name);
    assert q == p[..|q|] && METADATA_ROOT == q[..3];
  }

  // ---- Create ------------------------------------------------------------------------------------------------

  /** validateVolumeNameIndex. */
  method ValidateNameIndex(remote: Remote, want: Marker) returns (ok: bool)
    ensures ok ==> FreeOrOwn(remote.files, NameIndexPath(want.name), want)
    ensures remote.reliable && FreeOrOwn(remote.files, NameIndexPath(want.name), want) ==> ok
  {
    var got := remote.ReadMarker(NameIndexPath(want.name));
    ok := match got
          case NotFound => true
          case Unreadable => false
          case Found(marker) =>
            marker.driver == want.driver && marker.name == want.name
            && marker.volumeID == want.volumeID && marker.root == want.root;
  }

  /** upsertIndex: what is there is validated, never overwritten. */
  method UpsertIndex(remote: Remote, path: Path, marker: Marker) returns (ok: bool)
    modifies remote`files
    ensures remote.files == old(remote.files) ||
      (path !in old(remote.files) && remote.files == old(remote.files)[path := Document(marker)])
    ensures ok ==> Holds(remote.files, path, marker)
    ensures remote.reliable && FreeOrOwn(old(remote.files), path, marker) ==> ok
  {
    var present := remote.Exists(path);
    if present.None? {
      return false;
    }
    if present.value {
      var got := remote.ReadMarker(path);
      return got.Found? && SameVolume(got.marker, marker);
    }
    ok := remote.WriteMarker(path, marker);
  }

  /** The root and its marker: adopted without a marker, refused with somebody else's (driver.go:473-501). */
  method AdoptRoot(remote: Remote, marker: Marker) returns (ok: bool)
    modifies remote`files
    ensures forall p | p in old(remote.files) && p != MarkerPath(marker.root) ::
      p in remote.files && remote.files[p] == old(remote.files)[p]
    ensures forall p | p in remote.files && p !in old(remote.files) ::
      Under(marker.root, p) || p == MarkerPath(marker.root)
    ensures ok ==>
      Holds(remote.files, MarkerPath(marker.root), marker) && (marker.root != [] ==> marker.root in remote.files)
    ensures remote.reliable && FreeOrOwn(old(remote.files), MarkerPath(marker.root), marker) ==> ok
  {
    var present := remote.Exists(marker.root);
    if present.None? {
      return false;
    }
    if present.value {
      var got := remote.ReadMarker(MarkerPath(marker.root));
      match got {
        case Unreadable => return false;
        case Found(found) => return SameVolume(found, marker);
        case NotFound =>
      }
    } else {
      var made := remote.MkdirAll(marker.root);
      if !made {
        return false;
      }
    }
    ok := remote.WriteMarker(MarkerPath(marker.root), marker);
    assert MarkerPath(marker.root) != marker.root;
  }

  /**
    * createManagedDirectoryVolume. Success means that all three records hold the volume; on a reliable
    * remote it succeeds whenever none of the three paths is somebody else's.
    */
  method CreateVolume(remote: Remote, name: string, root: Path, now: int) returns (created: Option<VolumeID>)
    requires name != "" && SafeDeleteRoot(root)
    modifies remote`files
    ensures var v := Marker(DRIVER, VolumeIDFor(root), name, root, now);
      && (created.Some? ==> created.value == v.volumeID && Completed(remote.files, v))
      && (remote.reliable && FreeOrOwn(old(remote.files), IndexPath(v.volumeID), v)
          && FreeOrOwn(old(remote.files), NameIndexPath(name), v)
          && FreeOrOwn(old(remote.files), MarkerPath(root), v) ==>
            created.Some?)
    ensures forall p | p in old(remote.files) && p != MarkerPath(root) ::
      p in remote.files && remote.files[p] == old(remote.files)[p]
  {
    var v := Marker(DRIVER, VolumeIDFor(root), name, root, now);
    PathsApart(root, v.volumeID, name);
    created := None;
    var ok := remote.MkdirAll(NAME_INDEX_ROOT);
    if !ok {
      return;
    }
    ok := ValidateNameIndex(remote, v);
    if !ok {
      return;
    }
    ok := UpsertIndex(remote, NameIndexPath(name), v);
    if !ok {
      return;
    }
    ok := AdoptRoot(remote, v);
    if !ok {
      return;
    }
    ok := UpsertIndex(remote, IndexPath(v.volumeID), v);
    if ok {
      created := Some(v.volumeID);
    }
  }

  // ---- Delete ------------------------------------------------------------------------------------------------

  /** Nothing is added or changed, and what is gone lay at one of the three paths of the volume. */
  ghost predicate OnlyRecordsGone(before: Files, after: Files, v: Marker) {
    && (forall p | p in after :: p in before && after[p] == before[p])
    && (forall p | p in before && p !in after ::
          Under(p, IndexPath(v.volumeID)) || Under(p, NameIndexPath(v.name)) || Under(p, MarkerPath(v.root)))
  }

  /** The user's data: everything at or under the root but the marker. */
  ghost predicate DataKept(before: Files, after: Files, root: Path) {
    forall p | Under(p, root) && !Under(p, MarkerPath(root)) ::
      (p in before <==> p in after) && (p in before ==> after[p] == before[p])
  }

  lemma RecordsAreNotData(before: Files, after: Files, v: Marker)
    requires SafeDeleteRoot(v.root) && OnlyRecordsGone(before, after, v)
    ensures DataKept(before, after, v.root)
  {
    PathsApart(v.root, v.volumeID, v.name);
  }

  /** The removals in their order: name index, index, and, without insisting, the root marker (driver.go:591-601). */
  method RemoveRecords(remote: Remote, v: Marker, withMarker: bool) returns (ok: bool)
    requires SafeDeleteRoot(v.root)
    modifies remote`files
    ensures OnlyRecordsGone(old(remote.files), remote.files, v)
    ensures ok ==> IndexPath(v.volumeID) !in remote.files && (v.name != "" ==> NameIndexPath(v.name) !in remote.files)
    ensures forall w: Marker | SameVolume(v, w) && w.name != "" && PartlyDeleted(old(remote.files), w) ::
      PartlyDeleted(remote.files, w)
    ensures remote.reliable ==> ok
  {
    hide SafeDeleteRoot;
    PathsApart(v.root, v.volumeID, v.name);
    ok := true;
    if v.name != "" {
      ok := remote.RemoveAll(NameIndexPath(v.name));
    }
    if ok {
      ok := remote.RemoveAll(IndexPath(v.volumeID));
      if ok && withMarker {
        var warned := remote.RemoveAll(MarkerPath(v.root));
      }
    }
  }

  /** The root marker, if it is there, must be this volume's (driver.go:574-583). */
  method RootMarkerAllows(remote: Remote, v: Marker) returns (allowed: bool)
    ensures remote.reliable && FreeOrOwn(remote.files, MarkerPath(v.root), v) ==> allowed
  {
    var got := remote.ReadMarker(MarkerPath(v.root));
    allowed := match got
               case NotFound => true
               case Unreadable => false
               case Found(found) => SameVolume(found, v);
  }

  /** The marker that a delete goes by. */
  predicate IndexedAs(files: Files, volumeID: VolumeID, v: Marker) {
    IndexPath(volumeID) in files && files[IndexPath(volumeID)] == Document(v)
  }

  /**
    * DeleteVolume of a managed volume. It detaches the volume's records and never touches its data; however
    * far it gets, the index is not gone while the name index remains, so that a retry still finds it.
    */
  method DeleteVolume(remote: Remote, volumeID: VolumeID) returns (ok: bool)
    modifies remote`files
    ensures IndexPath(volumeID) !in old(remote.files) ==> remote.files == old(remote.files)
    ensures forall v | IndexedAs(old(remote.files), volumeID, v) ::
      OnlyRecordsGone(old(remote.files), remote.files, v) && DataKept(old(remote.files), remote.files, v.root)
    ensures ok ==> IndexPath(volumeID) !in remote.files
    ensures forall w | Managed(w) && w.volumeID == volumeID && PartlyDeleted(old(remote.files), w) ::
      PartlyDeleted(remote.files, w) && (ok ==> NameIndexPath(w.name) !in remote.files) && (remote.reliable ==> ok)
  {
    var indexed := remote.ReadMarker(IndexPath(volumeID));
    if !indexed.Found? {
      return indexed.NotFound?;
    }
    var v := indexed.marker;
    if v.volumeID != volumeID || v.driver != DRIVER || !SafeDeleteRoot(v.root) {
      return false;
    }
    var present := remote.Exists(v.root);
    if present.None? {
      return false;
    }
    if present.value {
      var allowed := RootMarkerAllows(remote, v);
      if !allowed {
        return false;
      }
    }
    ok := RemoveRecords(remote, v, present.value);
    RecordsAreNotData(old(remote.files), remote.files, v);
  }

  // ---- Delete, delete again, and create anew ---------------------------------------------------------------

  /**
    * From a completed create, through any number of deletes that fail in any way, no data of the volume is
    * lost; and a create on a remote that works again returns the same volume with all its records.
    */
  method DeleteThenCreate(remote: Remote, v: Marker, attempts: nat, now: int) returns (created: Option<VolumeID>)
    requires Managed(v) && Completed(remote.files, v)
    modifies remote
    ensures created == Some(v.volumeID) && Completed(remote.files, v)
    ensures forall p | p in old(remote.files) && Under(p, v.root) && !Under(p, MarkerPath(v.root)) ::
      p in remote.files && remote.files[p] == old(remote.files)[p]
  {
    CompletedIsPartlyDeleted(remote.files, v);
    for i := 0 to attempts
      invariant PartlyDeleted(remote.files, v) && DataKept(old(remote.files), remote.files, v.root)
    {
      remote.reliable := *;
      var deleted := DeleteVolume(remote, v.volumeID);
    }
    remote.reliable := true;
    created := CreateVolume(remote, v.name, v.root, now);
  }
}
