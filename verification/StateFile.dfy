/** Atomic replacement of a state file (internal/driver/mount_state.go:593-656, binary_gc.go:216-247). */
module StateFile {
  import opened Text

  /** A file, and whether its content has reached the disk. */
  datatype File = File(body: string, synced: bool)

  type Files = map<string, File>

  /** What a reader, or a boot after a crash, finds at path: the complete old file or the complete new one. */
  predicate OldOrNew(before: Files, after: Files, path: string, body: string) {
    || (path in after && after[path] == File(body, true))
    || (path in before && path in after && after[path] == before[path])
    || (path !in before && path !in after)
  }

  /** No other file but the temporary one is touched. */
  ghost predicate OthersKept(before: Files, after: Files, path: string, temp: string) {
    forall name | name != path && name != temp ::
      (name in after <==> name in before) && (name in before ==> after[name] == before[name])
  }

  ghost predicate Atomic(before: Files, after: Files, path: string, temp: string, body: string) {
    OldOrNew(before, after, path, body) && OthersKept(before, after, path, temp)
  }

  ghost predicate OnlyTemp(before: Files, after: Files, temp: string) {
    forall name | name != temp ::
      (name in after <==> name in before) && (name in before ==> after[name] == before[name])
  }

  /** filepath.Join(stateDir, "." + base + "." + attempt + ".tmp"), as a name in the directory. */
  function TempName(base: string, attempt: string): string {
    "." + base + "." + attempt + ".tmp"
  }

  /** The names that the mount state inventories read (binary_gc.go:222-227, node_recovery.go:352). */
  predicate ListedAsMount(name: string) {
    HasSuffix(name, ".json") && !HasPrefix(name, "published-")
  }

  /** The names that the publish inventory reads (driver.go:1621-1623). */
  predicate ListedAsPublish(name: string) {
    HasPrefix(name, "published-") && HasSuffix(name, ".json")
  }

  /** A temporary file that a crash leaves behind is never taken for a record, and never is one. */
  lemma TempIsNeverListed(base: string, attempt: string)
    ensures !ListedAsMount(TempName(base, attempt)) && !ListedAsPublish(TempName(base, attempt))
    ensures TempName(base, attempt) != base
  {
    var temp := TempName(base, attempt);
    if HasSuffix(temp, ".json") {
      SuffixEndsIt(temp, ".json");
    }
    assert temp[|temp| - 1] == 'p' && |temp| > |base|;
  }

  lemma SuffixEndsIt(s: string, suffix: string)
    requires suffix != "" && HasSuffix(s, suffix)
    ensures s != "" && s[|s| - 1] == suffix[|suffix| - 1]
  {
    assert s[|s| - |suffix|..][|suffix| - 1] == s[|s| - 1];
  }

  /**
    * A directory. Every operation may fail with or without its effect, unless the directory is reliable;
    * the crash after some operation is the run in which all later ones fail without effect.
    */
  class Directory {
    const reliable: bool
    var files: Files
    ghost var states: set<Files>   // every state that a reader could have seen

    constructor (files: Files, reliable: bool)
      ensures this.files == files && states == {files} && this.reliable == reliable
    {
      this.files, states, this.reliable := files, {files}, reliable;
    }

    ghost predicate Recorded()
      reads this
    {
      files in states
    }

    method Change(next: Files)
      modifies this
      ensures files == next && states == old(states) + {next}
    {
      files := next;
      states := states + {next};
    }

    /** OpenFile with O_CREATE and O_EXCL. */
    method CreateExclusive(name: string) returns (ok: bool)
      requires Recorded()
      modifies this
      ensures Recorded()
      ensures files == old(files) || (name !in old(files) && files == old(files)[name := File("", false)])
      ensures states == old(states) + {files}
      ensures ok ==> name !in old(files) && name in files && files[name] == File("", false)
      ensures reliable && name !in old(files) ==> ok
    {
      var effective, reported: bool := *, *;
      ok := false;
      if name !in files && (effective || reliable) {
        Change(files[name := File("", false)]);
        ok := reported || reliable;
      }
    }

    /** Write: some prefix of the rest, possibly none, possibly before an error. */
    method Append(name: string, rest: string) returns (written: nat, ok: bool)
      requires Recorded() && name in files
      modifies this
      ensures Recorded() && written <= |rest|
      ensures files == old(files)[name := File(old(files)[name].body + rest[..written], false)]
      ensures states == old(states) + {files}
      ensures reliable ==> ok && (rest != "" ==> written > 0)
    {
      var accepted: int := *;
      written := if accepted < 0 then 0 else if accepted > |rest| then |rest| else accepted;
      if reliable && rest != "" && written == 0 {
        written := 1;
      }
      ok := *;
      ok := ok || reliable;
      Change(files[name := File(files[name].body + rest[..written], false)]);
    }

    /** Sync of a file. */
    method SyncFile(name: string) returns (ok: bool)
      requires Recorded() && name in files
      modifies this
      ensures Recorded()
      ensures files == old(files) || files == old(files)[name := old(files)[name].(synced := true)]
      ensures states == old(states) + {files}
      ensures ok ==> files == old(files)[name := old(files)[name].(synced := true)]
      ensures reliable ==> ok
    {
      var effective, reported: bool := *, *;
      ok := false;
      if effective || reliable {
        Change(files[name := files[name].(synced := true)]);
        ok := reported || reliable;
      }
    }

    method Rename(from: string, to: string) returns (ok: bool)
      requires Recorded() && from in files && from != to
      modifies this
      ensures Recorded()
      ensures files == old(files) || files == (old(files) - {from})[to := old(files)[from]]
      ensures states == old(states) + {files}
      ensures ok ==> files == (old(files) - {from})[to := old(files)[from]]
      ensures reliable ==> ok
    {
      var effective, reported: bool := *, *;
      ok := false;
      if effective || reliable {
        Change((files - {from})[to := files[from]]);
        ok := reported || reliable;
      }
    }

    method Remove(name: string)
      requires Recorded()
      modifies this
      ensures Recorded()
      ensures files == old(files) || files == old(files) - {name}
      ensures states == old(states) + {files}
    {
      var effective: bool := *;
      if effective {
        Change(files - {name});
      }
    }

    /** writeHostFile: goes on after short writes until everything is written, and gives up when nothing is. */
    method WriteFully(name: string, body: string) returns (ok: bool)
      requires Recorded() && name in files && files[name].body == ""
      modifies this
      ensures Recorded() && name in files
      ensures files == old(files)[name := files[name]]
      ensures forall s | s in states :: s in old(states) || (name in s && s == old(files)[name := s[name]])
      ensures old(states) <= states
      ensures ok ==> files[name].body == body
      ensures reliable ==> ok
    {
      var rest := body;
      ok := true;
      while ok && rest != ""
        invariant Recorded() && name in files && files == old(files)[name := files[name]]
        invariant forall s | s in states :: s in old(states) || (name in s && s == old(files)[name := s[name]])
        invariant old(states) <= states
        invariant ok ==> files[name].body + rest == body
        invariant reliable ==> ok
        decreases |rest|, ok
      {
        var written: nat;
        written, ok := Append(name, rest);
        if ok && written == 0 {
          ok := false;
        }
        assert ok ==> rest[..written] + rest[written..] == rest;
        rest := rest[written..];
      }
    }

    /** Create, write and sync the temporary file (mount_state.go:611-641): only that file changes. */
    method PrepareTemp(temp: string, body: string) returns (created: bool, ok: bool)
      requires Recorded()
      modifies this
      ensures Recorded() && old(states) <= states
      ensures forall s | s in states :: s in old(states) || OnlyTemp(old(files), s, temp)
      ensures OnlyTemp(old(files), files, temp)
      ensures temp in old(files) ==> !created && files == old(files)
      ensures ok ==> created && temp in files && files[temp] == File(body, true)
      ensures reliable && temp !in old(files) ==> ok
    {
      created := CreateExclusive(temp);
      ok := created;
      if created {
        ok := WriteFully(temp, body);
        if ok {
          ok := SyncFile(temp);
        }
      }
    }

    /**
      * writeAtomicStateFile. Whatever fails and wherever it stops, every state that a reader could see has
      * the complete old file or the complete new one, on disk, and nothing else has changed but the
      * temporary file; on success the new file is there, and on a reliable
      * directory the write succeeds unless its temporary name is taken.
      */
    method WriteAtomic(path: string, attempt: string, body: string) returns (ok: bool)
      requires Recorded()
      modifies this
      ensures Recorded() && old(states) <= states
      ensures forall s | s in states ::
        s in old(states) || Atomic(old(files), s, path, TempName(path, attempt), body)
      ensures Atomic(old(files), files, path, TempName(path, attempt), body)
      ensures TempName(path, attempt) in old(files) ==> !ok && files == old(files)
      ensures ok ==> path in files && files[path] == File(body, true) && TempName(path, attempt) !in files
      ensures reliable && TempName(path, attempt) !in old(files) ==> ok
    {
      hide TempName;
      var temp := TempName(path, attempt);
      TempIsNeverListed(path, attempt);
      var created, ready := PrepareTemp(temp, body);
      var renamed := false;
      if ready {
        renamed := Rename(temp, path);
      }
      if created && !renamed {
        Remove(temp);
      }
      var directorySynced: bool := *;
      ok := renamed && (directorySynced || reliable);
    }
  }
}
