/** Installing the host binaries (cmd/drive9-csi/install_host_binaries.go:91-141 and 266-607). */
module Installer {
  import opened Text

  /** SHA-256, taken as injective. */
  function Digest(body: string): string {
    body
  }

  datatype Name = DesiredLink | LauncherFile | Versioned(digest: string) | Temp(id: nat) | OtherName(text: string)

  datatype Entry = Regular(body: string, executable: bool) | Link(target: Name) | OtherEntry

  type Entries = map<Name, Entry>

  // ---- What an installation must never break --------------------------------------------------------------

  /** A version whose content is what its name says. */
  predicate IntactVersion(e: Entries, digest: string) {
    && Versioned(digest) in e && e[Versioned(digest)].Regular? && e[Versioned(digest)].executable
    && Digest(e[Versioned(digest)].body) == digest
  }

  /** The desired link resolves to a correctly hashed binary. */
  predicate Resolves(e: Entries) {
    && DesiredLink in e && e[DesiredLink].Link? && e[DesiredLink].target.Versioned?
    && IntactVersion(e, e[DesiredLink].target.digest)
  }

  predicate SameAt(a: Entries, b: Entries, name: Name) {
    (name in a <==> name in b) && (name in a ==> a[name] == b[name])
  }

  predicate VersionsKept(base: Entries, e: Entries) {
    forall name | name in base && name.Versioned? :: name in e && e[name] == base[name]
  }

  /** The desired link is the old one, or it names the new version and that is intact. */
  predicate DesiredSafe(base: Entries, digest: string, e: Entries) {
    SameAt(base, e, DesiredLink) || NamesNew(digest, e)
  }

  predicate NamesNew(digest: string, e: Entries) {
    DesiredLink in e && e[DesiredLink] == Link(Versioned(digest)) && IntactVersion(e, digest)
  }

  /** The launcher is the old one, or the complete new one. */
  predicate LauncherSafe(base: Entries, launcher: string, e: Entries) {
    SameAt(base, e, LauncherFile) || (LauncherFile in e && e[LauncherFile] == Regular(launcher, true))
  }

  predicate Safe(base: Entries, digest: string, launcher: string, e: Entries) {
    VersionsKept(base, e) && DesiredSafe(base, digest, e) && LauncherSafe(base, launcher, e)
  }

  /** So a link that resolved when the installation began resolves in every safe state. */
  lemma SafeResolves(base: Entries, digest: string, launcher: string, e: Entries)
    requires Resolves(base) && Safe(base, digest, launcher, e)
    ensures Resolves(e)
  {
  }

  /** A launcher that the installer is willing to replace: none, or a regular executable. */
  predicate ReplaceableLauncher(e: Entries) {
    LauncherFile in e ==> e[LauncherFile].Regular? && e[LauncherFile].executable
  }

  /** A desired link that it is willing to replace: none, or one that names a regular version. */
  predicate ReplaceableLink(e: Entries) {
    DesiredLink in e ==>
      && e[DesiredLink].Link? && e[DesiredLink].target.Versioned?
      && e[DesiredLink].target in e && e[e[DesiredLink].target].Regular?
  }

  /** A directory in which an installation of this version meets nothing that it must refuse. */
  predicate Installable(e: Entries, digest: string) {
    && (Versioned(digest) in e ==> IntactVersion(e, digest))
    && ReplaceableLauncher(e) && ReplaceableLink(e)
  }

  // ---- The binary directory -------------------------------------------------------------------------------

  /**
    * The directory under its lock. Each operation does its job or fails, and then it may have had its effect
    * all the same; both are counted. The ghost fields remember the state at the beginning and every state since.
    */
  class BinaryDirectory {
    var entries: Entries
    var failures: nat
    var misreports: nat    // failures of operations that had their effect
    ghost var base: Entries
    var digest: string     // of the version to install
    var launcher: string   // the content of the launcher to install
    ghost var states: set<Entries>

    constructor (entries: Entries)
      ensures this.entries == entries && failures == 0 && misreports == 0
    {
      this.entries, failures, misreports := entries, 0, 0;
      base, digest, launcher, states := entries, "", "", {entries};
    }

    ghost predicate Inv()
      reads this
    {
      entries in states && forall e | e in states :: Safe(base, digest, launcher, e)
    }

    twostate predicate SameGoal()
      reads this
    {
      && base == old(base) && digest == old(digest) && launcher == old(launcher)
      && failures >= old(failures) && misreports >= old(misreports)
    }

    /** An operation that may have failed, and had its effect nevertheless if one more of them did. */
    twostate predicate Tried(next: Entries, ok: bool)
      reads this
    {
      && failures == old(failures) + (if ok then 0 else 1)
      && (ok ==> entries == next)
      && (entries == old(entries) || (entries == next && (ok || misreports > old(misreports))))
    }

    /** An operation with this effect. */
    method Perform(next: Entries) returns (ok: bool)
      requires Inv() && Safe(base, digest, launcher, next)
      modifies this
      ensures Inv() && SameGoal() && old(states) <= states && Tried(next, ok)
    {
      var effective, reported: bool := *, *;
      ok := effective && reported;
      if effective {
        entries := next;
        states := states + {entries};
      }
      if !ok {
        failures := failures + 1;
        misreports := misreports + if effective then 1 else 0;
      }
    }

    /** Any change to a temporary name is safe. */
    lemma TempIsSafe(name: Name, next: Entries)
      requires Inv() && name.Temp? && (forall n | n != name :: SameAt(entries, next, n))
      ensures Safe(base, digest, launcher, next)
    {
      assert Safe(base, digest, launcher, entries);
      assert SameAt(entries, next, DesiredLink) && SameAt(entries, next, Versioned(digest));
      assert SameAt(entries, next, LauncherFile);
      forall n: Name | n in base && n.Versioned? ensures n in next && next[n] == base[n] {
        assert SameAt(entries, next, n);
      }
    }

    method PerformOnTemp(name: Name, next: Entries) returns (ok: bool)
      requires Inv() && name.Temp? && (forall n | n != name :: SameAt(entries, next, n))
      modifies this
      ensures Inv() && SameGoal() && old(states) <= states && Tried(next, ok)
    {
      TempIsSafe(name, next);
      ok := Perform(next);
    }

    /** Only temporary names have changed. */
    ghost predicate OnlyTemps(before: Entries)
      reads this
    {
      forall name: Name | !name.Temp? && (name in before || name in entries) :: SameAt(before, entries, name)
    }

    /** CreateTemp or Symlink at a fresh temporary name; running out of names is a failure too. */
    method CreateTemp(entry: Entry) returns (temp: Option<Name>)
      requires Inv()
      modifies this
      ensures Inv() && SameGoal() && old(states) <= states
      ensures temp.Some? ==>
        && temp.value.Temp? && failures == old(failures)
        && temp.value !in old(entries) && entries == old(entries)[temp.value := entry]
      ensures temp.None? ==> OnlyTemps(old(entries)) && failures == old(failures) + 1
    {
      var id: int := *;
      var name := Temp(if id < 0 then 0 else id);
      if name in entries {
        failures := failures + 1;
        return None;
      }
      var ok := PerformOnTemp(name, entries[name := entry]);
      temp := if ok then Some(name) else None;
    }

    /** writeFull: goes on after short writes. */
    method WriteFull(temp: Name, body: string) returns (ok: bool)
      requires Inv() && temp.Temp? && temp in entries && entries[temp] == Regular("", true)
      modifies this
      ensures Inv() && SameGoal() && old(states) <= states
      ensures temp in entries && entries == old(entries)[temp := entries[temp]]
      ensures ok ==> entries[temp] == Regular(body, true) && failures == old(failures)
      ensures !ok ==> failures > old(failures)
    {
      hide Safe;
      var rest := body;
      ok := true;
      while ok && rest != ""
        invariant Inv() && SameGoal() && old(states) <= states
        invariant temp in entries && entries == old(entries)[temp := entries[temp]]
        invariant entries[temp].Regular? && entries[temp].executable
        invariant ok ==> entries[temp].body + rest == body && failures == old(failures)
        invariant !ok ==> failures > old(failures)
        decreases |rest|, ok
      {
        var accepted: int := *;
        var written := if accepted < 0 then 0 else if accepted > |rest| then |rest| else accepted;
        ok := PerformOnTemp(temp, entries[temp := Regular(entries[temp].body + rest[..written], true)]);
        if ok && written == 0 {
          failures := failures + 1;
          ok := false;
        }
        assert rest[..written] + rest[written..] == rest;
        rest := rest[written..];
      }
    }

    /** os.Remove of a temporary file whose error is ignored; after a rename there is nothing to remove. */
    method Discard(temp: Name)
      requires Inv() && temp.Temp?
      modifies this
      ensures Inv() && SameGoal() && old(states) <= states
      ensures entries == old(entries) || entries == old(entries) - {temp}
    {
      if temp in entries {
        var ok := PerformOnTemp(temp, entries - {temp});
      }
    }

    /** Sync of a file or of the directory. */
    method Sync() returns (ok: bool)
      requires Inv()
      modifies this
      ensures Inv() && SameGoal() && old(states) <= states
      ensures entries == old(entries)
      ensures failures == old(failures) + if ok then 0 else 1
    {
      ok := Perform(entries);
    }

    /** writeInstallerTemp: a complete, synced temporary file, or a failure that leaves at most a temporary file. */
    method WriteTemp(body: string) returns (temp: Option<Name>)
      requires Inv()
      modifies this
      ensures Inv() && SameGoal() && old(states) <= states
      ensures OnlyTemps(old(entries)) && failures >= old(failures)
      ensures temp.Some? ==>
        && temp.value.Temp? && temp.value in entries && entries[temp.value] == Regular(body, true)
        && failures == old(failures)
      ensures temp.None? ==> failures > old(failures)
    {
      temp := CreateTemp(Regular("", true));
      if temp.Some? {
        var ok := WriteFull(temp.value, body);
        if ok {
          ok := Sync();
        }
        if !ok {
          Discard(temp.value);
          temp := None;
        }
      }
    }

    // ---- The steps of an installation -----------------------------------------------------------------------

    /** removeAndSync: both are tried. */
    method RemoveAndSync(name: Name)
      requires Inv() && Safe(base, digest, launcher, entries - {name})
      modifies this
      ensures Inv() && SameGoal() && old(states) <= states
      ensures entries == old(entries) || entries == old(entries) - {name}
      ensures failures >= old(failures) && (failures == old(failures) ==> entries == old(entries) - {name})
    {
      if name in entries {
        var removed := Perform(entries - {name});
      }
      var synced := Sync();
    }

    /** Rename of a temporary file onto a name. */
    method Publish(temp: Name, name: Name) returns (ok: bool)
      requires Inv() && temp.Temp? && !name.Temp? && temp in entries
      requires Safe(base, digest, launcher, (entries - {temp})[name := entries[temp]])
      modifies this
      ensures Inv() && SameGoal() && old(states) <= states
      ensures ok ==> entries == (old(entries) - {temp})[name := old(entries)[temp]] && failures == old(failures)
      ensures !ok ==> failures > old(failures)
      ensures !ok ==>
        || entries == old(entries) || entries == old(entries) - {temp}
        || (misreports > old(misreports) && entries == (old(entries) - {temp})[name := old(entries)[temp]])
    {
      ok := Perform((entries - {temp})[name := entries[temp]]);
      if !ok {
        Discard(temp);
      }
    }

    /** Nothing but temporary names and this one has changed. */
    ghost predicate OnlyChanged(before: Entries, name: Name)
      reads this
    {
      forall n: Name | !n.Temp? && n != name && (n in before || n in entries) :: SameAt(before, entries, n)
    }

    /** Sync, or any other operation that leaves nothing behind and may fail, such as reading a file. */
    method Inspect() returns (ok: bool)
      requires Inv()
      modifies this
      ensures Inv() && SameGoal() && old(states) <= states && entries == old(entries)
      ensures failures == old(failures) + if ok then 0 else 1
    {
      hide Safe;
      ok := Sync();
    }

    /**
      * The version's file is published from a temporary one; a failed sync takes it back
      * (install_host_binaries.go:275-297).
      */
    method PublishVersion(body: string) returns (ok: bool)
      requires Inv() && digest == Digest(body) && Versioned(digest) !in entries && Versioned(digest) !in base
      requires SameAt(base, entries, DesiredLink)
      modifies this
      ensures Inv() && SameGoal() && old(states) <= states && failures >= old(failures)
      ensures OnlyChanged(old(entries), Versioned(digest))
      ensures ok ==> IntactVersion(entries, digest)
      ensures !ok ==> failures > old(failures)
    {
      var temp := WriteTemp(body);
      ok := temp.Some?;
      if ok {
        assert VersionsKept(base, (entries - {temp.value})[Versioned(digest) := entries[temp.value]]);
        ok := Publish(temp.value, Versioned(digest));
        if ok {
          ok := Inspect();
          if !ok {
            assert VersionsKept(base, entries - {Versioned(digest)});
            RemoveAndSync(Versioned(digest));
          }
        }
      }
    }

    /** installVersionedDrive9: an intact version is left alone, and any other file in its place is an error. */
    method InstallVersion(body: string) returns (ok: bool)
      requires Inv() && digest == Digest(body) && entries == base
      modifies this
      ensures Inv() && SameGoal() && old(states) <= states && failures >= old(failures)
      ensures OnlyChanged(old(entries), Versioned(digest))
      ensures ok ==> IntactVersion(entries, digest)
      ensures !ok ==> failures > old(failures) || (Versioned(digest) in base && !IntactVersion(base, digest))
    {
      ok := Inspect();
      if ok {
        if Versioned(digest) in entries {
          ok := IntactVersion(entries, digest);
        } else {
          ok := PublishVersion(body);
        }
      }
    }

    /** restoreRegularDestination. */
    method RestoreLauncher(previous: Option<Entry>)
      requires Inv() && SameAt(base, entries, DesiredLink)
      requires previous == if LauncherFile in base then Some(base[LauncherFile]) else None
      requires previous.Some? ==> previous.value.Regular? && previous.value.executable
      modifies this
      ensures Inv() && SameGoal() && old(states) <= states && failures >= old(failures)
      ensures OnlyChanged(old(entries), LauncherFile)
    {
      if previous.None? {
        RemoveAndSync(LauncherFile);
      } else {
        var temp := WriteTemp(previous.value.body);
        if temp.Some? {
          var restored := Publish(temp.value, LauncherFile);
          if restored {
            var synced := Inspect();
          }
        }
      }
    }

    /** replaceLauncher. */
    method ReplaceLauncher() returns (ok: bool)
      requires Inv() && SameAt(base, entries, DesiredLink) && SameAt(base, entries, LauncherFile)
      modifies this
      ensures Inv() && SameGoal() && old(states) <= states && failures >= old(failures)
      ensures OnlyChanged(old(entries), LauncherFile)
      ensures ok ==> LauncherFile in entries && entries[LauncherFile] == Regular(launcher, true)
      ensures !ok ==> failures > old(failures) || !ReplaceableLauncher(base)
    {
      ok := Inspect();
      var previous := if LauncherFile in entries then Some(entries[LauncherFile]) else None;
      if !ok || (previous.Some? && !(previous.value.Regular? && previous.value.executable)) {
        return false;
      }
      var temp := WriteTemp(launcher);
      ok := temp.Some?;
      if ok {
        ok := Publish(temp.value, LauncherFile);
        if ok {
          ok := Inspect();
          if !ok {
            RestoreLauncher(previous);
          }
        }
      }
    }

    /** restoreDesiredSymlink: when no step of it fails, the link is the old one again. */
    method RestoreDesired(previous: Option<Name>)
      requires Inv() && NamesNew(digest, entries)
      requires previous ==
        if DesiredLink in base && base[DesiredLink].Link? then Some(base[DesiredLink].target) else None
      requires previous.None? ==> DesiredLink !in base
      modifies this
      ensures Inv() && SameGoal() && old(states) <= states && failures >= old(failures)
      ensures failures == old(failures) ==> SameAt(base, entries, DesiredLink)
      ensures OnlyChanged(old(entries), DesiredLink)
    {
      if previous.None? {
        RemoveAndSync(DesiredLink);
      } else {
        var named := Inspect();
        if named {
          var temp := CreateTemp(Link(previous.value));
          if temp.Some? {
            var restored := Publish(temp.value, DesiredLink);
            if restored {
              var synced := Inspect();
            }
          }
        }
      }
    }

    /**
      * Create the link at a temporary name, publish it, and take it back if the sync fails
      * (install_host_binaries.go:445-466).
      */
    method PublishDesired(previous: Option<Name>) returns (ok: bool)
      requires Inv() && IntactVersion(entries, digest) && SameAt(base, entries, DesiredLink)
      requires previous ==
        if DesiredLink in base && base[DesiredLink].Link? then Some(base[DesiredLink].target) else None
      requires previous.None? ==> DesiredLink !in base
      modifies this
      ensures Inv() && SameGoal() && old(states) <= states && failures >= old(failures)
      ensures ok ==> NamesNew(digest, entries)
      ensures !ok && failures <= old(failures) + 1 && misreports == old(misreports) ==>
        SameAt(base, entries, DesiredLink)
      ensures !ok ==> failures > old(failures)
      ensures OnlyChanged(old(entries), DesiredLink)
    {
      ok := Inspect();
      if ok {
        var temp := CreateTemp(Link(Versioned(digest)));
        ok := temp.Some?;
        if ok {
          ok := Publish(temp.value, DesiredLink);
          if ok {
            ok := Inspect();
            if !ok {
              RestoreDesired(previous);
            }
          }
        }
      }
    }

    /** replaceDesiredSymlink: an existing link must name a version that is there. */
    method ReplaceDesired() returns (ok: bool)
      requires Inv() && IntactVersion(entries, digest) && SameAt(base, entries, DesiredLink)
      modifies this
      ensures Inv() && SameGoal() && old(states) <= states && failures >= old(failures)
      ensures ok ==> NamesNew(digest, entries)
      ensures !ok && failures <= old(failures) + 1 && misreports == old(misreports) ==>
        SameAt(base, entries, DesiredLink)
      ensures !ok ==> failures > old(failures) || !ReplaceableLink(old(entries))
      ensures OnlyChanged(old(entries), DesiredLink)
    {
      ok := Inspect();
      if ok {
        if DesiredLink !in entries {
          ok := PublishDesired(None);
        } else {
          var current := entries[DesiredLink];
          ok := && current.Link? && current.target.Versioned?
                && current.target in entries && entries[current.target].Regular?;
          if ok && current.target != Versioned(digest) {
            ok := PublishDesired(Some(current.target));
          }
        }
      }
    }

    /**
      * installHostBinaries under the directory lock. If the desired link resolves to a correctly hashed
      * binary at the beginning, it does so in every state on the way, whatever fails; on success it names
      * the new version; after an error caused by a single failure it is what it was, unless the operation that
      * failed had its effect. Versions that were installed before are untouched throughout, and without failures
      * only a directory that holds something else in one of the three places makes the installation fail.
      */
    method Install(body: string, launcherBody: string) returns (installed: Option<string>)
      modifies this
      ensures Inv() && entries in states && old(entries) in states
      ensures forall e | e in states :: Safe(old(entries), Digest(body), launcherBody, e)
      ensures Resolves(old(entries)) ==> forall e | e in states :: Resolves(e)
      ensures installed.Some? ==>
        && installed.value == Digest(body) && NamesNew(Digest(body), entries)
        && LauncherFile in entries && entries[LauncherFile] == Regular(launcherBody, true)
      ensures installed.None? && failures <= 1 && misreports == 0 ==> SameAt(old(entries), entries, DesiredLink)
      ensures failures == 0 && Installable(old(entries), Digest(body)) ==> installed.Some?
    {
      hide Safe;
      base, digest, launcher, states := entries, Digest(body), launcherBody, {entries};
      failures, misreports := 0, 0;
      InitialIsSafe(entries, digest, launcher);
      var ok := InstallVersion(body);
      ghost var atVersion := entries;
      if ok {
        ok := ReplaceLauncher();
        if ok {
          assert SameAt(atVersion, entries, DesiredLink) && SameAt(atVersion, entries, Versioned(digest));
          assert ReplaceableLink(base) ==> ReplaceableLink(entries) by {
            LinkStaysReplaceable(base, digest, launcher, entries);
          }
          ghost var atLauncher := entries;
          ok := ReplaceDesired();
          assert SameAt(atLauncher, entries, LauncherFile);
        }
      }
      installed := if ok then Some(digest) else None;
      if Resolves(base) {
        forall e | e in states ensures Resolves(e) {
          SafeResolves(base, digest, launcher, e);
        }
      }
    }
  }

  lemma InitialIsSafe(e: Entries, digest: string, launcher: string)
    ensures Safe(e, digest, launcher, e)
  {
  }

  lemma LinkStaysReplaceable(base: Entries, digest: string, launcher: string, e: Entries)
    requires Safe(base, digest, launcher, e) && SameAt(base, e, DesiredLink)
    ensures ReplaceableLink(base) ==> ReplaceableLink(e)
  {
  }
}
