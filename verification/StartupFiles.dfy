/**
  * The startup files: written by the driver (internal/driver/mount_lifecycle.go:94-107 and 212-280), read,
  * removed and executed by the launcher (cmd/drive9-csi-launcher/main.go:82-203).
  */
module StartupFiles {
  import opened Text
  import opened MountArgs
  import opened MountRecord
  import opened LaunchRequest

  const MAX_STARTUP_FILE := 0x10_0000
  const MAX_LAUNCHER_INPUT := 0x10_0000

  // ---- The codec ---------------------------------------------------------------------------------------

  function Encoded(values: seq<string>): string {
    if values == [] then "" else values[0] + "\0" + Encoded(values[1..])
  }

  lemma {:induction false} EncodedAppends(values: seq<string>, value: string)
    ensures Encoded(values + [value]) == Encoded(values) + value + "\0"
  {
    if values == [] {
      assert [value][1..] == [];
    } else {
      EncodedAppends(values[1..], value);
      assert (values + [value])[1..] == values[1..] + [value];
    }
  }

  /** encodeNULTerminated. */
  method EncodeNULTerminated(values: seq<string>) returns (body: string)
    ensures body == Encoded(values)
  {
    body := "";
    for i := 0 to |values|
      invariant body == Encoded(values[..i])
    {
      EncodedAppends(values[..i], values[i]);
      assert values[..i + 1] == values[..i] + [values[i]];
      body := body + values[i];
      body := body + "\0";
    }
    assert values[..|values|] == values;
  }

  /** parseNULTerminatedEntries. */
  function ParseEntries(body: string): Option<seq<string>> {
    if body == "" || body[|body| - 1] != '\0' then None
    else Some(Split(body[..|body| - 1], '\0'))
  }

  lemma {:induction false} EncodedIsJoined(values: seq<string>)
    requires values != []
    ensures Encoded(values) == Join(values, '\0') + "\0"
  {
    if |values| > 1 {
      EncodedIsJoined(values[1..]);
    }
  }

  predicate Encodable(values: seq<string>) {
    values != [] && forall value | value in values :: '\0' !in value
  }

  /** Parsing undoes encoding for every non-empty list of NUL-free entries, empty entries included. */
  lemma ParseUndoesEncode(values: seq<string>)
    requires Encodable(values)
    ensures ParseEntries(Encoded(values)) == Some(values)
  {
    EncodedIsJoined(values);
    SplitUndoesJoin(values, '\0');
    var joined := Join(values, '\0');
    assert (joined + "\0")[..|joined|] == joined;
  }

  /** And encoding undoes parsing: the accepted bodies are exactly the encodings of such lists. */
  lemma EncodeUndoesParse(body: string)
    ensures ParseEntries(body).Some? <==> exists values :: Encodable(values) && Encoded(values) == body
    ensures ParseEntries(body).Some? ==>
      Encodable(ParseEntries(body).value) && Encoded(ParseEntries(body).value) == body
  {
    if ParseEntries(body).Some? {
      var raw := body[..|body| - 1];
      var values := Split(raw, '\0');
      JoinUndoesSplit(raw, '\0');
      EncodedIsJoined(values);
      assert body == raw + "\0";
      assert Encodable(values);
    } else if values :| Encodable(values) && Encoded(values) == body {
      ParseUndoesEncode(values);
      assert false;
    }
  }

  // ---- What the launcher accepts -----------------------------------------------------------------------

  predicate HasKey(entry: string) {
    0 < IndexOf(entry, '=') < |entry|
  }

  function KeyOf(entry: string): string {
    entry[..IndexOf(entry, '=')]
  }

  predicate DistinctKeys(entries: seq<string>) {
    forall i, j | 0 <= i < j < |entries| :: KeyOf(entries[i]) != KeyOf(entries[j])
  }

  predicate ValidEnvironment(entries: seq<string>) {
    (forall entry | entry in entries :: HasKey(entry)) && DistinctKeys(entries)
  }

  /** parseLauncherEnvironment: every entry has a key, and no key comes twice. */
  method ParseLauncherEnvironment(body: string) returns (environment: Option<seq<string>>)
    ensures environment == match ParseEntries(body)
                           case None => None
                           case Some(entries) => if ValidEnvironment(entries) then Some(entries) else None
  {
    var parsed := ParseEntries(body);
    if parsed.None? {
      return None;
    }
    var entries := parsed.value;
    var seen: set<string> := {};
    for i := 0 to |entries|
      invariant forall k | 0 <= k < i :: HasKey(entries[k])
      invariant seen == set k | 0 <= k < i :: KeyOf(entries[k])
      invariant forall j, k | 0 <= j < k < i :: KeyOf(entries[j]) != KeyOf(entries[k])
    {
      if !HasKey(entries[i]) {
        return None;
      }
      var key := KeyOf(entries[i]);
      if key in seen {
        assert !DistinctKeys(entries);
        return None;
      }
      seen := seen + {key};
    }
    environment := Some(entries);
  }

  /** parseLauncherArguments. */
  function ParseArguments(body: string): Option<seq<string>> {
    var parsed := ParseEntries(body);
    if parsed.None? || parsed.value[0] == "" then None else parsed
  }

  // ---- What the driver writes ----------------------------------------------------------------------------

  function Assignment(key: string, value: string): string {
    key + "=" + value
  }

  /** hostMountRuntimeEnvironment. */
  function RuntimeEnvironment(): seq<string> {
    [Assignment("HOME", "/var/lib/drive9-csi"), Assignment("TMPDIR", "/run/drive9-csi"),
     Assignment("XDG_RUNTIME_DIR", "/run/drive9-csi"), Assignment("PATH", "/usr/sbin:/usr/bin:/sbin:/bin")]
  }

  function LaunchEnvironment(credentials: Credentials): seq<string> {
    [Assignment("DRIVE9_SERVER", credentials.server), Assignment("DRIVE9_API_KEY", credentials.apiKey)]
    + RuntimeEnvironment()
  }

  function LaunchArguments(binaryPath: string, args: seq<string>): seq<string> {
    [binaryPath] + args
  }

  predicate UsablePath(path: string) {
    path != "" && '\0' !in path
  }

  /** publishStartupFile refuses bodies that the launcher would refuse for their size, and no others. */
  predicate Publishable(body: string) {
    0 < |body| && ByteLength(body) <= MAX_STARTUP_FILE
  }

  lemma {:induction false} KeyEndsAtFirst(key: string, value: string)
    requires '=' !in key
    ensures IndexOf(Assignment(key, value), '=') == |key|
    ensures KeyOf(Assignment(key, value)) == key
  {
    var entry := Assignment(key, value);
    if key == "" {
      assert entry[0] == '=';
    } else {
      assert entry[1..] == Assignment(key[1..], value);
      KeyEndsAtFirst(key[1..], value);
      assert entry[0] == key[0];
    }
    assert entry[..|key|] == key;
  }

  /** The six entries have six different keys, whatever the credentials are. */
  lemma LaunchEnvironmentIsValid(credentials: Credentials)
    ensures ValidEnvironment(LaunchEnvironment(credentials))
  {
    hide Assignment, KeyOf, IndexOf;
    KeyedEntry("DRIVE9_SERVER", credentials.server);
    KeyedEntry("DRIVE9_API_KEY", credentials.apiKey);
    KeyedEntry("HOME", "/var/lib/drive9-csi");
    KeyedEntry("TMPDIR", "/run/drive9-csi");
    KeyedEntry("XDG_RUNTIME_DIR", "/run/drive9-csi");
    KeyedEntry("PATH", "/usr/sbin:/usr/bin:/sbin:/bin");
    assert "HOME"[0] != "PATH"[0];
  }

  lemma KeyedEntry(key: string, value: string)
    requires key != "" && '=' !in key
    ensures KeyOf(Assignment(key, value)) == key && HasKey(Assignment(key, value))
  {
    KeyEndsAtFirst(key, value);
  }

  lemma {:induction false} EncodedIsNotEmpty(values: seq<string>)
    requires values != []
    ensures Encoded(values) != ""
  {
    EncodedIsJoined(values);
  }

  /**
    * Every environment and argv that a valid request can publish is accepted by the launcher and comes
    * back entry for entry: only the size limit, which both sides share, stands between them.
    */
  lemma LauncherAcceptsLaunch(request: LaunchRequest, binaryPath: string)
    requires ValidLaunchRequest(request) && UsablePath(binaryPath)
    ensures var environment := LaunchEnvironment(request.credentials);
      && ParseEntries(Encoded(environment)) == Some(environment) && ValidEnvironment(environment)
      && (Publishable(Encoded(environment)) <==> ByteLength(Encoded(environment)) <= MAX_LAUNCHER_INPUT)
    ensures var argv := LaunchArguments(binaryPath, request.mountArgs);
      && ParseArguments(Encoded(argv)) == Some(argv)
      && (Publishable(Encoded(argv)) <==> ByteLength(Encoded(argv)) <= MAX_LAUNCHER_INPUT)
  {
    var environment := LaunchEnvironment(request.credentials);
    var argv := LaunchArguments(binaryPath, request.mountArgs);
    LaunchEnvironmentIsValid(request.credentials);
    LaunchEntriesAreEncodable(request, binaryPath);
    hide ValidLaunchRequest, LaunchEnvironment, ValidEnvironment;
    ParseUndoesEncode(environment);
    ParseUndoesEncode(argv);
    EncodedIsNotEmpty(environment);
    EncodedIsNotEmpty(argv);
  }

  lemma LaunchEntriesAreEncodable(request: LaunchRequest, binaryPath: string)
    requires ValidLaunchRequest(request) && UsablePath(binaryPath)
    ensures Encodable(LaunchEnvironment(request.credentials))
    ensures Encodable(LaunchArguments(binaryPath, request.mountArgs))
  {
    hide Assignment, ValidLaunchRequest;
    CleanParts(request);
    NULFreeAssignment("DRIVE9_SERVER", request.credentials.server);
    NULFreeAssignment("DRIVE9_API_KEY", request.credentials.apiKey);
    NULFreeAssignment("HOME", "/var/lib/drive9-csi");
    NULFreeAssignment("TMPDIR", "/run/drive9-csi");
    NULFreeAssignment("XDG_RUNTIME_DIR", "/run/drive9-csi");
    NULFreeAssignment("PATH", "/usr/sbin:/usr/bin:/sbin:/bin");
  }

  lemma CleanParts(request: LaunchRequest)
    requires ValidLaunchRequest(request)
    ensures '\0' !in request.credentials.server && '\0' !in request.credentials.apiKey
    ensures forall arg | arg in request.mountArgs :: '\0' !in arg
  {
    hide UsesInBinarySupervisor, MayContainCredential, TrimASCII, NamesServer;
  }

  lemma NULFreeAssignment(key: string, value: string)
    requires '\0' !in key && '\0' !in value
    ensures '\0' !in Assignment(key, value)
  {
  }

  // ---- The launcher ----------------------------------------------------------------------------------------

  datatype Input = RegularFile(body: string) | NotRegular

  datatype Execution = Execution(argv: seq<string>, environment: seq<string>)

  /** The file system and the exec call of one launcher process; on a reliable one every operation does its job. */
  class LauncherRuntime {
    const reliable: bool
    var files: map<string, Input>
    var executed: Option<Execution>

    constructor (files: map<string, Input>, reliable: bool)
      ensures this.files == files && executed.None? && this.reliable == reliable
    {
      this.files, executed, this.reliable := files, None, reliable;
    }

    /** readLauncherInput. */
    method ReadInput(path: string) returns (body: Option<string>)
      ensures body.Some? ==>
        path in files && files[path] == RegularFile(body.value) && ByteLength(body.value) <= MAX_LAUNCHER_INPUT
      ensures reliable && path in files && files[path].RegularFile? ==>
        (ByteLength(files[path].body) <= MAX_LAUNCHER_INPUT ==> body.Some?)
    {
      var fails: bool := *;
      body := if (fails && !reliable) || path !in files then None
              else match files[path]
                   case NotRegular => None
                   case RegularFile(text) => if ByteLength(text) <= MAX_LAUNCHER_INPUT then Some(text) else None;
    }

    /** Remove; a missing file is no error. */
    method Remove(path: string) returns (ok: bool)
      modifies this`files
      ensures files == old(files) || files == old(files) - {path}
      ensures ok ==> path !in files
      ensures reliable ==> ok
    {
      var effective, reported: bool := *, *;
      if effective || reliable {
        files := files - {path};
      }
      ok := (effective && reported) || reliable || path !in files;
    }

    /** removeLauncherInputs: the second removal is tried whatever happens to the first. */
    method RemoveInputs(first: string, second: string) returns (ok: bool)
      modifies this`files
      ensures files.Keys <= old(files).Keys
      ensures ok ==> first !in files && second !in files
      ensures reliable ==> ok
    {
      var a := Remove(first);
      var b := Remove(second);
      ok := a && b;
    }

    /**
      * runLauncher. Nothing is executed before both inputs are gone, and what is executed is what they
      * encoded, entry for entry; on a reliable runtime that is every valid pair of inputs.
      */
    method Run(envPath: string, argsPath: string) returns (ok: bool)
      requires executed.None?
      modifies this
      ensures ok <==> executed.Some?
      ensures executed.Some? ==>
        && envPath !in files && argsPath !in files
        && Executes(executed.value, old(files), envPath, argsPath)
      ensures forall e: Execution | reliable && Executes(e, old(files), envPath, argsPath) :: executed == Some(e)
    {
      ok := false;
      if envPath == argsPath {
        return;
      }
      var envBody := ReadInput(envPath);
      if envBody.None? {
        return;
      }
      var argsBody := ReadInput(argsPath);
      if argsBody.None? {
        var cleaned := Remove(envPath);
        return;
      }
      var removed := RemoveInputs(envPath, argsPath);
      if !removed {
        return;
      }
      var environment := ParseLauncherEnvironment(envBody.value);
      if environment.None? {
        return;
      }
      var argv := ParseArguments(argsBody.value);
      if argv.None? {
        return;
      }
      var fails: bool := *;
      if !fails || reliable {
        executed := Some(Execution(argv.value, environment.value));
        ok := true;
      }
    }
  }

  /** Two different regular files within the limit encode exactly this execution. */
  predicate Executes(e: Execution, files: map<string, Input>, envPath: string, argsPath: string) {
    && envPath != argsPath && envPath in files && argsPath in files
    && files[envPath].RegularFile? && ByteLength(files[envPath].body) <= MAX_LAUNCHER_INPUT
    && files[argsPath].RegularFile? && ByteLength(files[argsPath].body) <= MAX_LAUNCHER_INPUT
    && ParseEntries(files[envPath].body) == Some(e.environment) && ValidEnvironment(e.environment)
    && ParseArguments(files[argsPath].body) == Some(e.argv)
  }

  /** End to end: the files that a launch publishes make a reliable launcher execute exactly the launch. */
  lemma LaunchIsExecuted(
      request: LaunchRequest, binaryPath: string, files: map<string, Input>, envPath: string, argsPath: string
  )
    requires ValidLaunchRequest(request) && UsablePath(binaryPath)
    requires envPath != argsPath && envPath in files && argsPath in files
    requires var body := Encoded(LaunchEnvironment(request.credentials));
      Publishable(body) && files[envPath] == RegularFile(body)
    requires var body := Encoded(LaunchArguments(binaryPath, request.mountArgs));
      Publishable(body) && files[argsPath] == RegularFile(body)
    ensures Executes(Execution(LaunchArguments(binaryPath, request.mountArgs), LaunchEnvironment(request.credentials)),
              files, envPath, argsPath)
  {
    hide ValidLaunchRequest, LaunchEnvironment, ValidEnvironment, LaunchArguments;
    LauncherAcceptsLaunch(request, binaryPath);
  }
}
