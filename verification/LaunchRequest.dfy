/** Requests to launch a mount and their credentials (internal/driver/mount_lifecycle.go:142-202). */
module LaunchRequest {
  import opened Text
  import opened RemotePath
  import opened MountArgs
  import opened MountRecord

  datatype Credentials = Credentials(server: string, apiKey: string)

  datatype LaunchRequest = LaunchRequest(
    volumeID: VolumeID,
    remoteRoot: string,
    stagingTarget: Target,
    credentials: Credentials,
    mountArgs: seq<string>,
    reason: Reason,
    fallbackBinaryPath: BinaryPath,
    fallbackMountArgs: seq<string>)

  predicate IsASCIISpace(c: char) {
    c == ' ' || '\t' <= c <= '\r'
  }

  /** trimASCIIWhitespace. */
  function TrimASCII(s: string): string {
    TrimRight(TrimLeft(s, IsASCIISpace), IsASCIISpace)
  }

  predicate ValidCredentials(c: Credentials) {
    && '\0' !in c.server && '\0' !in c.apiKey
    && c.server != "" && c.apiKey != ""
    && TrimASCII(c.server) == c.server && TrimASCII(c.apiKey) == c.apiKey
  }

  predicate NamesServerAt(args: seq<string>, server: string, i: nat) {
    i + 1 < |args| && args[i] == "--server" && args[i + 1] == server
  }

  /** mountArgsContainServer. */
  predicate NamesServer(args: seq<string>, server: string) {
    exists i | 0 <= i < |args| :: NamesServerAt(args, server, i)
  }

  /** mountStateServer: the argument after the first --server. */
  function ServerOf(args: seq<string>): Option<string> {
    if |args| < 2 then None
    else if args[0] == "--server" then Some(args[1])
    else ServerOf(args[1..])
  }

  /** validateMountLaunchRequest. */
  predicate ValidLaunchRequest(r: LaunchRequest) {
    && ValidCredentials(r.credentials)
    && r.volumeID.VolumeID?
    && CanonicalRemoteRoot(r.remoteRoot) && CanonicalStagingTarget(r.stagingTarget)
    && r.reason != NoReason
    && ValidMountArgs(r.mountArgs, r.remoteRoot, r.stagingTarget)
    && NamesServer(r.mountArgs, r.credentials.server)
    && (r.reason == Stage ==> r.fallbackBinaryPath.NoBinary? && r.fallbackMountArgs == [])
    && (r.fallbackBinaryPath.NoBinary? <==> r.fallbackMountArgs == [])
    && (r.fallbackBinaryPath.NoBinary? ||
        (r.fallbackBinaryPath.ContentAddressed? &&
         ValidMountArgs(r.fallbackMountArgs, r.remoteRoot, r.stagingTarget)))
  }

  /** The request that validateStartingCredentials rebuilds from a starting record. */
  function RequestOf(s: MountState, credentials: Credentials): LaunchRequest {
    LaunchRequest(s.volumeID, s.remoteRoot, s.stagingTarget, credentials, s.mountArgs, s.reason,
      s.fallbackBinaryPath, if s.fallbackBinaryPath.NoBinary? then [] else s.fallbackMountArgs)
  }

  /** validateStartingCredentials, once there are credentials. */
  predicate CredentialsMatch(s: MountState, credentials: Credentials) {
    ServerOf(s.mountArgs) == Some(credentials.server) && ValidLaunchRequest(RequestOf(s, credentials))
  }

  lemma {:induction false} ServerIsNamed(args: seq<string>)
    ensures match ServerOf(args)
            case Some(server) => NamesServer(args, server)
            case None => forall server :: !NamesServer(args, server)
  {
    if |args| >= 2 {
      if args[0] == "--server" {
        assert NamesServerAt(args, args[1], 0);
      } else {
        ServerIsNamed(args[1..]);
        forall server, i: nat | NamesServerAt(args, server, i)
          ensures NamesServer(args[1..], server)
        {
          assert NamesServerAt(args[1..], server, i - 1);
        }
        if ServerOf(args).Some? {
          var i: nat :| i < |args[1..]| && NamesServerAt(args[1..], ServerOf(args).value, i);
          assert NamesServerAt(args, ServerOf(args).value, i + 1);
        }
      }
    }
  }

  /** So a valid starting record can be resumed with any clean credentials for the server that its argv names first. */
  lemma ResumableIff(s: MountState, credentials: Credentials)
    requires ValidMountState(s) && s.phase == Starting
    ensures CredentialsMatch(s, credentials) <==>
      ServerOf(s.mountArgs) == Some(credentials.server) && ValidCredentials(credentials)
  {
    hide ValidMountArgs, CanonicalRemoteRoot, CanonicalStagingTarget, ValidCredentials;
    ServerIsNamed(s.mountArgs);
  }
}
