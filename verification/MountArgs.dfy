/** The argv of a mount process (internal/driver/mount_args.go, mount_state.go:284-330). */
module MountArgs {
  import opened Text

  const DIRECT_MOUNT_STRICT := "--direct-mount-strict"
  const SUPERVISE_FOREGROUND := "--supervise-foreground"

  predicate MountFlagArgument(arg: string, name: string) {
    || arg == "-" + name || HasPrefix(arg, "-" + name + "=")
    || arg == "--" + name || HasPrefix(arg, "--" + name + "=")
  }

  /** An argument that makes the supervisor check fail wherever it stands. */
  predicate ConflictsWithSupervisor(arg: string) {
    && arg != SUPERVISE_FOREGROUND
    && (|| MountFlagArgument(arg, "supervise-foreground")
        || MountFlagArgument(arg, "foreground")
        || MountFlagArgument(arg, "supervised")
        || MountFlagArgument(arg, "no-supervise"))
  }

  predicate UsesDirectMountStrict(args: seq<string>) {
    multiset(args)[DIRECT_MOUNT_STRICT] == 1
  }

  predicate UsesInBinarySupervisor(args: seq<string>) {
    && multiset(args)[SUPERVISE_FOREGROUND] == 1
    && forall arg | arg in args :: !ConflictsWithSupervisor(arg)
  }

  method MountArgsUseDirectMountStrict(args: seq<string>) returns (strict: bool)
    ensures strict == UsesDirectMountStrict(args)
  {
    var count := 0;
    for i := 0 to |args|
      invariant count == multiset(args[..i])[DIRECT_MOUNT_STRICT]
    {
      assert args[..i + 1] == args[..i] + [args[i]];
      if args[i] == DIRECT_MOUNT_STRICT {
        count := count + 1;
      }
    }
    assert args[..|args|] == args;
    strict := count == 1;
  }

  method MountArgsUseInBinarySupervisor(args: seq<string>) returns (supervised: bool)
    ensures supervised == UsesInBinarySupervisor(args)
  {
    hide MountFlagArgument;
    var count := 0;
    for i := 0 to |args|
      invariant count == multiset(args[..i])[SUPERVISE_FOREGROUND]
      invariant forall k | 0 <= k < i :: !ConflictsWithSupervisor(args[k])
    {
      assert args[..i + 1] == args[..i] + [args[i]];
      if args[i] == SUPERVISE_FOREGROUND {
        count := count + 1;
      } else if
        || MountFlagArgument(args[i], "supervise-foreground")
        || MountFlagArgument(args[i], "foreground")
        || MountFlagArgument(args[i], "supervised")
        || MountFlagArgument(args[i], "no-supervise")
      {
        assert ConflictsWithSupervisor(args[i]);
        return false;
      }
    }
    assert args[..|args|] == args;
    supervised := count == 1;
  }

  function ToLower(s: string): (r: string)
    ensures |r| == |s|
  {
    seq(|s|, i requires 0 <= i < |s| => if 'A' <= s[i] <= 'Z' then (s[i] as int + 32) as char else s[i])
  }

  function IndexOf(s: string, c: char): (i: nat)
    ensures i <= |s| && c !in s[..i] && (i < |s| ==> s[i] == c)
  {
    if s == "" || s[0] == c then 0 else 1 + IndexOf(s[1..], c)
  }

  const SENSITIVE_KEYS := [
    "api-key", "api_key", "apikey", "token", "access-token", "access_token",
    "password", "passwd", "secret", "credential", "authorization", "x-api-key",
    "drive9-api-key", "drive9_api_key"]

  const SENSITIVE_QUERIES := ["?token=", "&token=", "?api_key=", "&api_key=", "?api-key=", "&api-key="]

  /** argumentMayContainCredential; the results below use it only as a test on one argument. */
  predicate MayContainCredential(arg: string) {
    var lower := ToLower(TrimSpace(arg));
    var key := TrimLeft(lower[..IndexOf(lower, '=')], c => c == '-');
    || HasPrefix(lower, "bearer ")
    || Contains(lower, "drive9_api_key_")
    || (exists name | name in SENSITIVE_KEYS :: key == name || HasSuffix(key, "_" + name))
    || (exists query | query in SENSITIVE_QUERIES :: Contains(lower, query))
  }

  predicate CleanArgument(arg: string) {
    arg != "" && '\0' !in arg && !MayContainCredential(arg)
  }

  /** validateMountStateArgs. */
  predicate ValidMountArgs(args: seq<string>, remoteRoot: string, stagingTarget: string) {
    && |args| >= 4
    && (forall arg | arg in args :: CleanArgument(arg))
    && args[0] == "mount"
    && UsesInBinarySupervisor(args)
    && args[|args| - 2] == ":" + remoteRoot
    && args[|args| - 1] == stagingTarget
  }
}
