/** Path policies and the argv that carries them (internal/driver/mount_policy.go, mount_args.go:31-73). */
module PathPolicy {
  import opened Text
  import opened MountArgs

  const LOCAL_ONLY := "--local-only="
  const REMOTE_ONLY := "--remote-only="
  const APPEND_LOG := "--append-log="

  const LOCAL_PARAMETER := "localOnlyPatterns"
  const REMOTE_PARAMETER := "remoteOnlyPatterns"
  const APPEND_PARAMETER := "appendLogPatterns"
  const PROFILE_PARAMETER := "profile"

  const MAX_ARGUMENT_BYTES := 0x1_0000
  const MAX_STATE := 0x10_0000
  const MAX_POLICY_STATE := MAX_STATE / 4

  datatype Policy = Policy(localOnly: seq<string>, remoteOnly: seq<string>, appendLog: seq<string>)

  // ---- Patterns ------------------------------------------------------------------------------------------

  predicate IsControl(c: char) {
    '\U{1}' <= c <= '\U{1f}' && c != '\n' && c != '\t' && c != '\r'
  }

  function TrimSlashes(s: string): string {
    TrimRight(TrimLeft(s, c => c == '/'), c => c == '/')
  }

  /** validateMountPolicyPattern. */
  predicate ValidPattern(prefix: string, pattern: string) {
    && '\0' !in pattern && '\\' !in pattern
    && (forall c | c in pattern :: !IsControl(c))
    && (forall segment | segment in Split(TrimSlashes(pattern), '/') :: segment != "." && segment != "..")
    && !MayContainCredential(prefix + pattern)
  }

  /** What normalisation keeps of some lines, given what it has kept before them. */
  function KeptPatterns(prefix: string, lines: seq<string>, kept: seq<string>): Option<seq<string>> {
    if lines == [] then Some(kept)
    else
      var pattern := TrimSpace(lines[0]);
      if pattern == "" then KeptPatterns(prefix, lines[1..], kept)
      else if !ValidPattern(prefix, pattern) then None
      else KeptPatterns(prefix, lines[1..], if pattern in kept then kept else kept + [pattern])
  }

  function NormalizedParameter(prefix: string, raw: string): Option<seq<string>> {
    KeptPatterns(prefix, Split(raw, '\n'), [])
  }

  /** normalizeMountPolicyParameter. */
  method NormalizeParameter(prefix: string, raw: string) returns (patterns: Option<seq<string>>)
    ensures patterns == NormalizedParameter(prefix, raw)
  {
    hide ValidPattern, TrimSpace;
    var lines := Split(raw, '\n');
    var kept: seq<string> := [];
    var seen: set<string> := {};
    for i := 0 to |lines|
      invariant seen == set p | p in kept
      invariant KeptPatterns(prefix, lines[i..], kept) == NormalizedParameter(prefix, raw)
    {
      var pattern := TrimSpace(lines[i]);
      assert lines[i..][0] == lines[i] && lines[i..][1..] == lines[i + 1..];
      if pattern == "" {
        continue;
      }
      if !ValidPattern(prefix, pattern) {
        return None;
      }
      if pattern !in seen {
        seen := seen + {pattern};
        kept := kept + [pattern];
      }
    }
    patterns := Some(kept);
  }

  /** A list as normalisation leaves it: distinct, trimmed, single-line, valid patterns. */
  predicate Normal(prefix: string, patterns: seq<string>) {
    && (forall p | p in patterns :: p != "" && TrimSpace(p) == p && '\n' !in p && ValidPattern(prefix, p))
    && (forall i, j | 0 <= i < j < |patterns| :: patterns[i] != patterns[j])
  }

  lemma TrimSpaceIsInside(s: string)
    ensures TrimSpace(TrimSpace(s)) == TrimSpace(s)
    ensures forall c | c in TrimSpace(s) :: c in s
  {
    var left := TrimLeft(s, IsSpace);
    var both := TrimRight(left, IsSpace);
    TrimLeftCuts(s, IsSpace);
    TrimRightCuts(left, IsSpace);
    assert both == left[..|both|] && left == s[|s| - |left|..];
    if both != "" {
      assert both[0] == left[0];
    }
  }

  lemma {:induction false} KeptAreNormal(prefix: string, lines: seq<string>, kept: seq<string>)
    requires Normal(prefix, kept) && FreeOf(lines, '\n')
    ensures match KeptPatterns(prefix, lines, kept)
            case None => true
            case Some(patterns) => Normal(prefix, patterns)
  {
    hide ValidPattern, TrimSpace;
    if lines != [] {
      var pattern := TrimSpace(lines[0]);
      TrimSpaceIsInside(lines[0]);
      assert FreeOf(lines[1..], '\n');
      KeptAreNormal(prefix, lines[1..], kept);
      if pattern != "" && ValidPattern(prefix, pattern) && pattern !in kept {
        KeptAreNormal(prefix, lines[1..], kept + [pattern]);
      }
    }
  }

  /** Normalisation leaves normal lists. */
  lemma NormalizedIsNormal(prefix: string, raw: string)
    ensures match NormalizedParameter(prefix, raw)
            case None => true
            case Some(patterns) => Normal(prefix, patterns)
  {
    hide ValidPattern;
    JoinUndoesSplit(raw, '\n');
    KeptAreNormal(prefix, Split(raw, '\n'), []);
  }

  lemma {:induction false} NormalAreKept(prefix: string, patterns: seq<string>, kept: seq<string>)
    requires Normal(prefix, kept + patterns)
    ensures KeptPatterns(prefix, patterns, kept) == Some(kept + patterns)
  {
    hide ValidPattern, TrimSpace;
    if patterns == [] {
      assert kept + patterns == kept;
    } else {
      var all := kept + patterns;
      assert all[|kept|] == patterns[0];
      forall i | 0 <= i < |kept| ensures kept[i] != patterns[0] {
        assert all[i] == kept[i];
      }
      assert kept + [patterns[0]] + patterns[1..] == all;
      NormalAreKept(prefix, patterns[1..], kept + [patterns[0]]);
    }
  }

  /** Exactly the normal lists come back unchanged from the text that lists them line by line. */
  lemma NormalizedOfJoinedIff(prefix: string, patterns: seq<string>)
    ensures NormalizedParameter(prefix, Join(patterns, '\n')) == Some(patterns) <==> Normal(prefix, patterns)
  {
    hide ValidPattern, TrimSpace, KeptPatterns;
    NormalizedIsNormal(prefix, Join(patterns, '\n'));
    if Normal(prefix, patterns) {
      if patterns == [] {
        NothingIsKept(prefix);
      } else {
        forall i | 0 <= i < |patterns| ensures '\n' !in patterns[i] {
          assert patterns[i] in patterns;
        }
        SplitUndoesJoin(patterns, '\n');
        assert [] + patterns == patterns;
        NormalAreKept(prefix, patterns, []);
      }
    }
  }

  lemma NothingIsKept(prefix: string)
    ensures NormalizedParameter(prefix, "") == Some([])
  {
    hide ValidPattern;
    assert Split("", '\n') == [""];
    assert TrimSpace("") == "";
    assert KeptPatterns(prefix, [""], []) == KeptPatterns(prefix, [""][1..], []);
  }

  // ---- The arguments of a policy ---------------------------------------------------------------------------

  function Prefixed(prefix: string, patterns: seq<string>): (args: seq<string>)
    ensures |args| == |patterns|
    ensures forall i | 0 <= i < |patterns| :: args[i] == prefix + patterns[i]
  {
    if patterns == [] then [] else [prefix + patterns[0]] + Prefixed(prefix, patterns[1..])
  }

  function PolicyArgs(policy: Policy): seq<string> {
    Prefixed(LOCAL_ONLY, policy.localOnly) + Prefixed(REMOTE_ONLY, policy.remoteOnly)
    + Prefixed(APPEND_LOG, policy.appendLog)
  }

  lemma {:induction false} PrefixedAppends(prefix: string, patterns: seq<string>, pattern: string)
    ensures Prefixed(prefix, patterns + [pattern]) == Prefixed(prefix, patterns) + [prefix + pattern]
  {
  }

  /** One of the loops that append a pattern argument to the argv (mount_args.go:59-67). */
  method AppendPatterns(args: seq<string>, prefix: string, patterns: seq<string>) returns (all: seq<string>)
    ensures all == args + Prefixed(prefix, patterns)
  {
    all := args;
    for i := 0 to |patterns|
      invariant all == args + Prefixed(prefix, patterns[..i])
    {
      PrefixedAppends(prefix, patterns[..i], patterns[i]);
      assert patterns[..i + 1] == patterns[..i] + [patterns[i]];
      all := all + [prefix + patterns[i]];
    }
    assert patterns[..|patterns|] == patterns;
  }

  /** The three loops in order: drive9MountArgs puts the policy behind the arguments it has so far. */
  method AppendPolicy(args: seq<string>, policy: Policy) returns (all: seq<string>)
    ensures all == args + PolicyArgs(policy)
  {
    hide Prefixed;
    all := AppendPatterns(args, LOCAL_ONLY, policy.localOnly);
    all := AppendPatterns(all, REMOTE_ONLY, policy.remoteOnly);
    all := AppendPatterns(all, APPEND_LOG, policy.appendLog);
  }

  // ---- Acceptance ------------------------------------------------------------------------------------------

  /** Every argument with its terminator. */
  function ArgumentBytes(args: seq<string>): nat {
    if args == [] then 0 else ByteLength(args[0]) + 1 + ArgumentBytes(args[1..])
  }

  /** The length of a character in the JSON that the driver writes. */
  function JSONChar(c: char): (n: nat)
    ensures n <= 6
  {
    if c == '"' || c == '\\' || c == '\n' || c == '\r' || c == '\t' || c == '\U{8}' || c == '\U{c}' then 2
    else if c < ' ' || c == '<' || c == '>' || c == '&' || c == '\U{2028}' || c == '\U{2029}' then 6
    else Bytes(c)
  }

  function JSONChars(s: string): nat {
    if s == "" then 0 else JSONChar(s[0]) + JSONChars(s[1..])
  }

  /** The strings of an array with their quotes. */
  function JSONStrings(args: seq<string>): nat {
    if args == [] then 0 else JSONChars(args[0]) + 2 + JSONStrings(args[1..])
  }

  /** json.Marshal of a list. */
  function CompactLength(args: seq<string>): nat {
    2 + JSONStrings(args) + if args == [] then 0 else |args| - 1
  }

  /** json.MarshalIndent of a list that is a field of the record: one line of its own for each string. */
  function IndentedLength(args: seq<string>): nat {
    2 + JSONStrings(args) + if args == [] then 0 else 6 * |args| + 2
  }

  predicate Overlay(profile: string) {
    profile != "none" && profile != "interactive"
  }

  /** validateMountPathPolicyContract. */
  predicate ValidContract(profile: string, policy: Policy) {
    PolicyArgs(policy) == [] ||
    (&& (policy.localOnly + policy.remoteOnly != [] ==> Overlay(profile))
     && ArgumentBytes(PolicyArgs(policy)) <= MAX_ARGUMENT_BYTES
     && CompactLength(PolicyArgs(policy)) <= MAX_POLICY_STATE)
  }

  function Value(values: map<string, string>, key: string): string {
    if key in values then values[key] else ""
  }

  function Profile(values: map<string, string>): string {
    TrimSpace(Value(values, PROFILE_PARAMETER))
  }

  function RawBytes(values: map<string, string>): nat {
    ByteLength(Value(values, LOCAL_PARAMETER)) + ByteLength(Value(values, REMOTE_PARAMETER))
    + ByteLength(Value(values, APPEND_PARAMETER))
  }

  function Combined(
    localOnly: Option<seq<string>>, remoteOnly: Option<seq<string>>, appendLog: Option<seq<string>>
  ): Option<Policy> {
    if localOnly.None? || remoteOnly.None? || appendLog.None? then None
    else Some(Policy(localOnly.value, remoteOnly.value, appendLog.value))
  }

  function ParsedPolicy(values: map<string, string>): Option<Policy> {
    Combined(
      NormalizedParameter(LOCAL_ONLY, Value(values, LOCAL_PARAMETER)),
      NormalizedParameter(REMOTE_ONLY, Value(values, REMOTE_PARAMETER)),
      NormalizedParameter(APPEND_LOG, Value(values, APPEND_PARAMETER)))
  }

  /** effectiveMountPathPolicy. */
  function EffectivePolicy(values: map<string, string>): Option<Policy> {
    var policy := ParsedPolicy(values);
    if RawBytes(values) > MAX_ARGUMENT_BYTES || policy.None? || !ValidContract(Profile(values), policy.value) then None
    else policy
  }

  /** The policies that some volume parameters with this profile are accepted as. */
  predicate Accepted(profile: string, policy: Policy) {
    && Normal(LOCAL_ONLY, policy.localOnly) && Normal(REMOTE_ONLY, policy.remoteOnly)
    && Normal(APPEND_LOG, policy.appendLog)
    && ValidContract(profile, policy)
  }

  /** The list is at its key, line by line; an empty one has left the key alone. */
  predicate Carries(written: map<string, string>, context: map<string, string>, key: string, patterns: seq<string>) {
    if patterns != [] then key in written && written[key] == Join(patterns, '\n')
    else SameAt(written, context, key)
  }

  predicate SameAt(written: map<string, string>, context: map<string, string>, key: string) {
    (key in written <==> key in context) && (key in context ==> written[key] == context[key])
  }

  /**
    * addToVolumeContext. Each list is at its own key and every other key is left alone, so an accepted policy
    * is read back from the context exactly as it was.
    */
  method AddToVolumeContext(policy: Policy, context: map<string, string>) returns (written: map<string, string>)
    ensures Carries(written, context, LOCAL_PARAMETER, policy.localOnly)
    ensures Carries(written, context, REMOTE_PARAMETER, policy.remoteOnly)
    ensures Carries(written, context, APPEND_PARAMETER, policy.appendLog)
    ensures forall key | key !in {LOCAL_PARAMETER, REMOTE_PARAMETER, APPEND_PARAMETER} :: SameAt(written, context, key)
    ensures WithoutPolicy(context) && Accepted(Profile(context), policy) ==> EffectivePolicy(written) == Some(policy)
  {
    hide Accepted, EffectivePolicy, Profile;
    written := context;
    if policy.localOnly != [] {
      written := written[LOCAL_PARAMETER := Join(policy.localOnly, '\n')];
    }
    if policy.remoteOnly != [] {
      written := written[REMOTE_PARAMETER := Join(policy.remoteOnly, '\n')];
    }
    if policy.appendLog != [] {
      written := written[APPEND_PARAMETER := Join(policy.appendLog, '\n')];
    }
    if WithoutPolicy(context) && Accepted(Profile(context), policy) {
      PolicyIsFixedPoint(policy, context);
    }
  }

  function WithList(context: map<string, string>, parameter: string, patterns: seq<string>): map<string, string> {
    if patterns == [] then context else context[parameter := Join(patterns, '\n')]
  }

  function WithPolicy(policy: Policy, context: map<string, string>): map<string, string> {
    WithList(WithList(WithList(context, LOCAL_PARAMETER, policy.localOnly),
        REMOTE_PARAMETER, policy.remoteOnly), APPEND_PARAMETER, policy.appendLog)
  }

  predicate WithoutPolicy(context: map<string, string>) {
    LOCAL_PARAMETER !in context && REMOTE_PARAMETER !in context && APPEND_PARAMETER !in context
  }

  lemma {:induction false} JoinedBytes(prefix: string, patterns: seq<string>)
    ensures ByteLength(Join(patterns, '\n')) <= ArgumentBytes(Prefixed(prefix, patterns))
  {
    if patterns != [] {
      ByteLengthOfConcat(prefix, patterns[0]);
      JoinedBytes(prefix, patterns[1..]);
      assert Prefixed(prefix, patterns)[1..] == Prefixed(prefix, patterns[1..]);
      if |patterns| > 1 {
        ByteLengthOfConcat(patterns[0] + ['\n'], Join(patterns[1..], '\n'));
        ByteLengthOfConcat(patterns[0], ['\n']);
        assert ['\n'][1..] == "";
      }
    }
  }

  lemma {:induction false} ArgumentBytesOfConcat(a: seq<string>, b: seq<string>)
    ensures ArgumentBytes(a + b) == ArgumentBytes(a) + ArgumentBytes(b)
  {
    if a == [] {
      assert a + b == b;
    } else {
      ArgumentBytesOfConcat(a[1..], b);
      assert (a + b)[1..] == a[1..] + b;
    }
  }

  lemma PolicyTextIsSmall(policy: Policy)
    ensures ByteLength(Join(policy.localOnly, '\n')) + ByteLength(Join(policy.remoteOnly, '\n'))
            + ByteLength(Join(policy.appendLog, '\n')) <= ArgumentBytes(PolicyArgs(policy))
  {
    hide Prefixed;
    JoinedBytes(LOCAL_ONLY, policy.localOnly);
    JoinedBytes(REMOTE_ONLY, policy.remoteOnly);
    JoinedBytes(APPEND_LOG, policy.appendLog);
    ArgumentBytesOfConcat(Prefixed(LOCAL_ONLY, policy.localOnly), Prefixed(REMOTE_ONLY, policy.remoteOnly));
    ArgumentBytesOfConcat(Prefixed(LOCAL_ONLY, policy.localOnly) + Prefixed(REMOTE_ONLY, policy.remoteOnly),
      Prefixed(APPEND_LOG, policy.appendLog));
  }

  /** What is accepted is normal, whatever the parameters looked like. */
  lemma EffectiveIsAccepted(values: map<string, string>)
    ensures match EffectivePolicy(values)
            case None => true
            case Some(policy) => Accepted(Profile(values), policy)
  {
    hide NormalizedParameter, Normal, ValidContract, RawBytes, Profile, Value;
    ParsedIsNormal(Value(values, LOCAL_PARAMETER), Value(values, REMOTE_PARAMETER), Value(values, APPEND_PARAMETER));
  }

  lemma ParsedIsNormal(localOnly: string, remoteOnly: string, appendLog: string)
    ensures match Combined(NormalizedParameter(LOCAL_ONLY, localOnly), NormalizedParameter(REMOTE_ONLY, remoteOnly),
                    NormalizedParameter(APPEND_LOG, appendLog))
            case None => true
            case Some(policy) =>
              && Normal(LOCAL_ONLY, policy.localOnly) && Normal(REMOTE_ONLY, policy.remoteOnly)
              && Normal(APPEND_LOG, policy.appendLog)
  {
    hide NormalizedParameter, Normal;
    NormalizedIsNormal(LOCAL_ONLY, localOnly);
    NormalizedIsNormal(REMOTE_ONLY, remoteOnly);
    NormalizedIsNormal(APPEND_LOG, appendLog);
  }

  /** Re-reading the volume context that carries an accepted policy, with the same profile, yields it unchanged. */
  lemma PolicyIsFixedPoint(policy: Policy, context: map<string, string>)
    requires WithoutPolicy(context) && Accepted(Profile(context), policy)
    ensures EffectivePolicy(WithPolicy(policy, context)) == Some(policy)
  {
    hide NormalizedParameter, Normal, ByteLength, TrimSpace, PolicyArgs;
    var values := WithPolicy(policy, context);
    assert Value(values, LOCAL_PARAMETER) == Join(policy.localOnly, '\n');
    assert Value(values, REMOTE_PARAMETER) == Join(policy.remoteOnly, '\n');
    assert Value(values, APPEND_PARAMETER) == Join(policy.appendLog, '\n');
    assert Profile(values) == Profile(context);
    NormalizedOfJoinedIff(LOCAL_ONLY, policy.localOnly);
    NormalizedOfJoinedIff(REMOTE_ONLY, policy.remoteOnly);
    NormalizedOfJoinedIff(APPEND_LOG, policy.appendLog);
    PolicyTextIsSmall(policy);
    if PolicyArgs(policy) == [] {
      assert ArgumentBytes(PolicyArgs(policy)) == 0;
    }
  }

  // ---- Non-interference ----------------------------------------------------------------------------------

  /** An argument that argv validation, the supervisor check and the strict-flag count all pass over. */
  predicate Harmless(arg: string) {
    CleanArgument(arg) && arg != DIRECT_MOUNT_STRICT && arg != SUPERVISE_FOREGROUND && !ConflictsWithSupervisor(arg)
  }

  predicate PolicyPrefix(prefix: string) {
    prefix == LOCAL_ONLY || prefix == REMOTE_ONLY || prefix == APPEND_LOG
  }

  /** No flag of the supervisor or of strict mounting begins like a policy argument. */
  lemma PolicyPrefixDiffers(prefix: string, pattern: string)
    requires PolicyPrefix(prefix)
    ensures !ConflictsWithSupervisor(prefix + pattern)
    ensures prefix + pattern != DIRECT_MOUNT_STRICT && prefix + pattern != SUPERVISE_FOREGROUND
  {
    hide MountFlagArgument, HasPrefix;
    var arg := prefix + pattern;
    PolicyPrefixStarts(prefix);
    assert arg[..2] == "--" && arg[2] == prefix[2];
    ThirdDiffers(arg, "supervise-foreground");
    ThirdDiffers(arg, "foreground");
    ThirdDiffers(arg, "supervised");
    ThirdDiffers(arg, "no-supervise");
    assert DIRECT_MOUNT_STRICT[2] == 'd' && SUPERVISE_FOREGROUND[2] == 's';
  }

  lemma PolicyPrefixStarts(prefix: string)
    requires PolicyPrefix(prefix)
    ensures |prefix| >= 13 && prefix[..2] == "--" && prefix[2] in ['l', 'r', 'a'] && '\0' !in prefix
  {
  }

  lemma PrefixCharAt(s: string, prefix: string, i: nat)
    requires HasPrefix(s, prefix) && i < |prefix|
    ensures s[i] == prefix[i]
  {
    assert s[..|prefix|][i] == s[i];
  }

  lemma ThirdDiffers(arg: string, name: string)
    requires |arg| > 2 && arg[..2] == "--" && |name| > 1 && name[0] != '-' && arg[2] != name[0]
    ensures !MountFlagArgument(arg, name)
  {
    assert arg[0] == arg[..2][0] && arg[1] == arg[..2][1];
    assert ("-" + name)[1] == name[0] && ("--" + name)[2] == name[0];
    assert ("-" + name + "=")[1] == name[0] && ("--" + name + "=")[2] == name[0];
    if HasPrefix(arg, "-" + name + "=") {
      PrefixCharAt(arg, "-" + name + "=", 1);
    }
    if HasPrefix(arg, "--" + name + "=") {
      PrefixCharAt(arg, "--" + name + "=", 2);
    }
  }

  lemma PatternIsClean(prefix: string, pattern: string)
    requires PolicyPrefix(prefix) && ValidPattern(prefix, pattern)
    ensures CleanArgument(prefix + pattern)
  {
    hide MayContainCredential, IsControl, TrimSlashes, Split;
    PolicyPrefixStarts(prefix);
  }

  lemma PrefixedAreHarmless(prefix: string, patterns: seq<string>)
    requires PolicyPrefix(prefix) && Normal(prefix, patterns)
    ensures forall arg | arg in Prefixed(prefix, patterns) :: Harmless(arg)
  {
    hide ConflictsWithSupervisor, CleanArgument, ValidPattern, TrimSpace;
    forall i | 0 <= i < |patterns| ensures Harmless(prefix + patterns[i]) {
      PolicyPrefixDiffers(prefix, patterns[i]);
      assert patterns[i] in patterns;
      PatternIsClean(prefix, patterns[i]);
    }
  }

  lemma PolicyArgsAreHarmless(profile: string, policy: Policy)
    requires Accepted(profile, policy)
    ensures forall arg | arg in PolicyArgs(policy) :: Harmless(arg)
  {
    hide Harmless, Normal, ValidContract, Prefixed;
    PrefixedAreHarmless(LOCAL_ONLY, policy.localOnly);
    PrefixedAreHarmless(REMOTE_ONLY, policy.remoteOnly);
    PrefixedAreHarmless(APPEND_LOG, policy.appendLog);
  }

  lemma HarmlessAreNotCounted(args: seq<string>, flag: string)
    requires flag == DIRECT_MOUNT_STRICT || flag == SUPERVISE_FOREGROUND
    requires forall arg | arg in args :: Harmless(arg)
    ensures multiset(args)[flag] == 0
  {
    hide ConflictsWithSupervisor, CleanArgument;
    assert !Harmless(flag);
    assert flag !in multiset(args);
  }

  lemma HarmlessDoNotInterfere(before: seq<string>, args: seq<string>, after: seq<string>, root: string, target: string)
    requires forall arg | arg in args :: Harmless(arg)
    requires before != [] && |after| >= 2 && |before| + |after| >= 4
    ensures UsesDirectMountStrict(before + args + after) <==> UsesDirectMountStrict(before + after)
    ensures UsesInBinarySupervisor(before + args + after) <==> UsesInBinarySupervisor(before + after)
    ensures ValidMountArgs(before + args + after, root, target) <==> ValidMountArgs(before + after, root, target)
  {
    hide ConflictsWithSupervisor, CleanArgument;
    var with, without := before + args + after, before + after;
    HarmlessAreNotCounted(args, DIRECT_MOUNT_STRICT);
    HarmlessAreNotCounted(args, SUPERVISE_FOREGROUND);
    assert forall arg :: arg in with <==> arg in without || arg in args;
    assert with[0] == without[0];
    assert with[|with| - 2] == without[|without| - 2] && with[|with| - 1] == without[|without| - 1];
    assert multiset(with) == multiset(before) + multiset(args) + multiset(after);
    assert multiset(without) == multiset(before) + multiset(after);
  }

  /**
    * Adding an accepted policy to an argv, where drive9MountArgs adds it, never changes the outcome of argv
    * validation, of the supervisor check, or of the strict-flag count.
    */
  lemma PolicyDoesNotInterfere(
    profile: string, policy: Policy, before: seq<string>, after: seq<string>, root: string, target: string
  )
    requires Accepted(profile, policy)
    requires before != [] && |after| >= 2 && |before| + |after| >= 4
    ensures var args := before + PolicyArgs(policy) + after;
      && (UsesDirectMountStrict(args) <==> UsesDirectMountStrict(before + after))
      && (UsesInBinarySupervisor(args) <==> UsesInBinarySupervisor(before + after))
      && (ValidMountArgs(args, root, target) <==> ValidMountArgs(before + after, root, target))
  {
    hide Harmless, Normal, ValidContract, PolicyArgs, UsesInBinarySupervisor, UsesDirectMountStrict, ValidMountArgs;
    PolicyArgsAreHarmless(profile, policy);
    HarmlessDoNotInterfere(before, PolicyArgs(policy), after, root, target);
  }

  // ---- The size of the record ----------------------------------------------------------------------------

  const MAX_POLICY_ARGUMENTS := 4369

  lemma {:induction false} ManyArgumentsAreLong(args: seq<string>)
    requires forall i | 0 <= i < |args| :: |args[i]| >= 14
    ensures 15 * |args| <= ArgumentBytes(args)
  {
    if args != [] {
      assert forall i | 0 <= i < |args[1..]| :: args[1..][i] == args[i + 1];
      ManyArgumentsAreLong(args[1..]);
    }
  }

  lemma PrefixedAreLong(prefix: string, patterns: seq<string>)
    requires PolicyPrefix(prefix) && Normal(prefix, patterns)
    ensures forall i | 0 <= i < |patterns| :: |Prefixed(prefix, patterns)[i]| >= 14
  {
    hide ValidPattern, TrimSpace;
    forall i | 0 <= i < |patterns| ensures |prefix + patterns[i]| >= 14 {
      assert patterns[i] in patterns;
    }
  }

  /** An accepted policy has at most 4369 arguments. */
  lemma PolicyIsShort(profile: string, policy: Policy)
    requires Accepted(profile, policy)
    ensures |PolicyArgs(policy)| <= MAX_POLICY_ARGUMENTS
  {
    hide Normal, Prefixed, CompactLength;
    PrefixedAreLong(LOCAL_ONLY, policy.localOnly);
    PrefixedAreLong(REMOTE_ONLY, policy.remoteOnly);
    PrefixedAreLong(APPEND_LOG, policy.appendLog);
    ManyArgumentsAreLong(PolicyArgs(policy));
  }

  lemma {:induction false} JSONStringsOfConcat(a: seq<string>, b: seq<string>)
    ensures JSONStrings(a + b) == JSONStrings(a) + JSONStrings(b)
  {
    if a == [] {
      assert a + b == b;
    } else {
      JSONStringsOfConcat(a[1..], b);
      assert (a + b)[1..] == a[1..] + b;
    }
  }

  /** What a policy adds to the indented argv: its compact form and five more bytes an argument. */
  lemma PolicyAddsLittle(before: seq<string>, args: seq<string>, after: seq<string>)
    requires before != []
    ensures IndentedLength(before + args + after) <= IndentedLength(before + after) + CompactLength(args) + 5 * |args|
  {
    JSONStringsOfConcat(before + args, after);
    JSONStringsOfConcat(before, args);
    JSONStringsOfConcat(before, after);
  }

  /** The length of an encoded recovery record: the rest, and its two argument lists. */
  function RecordLength(rest: nat, args: seq<string>, fallbackArgs: seq<string>): nat {
    rest + IndentedLength(args) + IndentedLength(fallbackArgs)
  }

  /**
    * Whatever two accepted policies a recovery record holds, one in its argv and one in its fallback argv,
    * it fits its limit as soon as everything else encodes in 400 KiB.
    */
  lemma RecoveryRecordFits(
    profile: string, policy: Policy, before: seq<string>, after: seq<string>,
    fallbackProfile: string, fallback: Policy, fallbackBefore: seq<string>, fallbackAfter: seq<string>, rest: nat
  )
    requires Accepted(profile, policy) && Accepted(fallbackProfile, fallback)
    requires before != [] && fallbackBefore != []
    requires RecordLength(rest, before + after, fallbackBefore + fallbackAfter) <= 400 * 1024
    ensures RecordLength(rest, before + PolicyArgs(policy) + after,
              fallbackBefore + PolicyArgs(fallback) + fallbackAfter) <= MAX_STATE
  {
    hide Normal, PolicyArgs, IndentedLength, CompactLength, ArgumentBytes;
    PolicyIsShort(profile, policy);
    PolicyIsShort(fallbackProfile, fallback);
    PolicyAddsLittle(before, PolicyArgs(policy), after);
    PolicyAddsLittle(fallbackBefore, PolicyArgs(fallback), fallbackAfter);
    NoArgumentsAreSmall();
  }

  lemma NoArgumentsAreSmall()
    ensures CompactLength([]) <= MAX_POLICY_STATE
  {
  }
}
