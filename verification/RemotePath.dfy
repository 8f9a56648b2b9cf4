/** Remote and host path checks (internal/driver/path.go, host_process.go, node_recovery.go). */
module RemotePath {
  import opened Text

  const KUBELET_ROOT := "/var/lib/kubelet"

  predicate IsSlash(c: char) { c == '/' }

  predicate DotSegment(part: string) { part == "." || part == ".." }

  function Segments(s: string): seq<string> { Split(s, '/') }

  function NonEmpty(parts: seq<string>): seq<string> {
    if parts == [] then []
    else if parts[0] == "" then NonEmpty(parts[1..])
    else [parts[0]] + NonEmpty(parts[1..])
  }

  /** path.Clean on an absolute path that has no dot segments: repeated and trailing slashes go. */
  function CleanRooted(raw: string): string {
    "/" + Join(NonEmpty(Segments(raw)), '/')
  }

  function Rooted(trimmed: string): string {
    var bare := if trimmed != "" && trimmed[0] == ':' then trimmed[1..] else trimmed;
    if HasPrefix(bare, "/") then bare else "/" + bare
  }

  /** normalizeRemotePath; None is an error. */
  function NormalizeRemotePath(text: string): Option<string> {
    var trimmed := TrimSpace(text);
    if trimmed == "" then None
    else
      var raw := Rooted(trimmed);
      if '\0' in raw || exists part | part in Segments(raw) :: DotSegment(part) then None
      else Some(CleanRooted(raw))
  }

  /** What the fixed points of normalizeRemotePath look like, segment by segment. */
  predicate CanonicalSegments(parts: seq<string>) {
    && (forall part | part in parts :: part != "" && !DotSegment(part))
    && (forall part | part in parts :: '/' !in part && '\0' !in part)
  }

  lemma {:induction false} NonEmptyProperties(parts: seq<string>)
    ensures forall part :: part in NonEmpty(parts) <==> part in parts && part != ""
    ensures (forall part | part in parts :: part != "") ==> NonEmpty(parts) == parts
  {
    if parts != [] {
      NonEmptyProperties(parts[1..]);
      assert parts == [parts[0]] + parts[1..];
      assert parts[0] in parts && forall part | part in parts[1..] :: part in parts;
    }
  }

  lemma {:induction false} JoinKeepsOut(parts: seq<string>, separator: char, c: char)
    requires c != separator && forall part | part in parts :: c !in part
    ensures c !in Join(parts, separator)
  {
    if |parts| > 1 {
      JoinKeepsOut(parts[1..], separator, c);
    }
  }

  lemma {:induction false} SplitKeepsOut(s: string, separator: char, c: char)
    requires c !in s
    ensures forall part | part in Split(s, separator) :: c !in part
  {
    if s != [] {
      SplitKeepsOut(s[1..], separator, c);
    }
  }

  /** Every accepted path is a slash followed by canonical segments. */
  lemma NormalizedShape(text: string) returns (parts: seq<string>)
    requires NormalizeRemotePath(text).Some?
    ensures CanonicalSegments(parts)
    ensures NormalizeRemotePath(text).value == "/" + Join(parts, '/')
  {
    var raw := Rooted(TrimSpace(text));
    parts := NonEmpty(Segments(raw));
    NonEmptyProperties(Segments(raw));
    JoinUndoesSplit(raw, '/');
    SplitKeepsOut(raw, '/', '\0');
  }

  /** Cleaning leaves a slash followed by canonical segments alone. */
  lemma CleanKeepsCanonical(parts: seq<string>)
    requires CanonicalSegments(parts)
    ensures var path := "/" + Join(parts, '/');
      && CleanRooted(path) == path
      && '\0' !in path
      && forall part | part in Segments(path) :: !DotSegment(part)
  {
    var path := "/" + Join(parts, '/');
    JoinKeepsOut(parts, '/', '\0');
    if parts == [] {
      assert path == "/";
      assert Split("/", '/') == [[], []];
      assert NonEmpty([[], []]) == NonEmpty([[]]);
      assert Segments(path) == ["", ""];
    } else {
      SplitUndoesJoin(parts, '/');
      SplitAtFirst([], '/', Join(parts, '/'));
      assert [] + ['/'] + Join(parts, '/') == path;
      assert Segments(path) == [""] + parts;
      assert ([""] + parts)[1..] == parts;
      NonEmptyProperties(parts);
    }
  }

  lemma {:induction false} CleanedIsNoLonger(parts: seq<string>)
    requires parts != []
    ensures |Join(NonEmpty(parts), '/')| <= |Join(parts, '/')|
    ensures parts[0] == "" && |parts| > 1 ==> |Join(NonEmpty(parts), '/')| < |Join(parts, '/')|
  {
    if |parts| > 1 {
      CleanedIsNoLonger(parts[1..]);
    } else {
      assert parts == [parts[0]];
    }
  }

  lemma CleanRootedIsNoLonger(raw: string)
    requires raw != "" && raw[0] == '/'
    ensures |CleanRooted(raw)| <= |raw|
  {
    var parts := Segments(raw);
    JoinUndoesSplit(raw, '/');
    CleanedIsNoLonger(parts);
  }

  lemma NormalizeKeepsCanonical(parts: seq<string>)
    requires CanonicalSegments(parts)
    requires var path := "/" + Join(parts, '/'); !IsSpace(path[|path| - 1])
    ensures var path := "/" + Join(parts, '/'); NormalizeRemotePath(path) == Some(path)
  {
    var path := "/" + Join(parts, '/');
    CleanKeepsCanonical(parts);
    TrimmedAtTheEnds(path);
    hide IsSpace, CleanRooted, Segments, TrimSpace;
    assert Rooted(path) == path;
  }

  lemma NormalizeShortens(path: string)
    requires path != "" && path[0] == '/' && IsSpace(path[|path| - 1])
    ensures NormalizeRemotePath(path).Some? ==> |NormalizeRemotePath(path).value| < |path|
  {
    var trimmed := TrimSpace(path);
    assert TrimLeft(path, IsSpace) == path;
    TrimRightCuts(path, IsSpace);
    assert |trimmed| < |path|;
    hide IsSpace, CleanRooted, Segments, TrimSpace;
    if trimmed != "" {
      assert Rooted(trimmed) == trimmed;
      CleanRootedIsNoLonger(trimmed);
    }
  }

  lemma TrimRightFromTheLeft(s: string)
    requires s != ""
    ensures TrimRight(s, IsSlash) ==
      if TrimRight(s[1..], IsSlash) != "" then [s[0]] + TrimRight(s[1..], IsSlash)
      else if IsSlash(s[0]) then "" else [s[0]]
  {
    TrimRightCuts(s, IsSlash);
    TrimRightCuts(s[1..], IsSlash);
    var all, rest := TrimRight(s, IsSlash), TrimRight(s[1..], IsSlash);
    if rest != "" {
      assert s[|rest|] == rest[|rest| - 1];
      assert |all| == |rest| + 1;
    } else {
      assert forall i | 0 < i < |s| :: s[i] == s[1..][i - 1];
    }
  }

  function Last(s: string): char
    requires s != ""
  {
    s[|s| - 1]
  }

  lemma LastOfJoined(part: string, parts: seq<string>)
    requires parts != [] && parts[0] != ""
    ensures Join(parts, '/') != "" && Join([part] + parts, '/') != ""
    ensures Last(Join([part] + parts, '/')) == Last(Join(parts, '/'))
  {
    assert ([part] + parts)[1..] == parts;
  }

  /** One more character before the first of some parts, the others of which are not empty. */
  lemma LastOfLonger(c: char, first: string, others: seq<string>)
    requires others != [] ==> others[0] != ""
    ensures var parts, longer := if first == "" then others else [first] + others, [[c] + first] + others;
      && Join(longer, '/') != ""
      && if parts == [] then Last(Join(longer, '/')) == c
         else Join(parts, '/') != "" && Last(Join(longer, '/')) == Last(Join(parts, '/'))
  {
    if others != [] {
      LastOfJoined([c] + first, others);
      LastOfJoined(first, others);
    } else {
      assert [[c] + first] + others == [[c] + first] && [first] + others == [first];
    }
  }

  /** Cleaning keeps the last character that is not a slash. */
  lemma {:induction false} CleanKeepsLast(s: string)
    ensures var parts, bare := NonEmpty(Segments(s)), TrimRight(s, IsSlash);
      if bare == "" then parts == [] else parts != [] && Join(parts, '/') != "" && Last(Join(parts, '/')) == Last(bare)
  {
    hide TrimRight;
    if s == "" {
      TrimRightCuts(s, IsSlash);
      assert Segments(s) == [""] && NonEmpty([""]) == [];
    } else {
      CleanKeepsLast(s[1..]);
      TrimRightFromTheLeft(s);
      var rest := Segments(s[1..]);
      NonEmptyProperties(rest[1..]);
      if s[0] == '/' {
        assert ([[]] + rest)[1..] == rest && NonEmpty([[]] + rest) == NonEmpty(rest);
      } else {
        var parts := [[s[0]] + rest[0]] + rest[1..];
        assert parts[1..] == rest[1..] && NonEmpty(parts) == [[s[0]] + rest[0]] + NonEmpty(rest[1..]);
        assert NonEmpty(rest[1..]) != [] ==> NonEmpty(rest[1..])[0] in NonEmpty(rest[1..]);
        hide NonEmpty;
        LastOfLonger(s[0], rest[0], NonEmpty(rest[1..]));
      }
    }
  }

  /** After the slashes at its end, the trimmed text ends in white space. */
  predicate EndsInSpace(text: string) {
    var bare := TrimRight(TrimSpace(text), IsSlash);
    bare != "" && IsSpace(Last(bare))
  }

  lemma RootedKeepsLast(trimmed: string)
    ensures var bare, rooted := TrimRight(trimmed, IsSlash), TrimRight(Rooted(trimmed), IsSlash);
      if bare == "" || bare == ":" then rooted == "" else rooted != "" && Last(rooted) == Last(bare)
  {
    var bare := if trimmed != "" && trimmed[0] == ':' then trimmed[1..] else trimmed;
    if trimmed != "" {
      TrimRightFromTheLeft(trimmed);
    }
    if !HasPrefix(bare, "/") {
      TrimRightFromTheLeft("/" + bare);
      assert ("/" + bare)[1..] == bare;
    }
  }

  lemma NormalizedLast(text: string)
    requires NormalizeRemotePath(text).Some?
    ensures var path := NormalizeRemotePath(text).value; path != "" && (IsSpace(Last(path)) <==> EndsInSpace(text))
  {
    hide Segments, NonEmpty, TrimSpace, Rooted, TrimRight;
    var raw := Rooted(TrimSpace(text));
    RootedKeepsLast(TrimSpace(text));
    CleanKeepsLast(raw);
    if NonEmpty(Segments(raw)) == [] {
      assert CleanRooted(raw) == "/";
    }
  }

  /**
    * normalizeRemotePath is not idempotent on every input: an accepted path is left alone by a second pass
    * exactly when the text it came from, without the slashes at its end, did not end in white space.
    */
  lemma NormalizedIsFixedIff(text: string)
    requires NormalizeRemotePath(text).Some?
    ensures var path := NormalizeRemotePath(text).value; NormalizeRemotePath(path) == Some(path) <==> !EndsInSpace(text)
  {
    NormalizedLast(text);
    var parts := NormalizedShape(text);
    var path := NormalizeRemotePath(text).value;
    hide NormalizeRemotePath, IsSpace;
    if !IsSpace(path[|path| - 1]) {
      NormalizeKeepsCanonical(parts);
    } else {
      NormalizeShortens(path);
    }
  }

  lemma TrimmedAtTheEnds(s: string)
    requires s != "" && !IsSpace(s[0]) && !IsSpace(s[|s| - 1])
    ensures TrimLeft(s, IsSpace) == TrimRight(s, IsSpace) == TrimSpace(s) == s
  {
  }

  lemma SlashedSegments(name: string)
    requires name != "" && '/' !in name
    ensures Segments("/" + name) == ["", name]
    ensures Segments("/" + name + "/") == ["", name, ""]
    ensures CleanRooted("/" + name) == CleanRooted("/" + name + "/") == "/" + name
  {
    SplitAtFirst("", '/', name);
    SplitAtFirst("", '/', name + "/");
    SplitAtFirst(name, '/', "");
    assert "" + ['/'] + name == "/" + name && "" + ['/'] + (name + "/") == "/" + name + "/";
    assert name + ['/'] + "" == name + "/";
    assert ["", name, ""][1..] == [name, ""] && [name, ""][1..] == [""] && ["", name][1..] == [name];
    assert NonEmpty([""]) == [] && NonEmpty([name, ""]) == [name] && NonEmpty([name]) == [name];
  }

  lemma NormalizeOneSegment(text: string, name: string)
    requires name != "" && '/' !in name && '\0' !in name && !DotSegment(name)
    requires TrimSpace(text) == "/" + name || TrimSpace(text) == "/" + name + "/"
    ensures NormalizeRemotePath(text) == Some("/" + name)
  {
    SlashedSegments(name);
    hide CleanRooted, Segments, TrimSpace;
    assert Rooted(TrimSpace(text)) == TrimSpace(text);
  }

  /** "/a /" is accepted as "/a ", which a second pass turns into "/a". */
  lemma NormalizeTwiceDiffers()
    ensures NormalizeRemotePath("/a /") == Some("/a ")
    ensures NormalizeRemotePath("/a ") == Some("/a")
  {
    TrimmedAtTheEnds("/a /");
    TrimmedAtTheEnds("/a");
    assert "/a "[..2] == "/a";
    assert TrimSpace("/a ") == "/a";
    assert "/" + "a " + "/" == "/a /" && "/" + "a " == "/a " && "/" + "a" == "/a";
    hide NormalizeRemotePath, TrimSpace, IsSpace;
    NormalizeOneSegment("/a /", "a ");
    NormalizeOneSegment("/a ", "a");
  }

  /** filepath.Clean(p) == p for an absolute p. */
  predicate CleanAbsolute(p: string) {
    p == "/" || (p != "" && p[0] == '/' && CanonicalSegmentsOf(p[1..]))
  }

  predicate CanonicalSegmentsOf(p: string) {
    forall part | part in Segments(p) :: part != "" && !DotSegment(part)
  }

  /** pathIsOrUnder and pathUnderRoot on clean paths. */
  predicate IsOrUnder(child: string, parent: string) {
    child == parent || HasPrefix(child, TrimRight(parent, IsSlash) + "/")
  }

  /** canonicalStagingTarget(p) succeeds and returns p. */
  predicate CanonicalStagingTarget(p: string) {
    CleanAbsolute(p) && IsOrUnder(p, KUBELET_ROOT)
  }

  predicate CanonicalRemoteRoot(p: string) {
    NormalizeRemotePath(p) == Some(p)
  }
}
