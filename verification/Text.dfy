/** Text operations of the Go standard library that the driver relies on, over sequences. */
module Text {

  datatype Option<+T> = None | Some(value: T)

  predicate HasPrefix(s: string, prefix: string) {
    |prefix| <= |s| && s[..|prefix|] == prefix
  }

  predicate HasSuffix(s: string, suffix: string) {
    |suffix| <= |s| && s[|s| - |suffix|..] == suffix
  }

  predicate OccursAt(s: string, part: string, i: nat) {
    i + |part| <= |s| && s[i..i + |part|] == part
  }

  predicate Contains(s: string, part: string) {
    exists i | 0 <= i <= |s| :: OccursAt(s, part, i)
  }

  /** The white space that strings.TrimSpace strips. */
  predicate IsSpace(c: char) {
    || c == ' ' || '\t' <= c <= '\r' || c == '\U{85}' || c == '\U{a0}' || c == '\U{1680}'
    || '\U{2000}' <= c <= '\U{200a}' || c == '\U{2028}' || c == '\U{2029}'
    || c == '\U{202f}' || c == '\U{205f}' || c == '\U{3000}'
  }

  function TrimLeft(s: string, cut: char -> bool): string {
    if s != [] && cut(s[0]) then TrimLeft(s[1..], cut) else s
  }

  function TrimRight(s: string, cut: char -> bool): string {
    if s != [] && cut(s[|s| - 1]) then TrimRight(s[..|s| - 1], cut) else s
  }

  /** Trimming keeps a suffix that begins with a character to keep, and cuts nothing else. */
  lemma {:induction false} TrimLeftCuts(s: string, cut: char -> bool)
    ensures var r := TrimLeft(s, cut);
      && |r| <= |s| && r == s[|s| - |r|..]
      && (r != [] ==> !cut(r[0]))
      && (forall i | 0 <= i < |s| - |r| :: cut(s[i]))
  {
    if s != [] && cut(s[0]) {
      TrimLeftCuts(s[1..], cut);
      assert forall i | 0 < i < |s| - |TrimLeft(s, cut)| :: s[i] == s[1..][i - 1];
    }
  }

  /** The same at the other end. */
  lemma {:induction false} TrimRightCuts(s: string, cut: char -> bool)
    ensures var r := TrimRight(s, cut);
      && |r| <= |s| && r == s[..|r|]
      && (r != [] ==> !cut(r[|r| - 1]))
      && (forall i | |r| <= i < |s| :: cut(s[i]))
  {
    if s != [] && cut(s[|s| - 1]) {
      TrimRightCuts(s[..|s| - 1], cut);
    }
  }

  function TrimSpace(s: string): string {
    TrimRight(TrimLeft(s, IsSpace), IsSpace)
  }

  /** strings.Split and bytes.Split on a single separator: never empty. */
  function Split<T(==)>(s: seq<T>, separator: T): (parts: seq<seq<T>>)
    ensures |parts| > 0
  {
    if s == [] then [[]]
    else
      var rest := Split(s[1..], separator);
      if s[0] == separator then [[]] + rest else [[s[0]] + rest[0]] + rest[1..]
  }

  function Join<T>(parts: seq<seq<T>>, separator: T): seq<T> {
    if parts == [] then []
    else if |parts| == 1 then parts[0]
    else parts[0] + [separator] + Join(parts[1..], separator)
  }

  ghost predicate FreeOf<T>(parts: seq<seq<T>>, separator: T) {
    forall i | 0 <= i < |parts| :: separator !in parts[i]
  }

  /** A text without the separator is a single part, and prefixes the first part of what follows. */
  lemma {:induction false} SplitAtFirst<T>(head: seq<T>, separator: T, tail: seq<T>)
    requires separator !in head
    ensures Split(head, separator) == [head]
    ensures Split(head + [separator] + tail, separator) == [head] + Split(tail, separator)
  {
    if head == [] {
      assert [] + [separator] + tail == [separator] + tail;
    } else {
      SplitAtFirst(head[1..], separator, tail);
      assert [head[0]] + head[1..] == head;
      assert (head + [separator] + tail)[1..] == head[1..] + [separator] + tail;
    }
  }

  lemma {:induction false} SplitUndoesJoin<T>(parts: seq<seq<T>>, separator: T)
    requires parts != [] && FreeOf(parts, separator)
    ensures Split(Join(parts, separator), separator) == parts
  {
    if |parts| == 1 {
      SplitAtFirst(parts[0], separator, []);
    } else {
      SplitUndoesJoin(parts[1..], separator);
      SplitAtFirst(parts[0], separator, Join(parts[1..], separator));
    }
  }

  lemma {:induction false} JoinUndoesSplit<T>(s: seq<T>, separator: T)
    ensures FreeOf(Split(s, separator), separator)
    ensures Join(Split(s, separator), separator) == s
  {
    if s != [] {
      JoinUndoesSplit(s[1..], separator);
      var rest := Split(s[1..], separator);
      if s[0] == separator {
        assert ([[]] + rest)[1..] == rest;
      } else {
        var parts := [[s[0]] + rest[0]] + rest[1..];
        assert parts[1..] == rest[1..];
        assert forall i | 0 <= i < |rest| :: separator !in rest[i];
        if |rest| > 1 {
          assert Join(parts, separator) == [s[0]] + rest[0] + [separator] + Join(rest[1..], separator);
          assert Join(parts, separator) == [s[0]] + Join(rest, separator);
        }
      }
    }
  }

  /** The length of a character in UTF-8. */
  function Bytes(c: char): (n: nat)
    ensures 1 <= n <= 4
  {
    if c < '\U{80}' then 1 else if c < '\U{800}' then 2 else if c < '\U{10000}' then 3 else 4
  }

  function ByteLength(s: string): (n: nat)
    ensures n >= |s|
  {
    if s == "" then 0 else Bytes(s[0]) + ByteLength(s[1..])
  }

  lemma {:induction false} ByteLengthOfConcat(a: string, b: string)
    ensures ByteLength(a + b) == ByteLength(a) + ByteLength(b)
  {
    if a == "" {
      assert a + b == b;
    } else {
      ByteLengthOfConcat(a[1..], b);
      assert (a + b)[1..] == a[1..] + b;
    }
  }
}
