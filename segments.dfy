/** Go's `strings.Split(s, sep)` for a one-character separator, which the
    import handlers use to take MRNs and import identifiers apart, with its
    inverse `Join` and the facts about both that the handlers rely on. */
module Segments {
  import opened Values

  /** `strings.Split(s, string(sep))`: the pieces between separators. There is
      always at least one piece (`Split("")` is `[""]`), and no piece holds the
      separator. */
  function Split(s: string, sep: char): (parts: seq<string>)
    ensures |parts| >= 1
    ensures forall i :: 0 <= i < |parts| ==> sep !in parts[i]
    decreases |s|
  {
    if s == [] then [""]
    else
      var rest := Split(s[1..], sep);
      if s[0] == sep then [""] + rest
      else [[s[0]] + rest[0]] + rest[1..]
  }

  /** `strings.Join(parts, string(sep))`. */
  function Join(parts: seq<string>, sep: char): string
    decreases |parts|
  {
    if |parts| == 0 then ""
    else if |parts| == 1 then parts[0]
    else parts[0] + [sep] + Join(parts[1..], sep)
  }

  /** The last piece: the UID of an object in an MRN or import identifier. */
  function LastSegment(parts: seq<string>): (r: string)
    requires |parts| >= 1
    ensures r == parts[|parts| - 1]
  {
    parts[|parts| - 1]
  }

  /** The third piece from the end, if there are at least three pieces: the
      space identifier in `.../spaces/<space>/<kind>/<uid>`. */
  function ThirdFromLast(parts: seq<string>): (r: Option<string>)
    ensures r.Some? <==> |parts| >= 3
    ensures r.Some? ==> r.value == parts[|parts| - 3]
  {
    if |parts| >= 3 then Some(parts[|parts| - 3]) else None
  }

  /** Joining the pieces of a split gives back the string. */
  lemma {:induction false} JoinSplit(s: string, sep: char)
    ensures Join(Split(s, sep), sep) == s
    decreases |s|
  {
    if s != [] {
      var rest := Split(s[1..], sep);
      JoinSplit(s[1..], sep);
      if s[0] == sep {
        assert Split(s, sep) == [""] + rest;
        assert s == [sep] + s[1..];
      } else {
        var parts := Split(s, sep);
        assert parts == [[s[0]] + rest[0]] + rest[1..];
        if |rest| == 1 {
          assert s == [s[0]] + rest[0];
        } else {
          assert parts[1..] == rest[1..];
          assert Join(rest, sep) == rest[0] + [sep] + Join(rest[1..], sep);
          assert s == [s[0]] + s[1..];
        }
      }
    }
  }

  /** A string without the separator splits into itself alone. */
  lemma {:induction false} SplitWithoutSeparator(s: string, sep: char)
    requires sep !in s
    ensures Split(s, sep) == [s]
    decreases |s|
  {
    if s != [] {
      assert s[0] != sep;
      assert sep !in s[1..] by {
        forall i | 0 <= i < |s[1..]| ensures s[1..][i] != sep {
          assert s[1..][i] == s[i + 1];
        }
      }
      SplitWithoutSeparator(s[1..], sep);
      assert s == [s[0]] + s[1..];
    }
  }

  /** Splitting `a + sep + b` splits `a` and `b` apart. */
  lemma {:induction false} SplitAtSeparator(a: string, b: string, sep: char)
    ensures Split(a + [sep] + b, sep) == Split(a, sep) + Split(b, sep)
    decreases |a|
  {
    var s := a + [sep] + b;
    if a == [] {
      assert s[0] == sep && s[1..] == b;
    } else {
      assert s[0] == a[0];
      assert s[1..] == a[1..] + [sep] + b;
      SplitAtSeparator(a[1..], b, sep);
    }
  }

  /** Splitting the join of separator-free pieces gives back the pieces. */
  lemma {:induction false} SplitJoin(parts: seq<string>, sep: char)
    requires |parts| >= 1
    requires forall i :: 0 <= i < |parts| ==> sep !in parts[i]
    ensures Split(Join(parts, sep), sep) == parts
    decreases |parts|
  {
    if |parts| == 1 {
      SplitWithoutSeparator(parts[0], sep);
    } else {
      SplitWithoutSeparator(parts[0], sep);
      SplitJoin(parts[1..], sep);
      SplitAtSeparator(parts[0], Join(parts[1..], sep), sep);
      assert [parts[0]] + parts[1..] == parts;
    }
  }

  /** An identifier `<prefix>/<scope>/<kind>/<uid>` whose last three pieces
      hold no separator has `<scope>` third from the end and `<uid>` last. */
  lemma ScopeAndUidOfPath(prefix: string, scope: string, kind: string, uid: string, sep: char)
    requires sep !in scope && sep !in kind && sep !in uid
    ensures var parts := Split(prefix + [sep] + scope + [sep] + kind + [sep] + uid, sep);
      ThirdFromLast(parts) == Some(scope) && LastSegment(parts) == uid
  {
    var tail := scope + [sep] + kind + [sep] + uid;
    assert prefix + [sep] + scope + [sep] + kind + [sep] + uid == prefix + [sep] + tail;
    SplitAtSeparator(prefix, tail, sep);
    assert tail == scope + [sep] + (kind + [sep] + uid);
    SplitAtSeparator(scope, kind + [sep] + uid, sep);
    SplitAtSeparator(kind, uid, sep);
    SplitWithoutSeparator(scope, sep);
    SplitWithoutSeparator(kind, sep);
    SplitWithoutSeparator(uid, sep);
  }
}
