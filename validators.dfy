/** The attribute validators of terraform-plugin-framework-validators that the
    resource schemas attach (`stringvalidator.LengthAtMost`,
    `stringvalidator.RegexMatches` with the two patterns the provider uses,
    `listvalidator.ConflictsWith`, `stringvalidator.ExactlyOneOf`), stated by
    the rules that library documents. Each takes the configuration values it
    looks at and returns the diagnostics it adds. The regular-expression
    patterns are written out as character predicates. */
module Validators {
  import opened Values
  import opened Diagnostics
  import opened Segments

  /** Decimal digits of a natural number, as `fmt.Sprintf("%d", n)` writes it. */
  function NatToString(n: nat): (s: string)
    ensures |s| >= 1
    decreases n
  {
    var digit := ['0' + (n % 10) as char];
    if n < 10 then digit else NatToString(n / 10) + digit
  }

  // ----- stringvalidator.LengthAtMost -----

  /** A known string longer than `max` characters is refused; null and unknown
      values are not checked. */
  function LengthAtMost(path: string, max: nat, value: Value<string>): (diags: seq<Diagnostic>)
    ensures diags == [] <==> !value.Known? || |value.v| <= max
    ensures |diags| <= 1 && forall i :: 0 <= i < |diags| ==> diags[i].severity == Error && diags[i].path == [path]
  {
    if value.Known? && |value.v| > max then
      [AttributeError([path], "Invalid Attribute Value Length",
        "Attribute " + path + " string length must be at most " + NatToString(max) + ", got: " + NatToString(|value.v|))]
    else []
  }

  // ----- the GUID pattern ^[0-9a-f]{8}-[0-9a-f]{4}-[0-9a-f]{4}-[0-9a-f]{4}-[0-9a-f]{12}$ -----

  predicate IsLowerHex(c: char) {
    '0' <= c <= '9' || 'a' <= c <= 'f'
  }

  predicate AllLowerHex(s: string) {
    forall i :: 0 <= i < |s| ==> IsLowerHex(s[i])
  }

  /** Positions of the four hyphens of a GUID. */
  predicate IsGuidHyphenPosition(i: int) {
    i == 8 || i == 13 || i == 18 || i == 23
  }

  /** 36 characters: lower-case hex digits with hyphens at 8, 13, 18 and 23. */
  predicate IsGuid(s: string) {
    |s| == 36 &&
    forall i :: 0 <= i < 36 ==> if IsGuidHyphenPosition(i) then s[i] == '-' else IsLowerHex(s[i])
  }

  /** Five lower-case hex groups of 8, 4, 4, 4 and 12 digits joined by hyphens. */
  predicate GuidGroups(g: seq<string>) {
    |g| == 5 && |g[0]| == 8 && |g[1]| == 4 && |g[2]| == 4 && |g[3]| == 4 && |g[4]| == 12 &&
    forall k :: 0 <= k < 5 ==> AllLowerHex(g[k])
  }

  /** Joining five hex groups of the right widths with hyphens gives a GUID. */
  lemma {:induction false} GuidOfGroups(g: seq<string>)
    requires GuidGroups(g)
    ensures IsGuid(Join(g, '-'))
  {
    var s := g[0] + "-" + g[1] + "-" + g[2] + "-" + g[3] + "-" + g[4];
    assert Join(g, '-') == s by {
      assert Join(g[4..], '-') == g[4];
      assert Join(g[3..], '-') == g[3] + "-" + Join(g[4..], '-');
      assert Join(g[2..], '-') == g[2] + "-" + Join(g[3..], '-');
      assert Join(g[1..], '-') == g[1] + "-" + Join(g[2..], '-');
    }
    forall i | 0 <= i < 36
      ensures if IsGuidHyphenPosition(i) then s[i] == '-' else IsLowerHex(s[i])
    {
      if i < 8 { assert s[i] == g[0][i]; }
      else if 8 < i < 13 { assert s[i] == g[1][i - 9]; }
      else if 13 < i < 18 { assert s[i] == g[2][i - 14]; }
      else if 18 < i < 23 { assert s[i] == g[3][i - 19]; }
      else if 23 < i { assert s[i] == g[4][i - 24]; }
    }
  }

  lemma HexGroupHasNoHyphen(s: string)
    requires AllLowerHex(s)
    ensures '-' !in s
  {
  }

  /** Conversely, a GUID splits at its hyphens into five hex groups of
      8, 4, 4, 4 and 12 digits. */
  lemma {:induction false} GroupsOfGuid(s: string)
    requires IsGuid(s)
    ensures GuidGroups(Split(s, '-'))
  {
    var g0, g1, g2, g3, g4 := s[..8], s[9..13], s[14..18], s[19..23], s[24..];
    assert AllLowerHex(g0) by {
      forall i | 0 <= i < |g0| ensures IsLowerHex(g0[i]) { assert g0[i] == s[i]; }
    }
    assert AllLowerHex(g1) by {
      forall i | 0 <= i < |g1| ensures IsLowerHex(g1[i]) { assert g1[i] == s[i + 9]; }
    }
    assert AllLowerHex(g2) by {
      forall i | 0 <= i < |g2| ensures IsLowerHex(g2[i]) { assert g2[i] == s[i + 14]; }
    }
    assert AllLowerHex(g3) by {
      forall i | 0 <= i < |g3| ensures IsLowerHex(g3[i]) { assert g3[i] == s[i + 19]; }
    }
    assert AllLowerHex(g4) by {
      forall i | 0 <= i < |g4| ensures IsLowerHex(g4[i]) { assert g4[i] == s[i + 24]; }
    }
    assert s[8] == '-' && s[13] == '-' && s[18] == '-' && s[23] == '-';
    assert s == g0 + ['-'] + (g1 + ['-'] + (g2 + ['-'] + (g3 + ['-'] + g4)));
    HexGroupHasNoHyphen(g0);
    HexGroupHasNoHyphen(g1);
    HexGroupHasNoHyphen(g2);
    HexGroupHasNoHyphen(g3);
    HexGroupHasNoHyphen(g4);
    SplitAtSeparator(g3, g4, '-');
    SplitAtSeparator(g2, g3 + ['-'] + g4, '-');
    SplitAtSeparator(g1, g2 + ['-'] + (g3 + ['-'] + g4), '-');
    SplitAtSeparator(g0, g1 + ['-'] + (g2 + ['-'] + (g3 + ['-'] + g4)), '-');
    SplitWithoutSeparator(g0, '-');
    SplitWithoutSeparator(g1, '-');
    SplitWithoutSeparator(g2, '-');
    SplitWithoutSeparator(g3, '-');
    SplitWithoutSeparator(g4, '-');
    var g := Split(s, '-');
    assert g == [g0, g1, g2, g3, g4];
  }

  // ----- the URL pattern ^https?:\/\/[a-zA-Z0-9\-._~:\/?#[\]@!$&'()*+,;=%]+$ -----

  /** A character of the URL pattern's bracket class. */
  predicate IsUrlChar(c: char) {
    ('a' <= c <= 'z') || ('A' <= c <= 'Z') || ('0' <= c <= '9') ||
    c == '-' || c == '.' || c == '_' || c == '~' || c == ':' || c == '/' || c == '?' || c == '#' ||
    c == '[' || c == ']' || c == '@' || c == '!' || c == '$' || c == '&' || c == '\'' || c == '(' ||
    c == ')' || c == '*' || c == '+' || c == ',' || c == ';' || c == '=' || c == '%'
  }

  predicate AllUrlChars(s: string) {
    forall i :: 0 <= i < |s| ==> IsUrlChar(s[i])
  }

  /** `http://` or `https://` followed by at least one URL character, and
      nothing else. */
  predicate IsHttpUrl(s: string) {
    (|s| > 7 && s[..7] == "http://" && AllUrlChars(s[7..])) ||
    (|s| > 8 && s[..8] == "https://" && AllUrlChars(s[8..]))
  }

  /** Every character of a matching string is a URL character: the scheme's
      letters and `://` are in the class too. */
  lemma HttpUrlHasOnlyUrlChars(s: string)
    requires IsHttpUrl(s)
    ensures AllUrlChars(s)
  {
    var n := if |s| > 7 && s[..7] == "http://" && AllUrlChars(s[7..]) then 7 else 8;
    forall i | 0 <= i < |s| ensures IsUrlChar(s[i]) {
      if i >= n { assert s[i] == s[n..][i - n]; }
      else { assert s[i] == s[..n][i]; }
    }
  }

  /** A scheme followed by URL characters matches. */
  lemma SchemeAndHostIsHttpUrl(secure: bool, rest: string)
    requires |rest| >= 1 && AllUrlChars(rest)
    ensures IsHttpUrl((if secure then "https://" else "http://") + rest)
  {
    var scheme := if secure then "https://" else "http://";
    var s := scheme + rest;
    assert s[..|scheme|] == scheme && s[|scheme|..] == rest;
  }

  // ----- stringvalidator.RegexMatches -----

  /** A known value for which `matches` fails is refused with `message`;
      null and unknown values are not checked. */
  function RegexMatches(path: string, matches: string -> bool, message: string, value: Value<string>): (diags: seq<Diagnostic>)
    ensures diags == [] <==> !value.Known? || matches(value.v)
    ensures |diags| <= 1 && forall i :: 0 <= i < |diags| ==> diags[i].severity == Error && diags[i].path == [path]
  {
    if value.Known? && !matches(value.v) then
      [AttributeError([path], "Invalid Attribute Value Match", "Attribute " + path + " " + message + ", got: " + value.v)]
    else []
  }

  // ----- listvalidator.ConflictsWith -----

  /** Attached to `path` naming `other`: refused when both are non-null
      (an unknown value counts as present). */
  function ConflictsWith<T>(path: string, other: string, value: Value<T>, otherValue: Value<T>): (diags: seq<Diagnostic>)
    ensures diags == [] <==> value.Null? || otherValue.Null?
    ensures |diags| <= 1 && forall i :: 0 <= i < |diags| ==> diags[i].severity == Error && diags[i].path == [path]
  {
    if !value.Null? && !otherValue.Null? then
      [AttributeError([path], "Invalid Attribute Combination",
        "Attribute \"" + other + "\" cannot be specified when \"" + path + "\" is specified")]
    else []
  }

  // ----- stringvalidator.ExactlyOneOf -----

  /** `values[i]` is the one non-null value. */
  predicate OnlyNonNull<T>(values: seq<Value<T>>, i: int)
    requires 0 <= i < |values|
  {
    !values[i].Null? && forall j :: 0 <= j < |values| && j != i ==> values[j].Null?
  }

  /** The number of configured (non-null) values: none exactly when every
      value is null. */
  function CountNonNull<T>(values: seq<Value<T>>): (n: nat)
    ensures n <= |values|
    ensures n == 0 <==> forall i :: 0 <= i < |values| ==> values[i].Null?
  {
    if values == [] then 0 else (if values[0].Null? then 0 else 1) + CountNonNull(values[1..])
  }

  /** The count is one exactly when a single value is non-null: the case
      `ExactlyOneOf` accepts. */
  lemma {:induction false} CountNonNullIsOne<T>(values: seq<Value<T>>)
    ensures CountNonNull(values) == 1 <==> exists i :: 0 <= i < |values| && OnlyNonNull(values, i)
  {
    if values != [] {
      var tail := values[1..];
      CountNonNullIsOne(tail);
      if values[0].Null? {
        if CountNonNull(values) == 1 {
          var j :| 0 <= j < |tail| && OnlyNonNull(tail, j);
          assert OnlyNonNull(values, j + 1) by {
            forall k | 0 <= k < |values| && k != j + 1 ensures values[k].Null? {
              if k > 0 { assert values[k] == tail[k - 1]; }
            }
          }
        }
        if exists i :: 0 <= i < |values| && OnlyNonNull(values, i) {
          var i :| 0 <= i < |values| && OnlyNonNull(values, i);
          assert i > 0;
          assert OnlyNonNull(tail, i - 1) by {
            forall k | 0 <= k < |tail| && k != i - 1 ensures tail[k].Null? {
              assert tail[k] == values[k + 1];
            }
          }
        }
      } else {
        if CountNonNull(values) == 1 {
          assert forall k :: 0 <= k < |tail| ==> tail[k].Null?;
          assert OnlyNonNull(values, 0) by {
            forall k | 0 <= k < |values| && k != 0 ensures values[k].Null? {
              assert values[k] == tail[k - 1];
            }
          }
        }
        if exists i :: 0 <= i < |values| && OnlyNonNull(values, i) {
          var i :| 0 <= i < |values| && OnlyNonNull(values, i);
          assert i == 0;
          assert forall k :: 0 <= k < |tail| ==> tail[k].Null? by {
            forall k | 0 <= k < |tail| ensures tail[k].Null? {
              assert tail[k] == values[k + 1];
            }
          }
        }
      }
    }
  }

  /** Attached to `path`, naming `value`'s own attribute and `others`: the
      check waits while any of them is unknown; otherwise exactly one of them
      must be non-null. */
  function ExactlyOneOf<T>(path: string, names: string, value: Value<T>, others: seq<Value<T>>): (diags: seq<Diagnostic>)
    ensures |diags| <= 1 && forall i :: 0 <= i < |diags| ==> diags[i].severity == Error && diags[i].path == [path]
    ensures diags == [] <==>
      (value.Unknown? || (exists i | 0 <= i < |others| :: others[i].Unknown?) || CountNonNull([value] + others) == 1)
  {
    if value.Unknown? || exists i | 0 <= i < |others| :: others[i].Unknown? then []
    else
      var count := CountNonNull([value] + others);
      if count == 0 then
        [AttributeError([path], "Invalid Attribute Combination",
          "No attribute specified when one (and only one) of " + names + " is required")]
      else if count > 1 then
        [AttributeError([path], "Invalid Attribute Combination",
          NatToString(count) + " attributes specified when one (and only one) of " + names + " is required")]
      else []
  }
}
