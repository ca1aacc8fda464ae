/** Small value types and string operations shared by every module: an Option type and
    the handful of Rust `str` and `Vec` operations the hook relies on (prefix tests,
    first-occurrence search, splitting at a character, joining, trimming). Strings are
    sequences of Unicode scalar values; byte offsets are not modelled. */
module Common {

  datatype Option<+T> = None | Some(value: T) {
    /** `unwrap_or` / `unwrap_or_default`. */
    function GetOr(default: T): T {
      match this
      case Some(v) => v
      case None => default
    }
  }

  /** `str::starts_with` with a string pattern. */
  predicate StartsWith(s: string, prefix: string) {
    |prefix| <= |s| && s[..|prefix|] == prefix
  }

  /** A string whose `i`-th character differs from the pattern's does not start with it. */
  lemma NotStartsWith(s: string, prefix: string, i: nat)
    requires i < |prefix| && i < |s| && s[i] != prefix[i]
    ensures !StartsWith(s, prefix)
  {
    if |prefix| <= |s| {
      assert s[..|prefix|][i] == s[i];
    }
  }

  /** `str::ends_with` with a string pattern. */
  predicate EndsWith(s: string, suffix: string) {
    |suffix| <= |s| && s[|s| - |suffix|..] == suffix
  }

  /** Position of the first occurrence of `x` in `s` (`str::find` with a char pattern,
      `Iterator::position` with an equality test). */
  function IndexOf<T(==)>(s: seq<T>, x: T): (r: Option<nat>)
    ensures r.Some? ==> r.value < |s| && s[r.value] == x && x !in s[..r.value]
    ensures r.None? <==> x !in s
  {
    if s == [] then None
    else if s[0] == x then Some(0)
    else
      match IndexOf(s[1..], x)
      case None => None
      case Some(k) =>
        assert s[1..][..k] == s[1..k + 1];
        assert s[..k + 1] == [s[0]] + s[1..k + 1];
        Some(k + 1)
  }

  /** A position holding `x` with no `x` before it is the first occurrence. */
  lemma IndexOfAt<T>(s: seq<T>, x: T, k: nat)
    requires k < |s| && s[k] == x && x !in s[..k]
    ensures IndexOf(s, x) == Some(k)
  {
    assert s[k] in s;
    var m := IndexOf(s, x).value;
    forall j | 0 <= j < k
      ensures s[j] != x
    {
      assert s[..k][j] == s[j];
    }
    forall j | 0 <= j < m
      ensures s[j] != x
    {
      assert s[..m][j] == s[j];
    }
  }

  /** What follows the first `c` in `s`, or all of `s` when `c` does not occur
      (`&s[pos + 1..]` after a successful `find`, else `s`). */
  function AfterFirst(s: string, c: char): (r: string)
    ensures c !in s ==> r == s
    ensures c in s ==> |r| < |s| && s == s[..|s| - |r| - 1] + [c] + r && c !in s[..|s| - |r| - 1]
  {
    match IndexOf(s, c)
    case None => s
    case Some(k) =>
      assert s == s[..k] + [c] + s[k + 1..];
      s[k + 1..]
  }

  /** What precedes the first `c` in `s`, or all of `s` (`split(c).next()`, `&s[..pos]`). */
  function BeforeFirst(s: string, c: char): (r: string)
    ensures StartsWith(s, r) && c !in r
    ensures c !in s ==> r == s
    ensures c in s ==> |r| < |s| && s[|r|] == c
  {
    match IndexOf(s, c)
    case None => s
    case Some(k) => s[..k]
  }

  /** `Vec<String>::join(" ")`. */
  function Join(parts: seq<string>): (r: string)
    ensures parts == [] ==> r == ""
    ensures parts != [] ==> StartsWith(r, parts[0])
    ensures |parts| >= 2 ==> |r| > |parts[0]| && r[|parts[0]|] == ' '
  {
    if parts == [] then ""
    else if |parts| == 1 then parts[0]
    else
      var r := parts[0] + " " + Join(parts[1..]);
      assert r[..|parts[0]|] == parts[0];
      r
  }

  /** `str::split(' ')`: the pieces between single spaces, empty ones included. */
  function SplitSpaces(s: string): (r: seq<string>)
    ensures r != []
    decreases |s|
  {
    if ' ' !in s then [s]
    else [BeforeFirst(s, ' ')] + SplitSpaces(AfterFirst(s, ' '))
  }

  /** A space-free word followed by a space splits off first. */
  lemma SplitAtFirstSpace(w: string, rest: string)
    requires ' ' !in w
    ensures SplitSpaces(w + " " + rest) == [w] + SplitSpaces(rest)
  {
    var line := w + " " + rest;
    assert line[..|w|] == w;
    IndexOfAt(line, ' ', |w|);
    assert line[|w| + 1..] == rest;
  }

  /** Joining words that hold no space and splitting the line at spaces gives the words
      back: the inner command line loses no word boundary. */
  lemma {:induction false} SplitJoin(parts: seq<string>)
    requires parts != [] && forall k :: 0 <= k < |parts| ==> ' ' !in parts[k]
    ensures SplitSpaces(Join(parts)) == parts
  {
    if |parts| >= 2 {
      var rest := Join(parts[1..]);
      assert Join(parts) == parts[0] + " " + rest;
      SplitAtFirstSpace(parts[0], rest);
      SplitJoin(parts[1..]);
      assert parts == [parts[0]] + parts[1..];
    }
  }

  /** Joining two or three words. */
  lemma JoinSmall(a: string, b: string, c: string)
    ensures Join([a]) == a
    ensures Join([a, b]) == a + " " + b
    ensures Join([a, b, c]) == a + " " + b + " " + c
  {
    assert [a, b][1..] == [b];
    assert [a, b, c][1..] == [b, c];
    assert [b, c][1..] == [c];
    assert Join([b, c]) == b + " " + c;
    assert Join([a, b, c]) == a + " " + Join([b, c]);
  }

  /** `char::is_whitespace`: the characters with the Unicode White_Space property. */
  predicate IsWhitespace(c: char) {
    ('\U{0009}' <= c <= '\U{000D}') || c == ' ' || c == '\U{0085}' || c == '\U{00A0}'
    || c == '\U{1680}' || ('\U{2000}' <= c <= '\U{200A}') || c == '\U{2028}' || c == '\U{2029}'
    || c == '\U{202F}' || c == '\U{205F}' || c == '\U{3000}'
  }

  /** `str::trim_start`. */
  function TrimStart(s: string): (r: string)
    ensures EndsWith(s, r)
    ensures r == [] || !IsWhitespace(r[0])
    ensures forall i :: 0 <= i < |s| - |r| ==> IsWhitespace(s[i])
  {
    if s != [] && IsWhitespace(s[0]) then TrimStart(s[1..]) else s
  }

  /** `str::trim_end`. */
  function TrimEnd(s: string): (r: string)
    ensures StartsWith(s, r)
    ensures r == [] || !IsWhitespace(r[|r| - 1])
    ensures forall i :: |r| <= i < |s| ==> IsWhitespace(s[i])
  {
    if s != [] && IsWhitespace(s[|s| - 1]) then TrimEnd(s[..|s| - 1]) else s
  }

  /** `str::trim`: leading and trailing whitespace removed. */
  function Trim(s: string): (r: string)
    ensures |r| <= |s|
    ensures r == [] || (!IsWhitespace(r[0]) && !IsWhitespace(r[|r| - 1]))
  {
    var t := TrimStart(s);
    var r := TrimEnd(t);
    assert r != [] ==> r[0] == t[0];
    r
  }

  /** A slice of a slice is a slice of the original. */
  lemma SliceOfSlice<T>(s: seq<T>, i: nat, j: nat, a: nat, b: nat)
    requires i <= j <= |s| && a <= b <= j - i
    ensures s[i..j][a..b] == s[i + a..i + b]
  {
    forall k | 0 <= k < b - a
      ensures s[i..j][a..b][k] == s[i + a..i + b][k]
    {
    }
  }

  /** A suffix `t` of `s` after whitespace, cut down to its prefix `r` before whitespace,
      is a slice of `s` with only whitespace outside it. */
  lemma WhitespaceOutsideSlice(s: string, t: string, r: string)
    requires EndsWith(s, t) && StartsWith(t, r)
    requires forall k :: 0 <= k < |s| - |t| ==> IsWhitespace(s[k])
    requires forall k :: |r| <= k < |t| ==> IsWhitespace(t[k])
    ensures exists i, j ::
              && 0 <= i <= j <= |s| && r == s[i..j]
              && (forall k :: 0 <= k < i ==> IsWhitespace(s[k]))
              && (forall k :: j <= k < |s| ==> IsWhitespace(s[k]))
  {
    var i := |s| - |t|;
    var j := i + |r|;
    assert t == s[i..|s|];
    assert r == t[0..|r|];
    SliceOfSlice(s, i, |s|, 0, |r|);
    forall k | j <= k < |s|
      ensures IsWhitespace(s[k])
    {
      assert s[k] == t[k - i];
    }
  }

  /** The trimmed string is the slice of `s` between its leading and trailing
      whitespace. */
  lemma TrimIsSlice(s: string)
    ensures exists i, j ::
              && 0 <= i <= j <= |s| && Trim(s) == s[i..j]
              && (forall k :: 0 <= k < i ==> IsWhitespace(s[k]))
              && (forall k :: j <= k < |s| ==> IsWhitespace(s[k]))
  {
    var t := TrimStart(s);
    WhitespaceOutsideSlice(s, t, TrimEnd(t));
  }

}
