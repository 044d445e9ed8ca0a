/**
 * The few pathlib rules the core relies on: joining segments onto a path,
 * `name`, `parent`, `stem`, `suffix` and `with_suffix`, for POSIX paths.
 */
module Paths {
  import opened Wrappers
  import opened Text

  /** A path component as pathlib stores it: never empty, never ".", no separator. */
  predicate PlainSegment(s: string) {
    s != "" && s != "." && '/' !in s
  }

  /** A parsed pure path: whether it is rooted, and its components. */
  datatype FilePath = FilePath(absolute: bool, parts: seq<string>)

  predicate WellFormed(p: FilePath) {
    forall i :: 0 <= i < |p.parts| ==> PlainSegment(p.parts[i])
  }

  /** The pieces of a string split on "/" that pathlib keeps: empty and "." pieces vanish. */
  function Segments(pieces: seq<string>): (r: seq<string>)
    ensures forall i :: 0 <= i < |r| ==> r[i] in pieces && r[i] != "" && r[i] != "."
  {
    if pieces == [] then []
    else if pieces[0] == "" || pieces[0] == "." then Segments(pieces[1..])
    else [pieces[0]] + Segments(pieces[1..])
  }

  /** Plain segments are kept as they are. */
  lemma {:induction false} SegmentsOfPlain(pieces: seq<string>)
    requires forall i :: 0 <= i < |pieces| ==> PlainSegment(pieces[i])
    ensures Segments(pieces) == pieces
  {
    if pieces != [] {
      SegmentsOfPlain(pieces[1..]);
    }
  }

  /** `Path(s)` for a POSIX string. */
  function Parse(s: string): (p: FilePath)
    ensures WellFormed(p)
    ensures p.absolute <==> (s != [] && s[0] == '/')
  {
    var pieces := Split(s, '/');
    FilePath(s != [] && s[0] == '/', Segments(pieces))
  }

  /** `p / s`: a rooted string replaces the path, anything else is appended piece by piece. */
  function Append(p: FilePath, s: string): (r: FilePath)
    requires WellFormed(p)
    ensures WellFormed(r)
  {
    var q := Parse(s);
    if q.absolute then q else FilePath(p.absolute, p.parts + q.parts)
  }

  /** `Path(p, *segments)`: the segments joined on one after another. */
  function AppendAll(p: FilePath, segments: seq<string>): (r: FilePath)
    requires WellFormed(p)
    ensures WellFormed(r)
    decreases |segments|
  {
    if segments == [] then p else AppendAll(Append(p, segments[0]), segments[1..])
  }

  /** `name`: the last component, or "" for a path without components. */
  function Name(p: FilePath): string {
    if p.parts == [] then "" else p.parts[|p.parts| - 1]
  }

  /** `parent`: the path without its last component; a path without components is its own parent. */
  function Parent(p: FilePath): (r: FilePath)
    ensures r.absolute == p.absolute
    ensures p.parts != [] ==> r.parts + [Name(p)] == p.parts
    ensures p.parts == [] ==> r == p
  {
    if p.parts == [] then p else FilePath(p.absolute, p.parts[..|p.parts| - 1])
  }

  /** `rfind(c)`: the index of the last occurrence of c, or -1. */
  function RFind(s: string, c: char): (r: int)
    ensures -1 <= r < |s|
    ensures r >= 0 ==> s[r] == c && forall j :: r < j < |s| ==> s[j] != c
    ensures r == -1 ==> c !in s
  {
    if s == [] then -1
    else if s[|s| - 1] == c then |s| - 1
    else RFind(s[..|s| - 1], c)
  }

  /** A name has a suffix when its last "." is neither its first nor its last character. */
  predicate HasSuffix(name: string) {
    0 < RFind(name, '.') < |name| - 1
  }

  /** `suffix`: from the last "." on, when the name has one; otherwise "". */
  function Suffix(name: string): (r: string)
    ensures r == "" || (r[0] == '.' && |r| >= 2 && '.' !in r[1..])
  {
    if HasSuffix(name) then name[RFind(name, '.')..] else ""
  }

  /** `stem`: the name without its suffix. */
  function Stem(name: string): (r: string)
    ensures r + Suffix(name) == name
  {
    if HasSuffix(name) then name[..RFind(name, '.')] else name
  }

  /** Why pathlib refuses `with_suffix`. */
  datatype PathError = EmptyName

  /** What `with_suffix` accepts as a suffix: "" or "." followed by at least one character. */
  predicate ValidSuffix(suffix: string) {
    suffix == "" || (suffix[0] == '.' && |suffix| >= 2 && '/' !in suffix)
  }

  /** `with_suffix(suffix)`: the last component's stem followed by the new suffix. */
  function WithSuffix(p: FilePath, suffix: string): (r: Result<FilePath, PathError>)
    requires ValidSuffix(suffix)
    ensures r.Err? <==> p.parts == []
    ensures r.Ok? ==> Parent(r.value) == Parent(p) && Name(r.value) == Stem(Name(p)) + suffix
  {
    if p.parts == [] then Err(EmptyName)
    else Ok(FilePath(p.absolute, p.parts[..|p.parts| - 1] + [Stem(Name(p)) + suffix]))
  }

  /** A path built with `with_suffix` reports that suffix back and keeps the stem it had. */
  lemma WithSuffixRoundTrip(p: FilePath, suffix: string)
    requires ValidSuffix(suffix) && suffix != "" && '.' !in suffix[1..]
    requires Name(p) != ""
    ensures Suffix(Name(WithSuffix(p, suffix).value)) == suffix
    ensures Stem(Name(WithSuffix(p, suffix).value)) == Stem(Name(p))
  {
    var stem := Stem(Name(p));
    var n := stem + suffix;
    assert Name(WithSuffix(p, suffix).value) == n;
    if HasSuffix(Name(p)) {
      assert |stem| == RFind(Name(p), '.') > 0;
    } else {
      assert stem == Name(p);
    }
    assert n[|stem|] == '.';
    assert forall j :: |stem| < j < |n| ==> n[j] == suffix[j - |stem|];
    assert RFind(n, '.') == |stem|;
  }

  /** Joining a plain name onto a path appends exactly that name: its parent is the path again. */
  lemma AppendPlain(p: FilePath, s: string)
    requires WellFormed(p) && PlainSegment(s)
    ensures Append(p, s) == FilePath(p.absolute, p.parts + [s])
    ensures Parent(Append(p, s)) == p && Name(Append(p, s)) == s
  {
    assert Join([s], "/") == s;
    SplitJoin([s], '/');
    SegmentsOfPlain([s]);
  }

  /** Joining plain names one after another appends exactly those names. */
  lemma {:induction false} AppendAllPlain(p: FilePath, segments: seq<string>)
    requires WellFormed(p)
    requires forall i :: 0 <= i < |segments| ==> PlainSegment(segments[i])
    ensures AppendAll(p, segments) == FilePath(p.absolute, p.parts + segments)
    decreases |segments|
  {
    if segments != [] {
      AppendPlain(p, segments[0]);
      AppendAllPlain(Append(p, segments[0]), segments[1..]);
      assert p.parts + [segments[0]] + segments[1..] == p.parts + segments;
    }
  }

  /** `str(p)` for a POSIX path: "." for the empty relative path. */
  function PathString(p: FilePath): (r: string)
    ensures !p.absolute && p.parts != [] ==> r == Join(p.parts, "/")
  {
    if p.absolute then "/" + Join(p.parts, "/")
    else if p.parts == [] then "."
    else Join(p.parts, "/")
  }
}
