/** POSIX paths as Python's `pathlib.PurePosixPath` treats them: a path is
    absolute or relative and has a list of components; `str` joins the
    components with `/`, parsing a string drops empty and `.` components, and
    `/` with an absolute right-hand side discards the left-hand side. */
module Paths {
  import opened Results
  import opened Text

  datatype Path = Path(absolute: bool, parts: seq<string>)

  /** A component as `PurePosixPath` keeps it: non-empty, not `.`, no `/`. */
  predicate ValidPart(s: string) {
    s != [] && s != "." && '/' !in s
  }

  predicate Valid(p: Path) {
    forall i :: 0 <= i < |p.parts| ==> ValidPart(p.parts[i])
  }

  /** The pieces of a split string that become components. */
  function Keep(pieces: seq<string>): (r: seq<string>)
    ensures |r| <= |pieces|
    ensures forall i :: 0 <= i < |r| ==> r[i] in pieces && r[i] != [] && r[i] != "."
  {
    if pieces == [] then []
    else if pieces[0] == [] || pieces[0] == "." then Keep(pieces[1..])
    else [pieces[0]] + Keep(pieces[1..])
  }

  lemma {:induction false} KeepValid(pieces: seq<string>)
    requires forall i :: 0 <= i < |pieces| ==> ValidPart(pieces[i])
    ensures Keep(pieces) == pieces
  {
    if pieces != [] {
      KeepValid(pieces[1..]);
      assert [pieces[0]] + pieces[1..] == pieces;
    }
  }

  /** `PurePosixPath(s)`. */
  function Parse(s: string): (p: Path)
    ensures Valid(p)
    ensures p.absolute <==> |s| > 0 && s[0] == '/'
  {
    var pieces := SplitOn(s, '/');
    var parts := Keep(pieces);
    assert forall i :: 0 <= i < |parts| ==> '/' !in parts[i] by {
      forall i | 0 <= i < |parts| ensures '/' !in parts[i] {
        var j :| 0 <= j < |pieces| && pieces[j] == parts[i];
      }
    }
    Path(|s| > 0 && s[0] == '/', parts)
  }

  /** `str(p)`. */
  function Str(p: Path): string {
    if p.absolute then "/" + JoinWith(p.parts, '/')
    else if p.parts == [] then "."
    else JoinWith(p.parts, '/')
  }

  /** Printing a valid path and parsing it again gives back the path. */
  lemma ParseStr(p: Path)
    requires Valid(p)
    ensures Parse(Str(p)) == p
  {
    var s := Str(p);
    if p.absolute {
      if p.parts == [] {
        assert s == "/";
        assert SplitOn(s, '/') == [[], []];
      } else {
        SplitJoin(p.parts, '/');
        SplitAfterPiece([], '/', JoinWith(p.parts, '/'));
        assert s == [] + ['/'] + JoinWith(p.parts, '/');
        KeepValid(p.parts);
        assert SplitOn(s, '/') == [[]] + p.parts;
        assert ([[]] + p.parts)[1..] == p.parts;
      }
    } else if p.parts == [] {
      SplitNoSeparator(".", '/');
    } else {
      SplitJoin(p.parts, '/');
      KeepValid(p.parts);
      if |p.parts| > 1 {
        assert s == p.parts[0] + ['/'] + JoinWith(p.parts[1..], '/');
      }
      assert s[0] == p.parts[0][0];
    }
  }

  /** `PurePosixPath(name)` for a single component. */
  lemma ParseName(name: string)
    requires ValidPart(name)
    ensures Parse(name) == Path(false, [name])
  {
    SplitNoSeparator(name, '/');
    KeepValid([name]);
  }

  /** `a / b`. */
  function Join(a: Path, b: Path): (r: Path)
    ensures Valid(a) && Valid(b) ==> Valid(r)
  {
    if b.absolute then b else Path(a.absolute, a.parts + b.parts)
  }

  /** `p / name` for a single component `name`. */
  function Child(p: Path, name: string): (r: Path)
    ensures r.absolute == p.absolute && |r.parts| == |p.parts| + 1
    ensures Valid(p) && ValidPart(name) ==> Valid(r)
  {
    Path(p.absolute, p.parts + [name])
  }

  /** Appending one component is `/` with that component parsed. */
  lemma ChildIsJoin(p: Path, name: string)
    requires ValidPart(name)
    ensures Child(p, name) == Join(p, Parse(name))
  {
    ParseName(name);
  }

  /** `p.parent`: the path without its last component; the root and the empty
      relative path are their own parents. */
  function Parent(p: Path): (r: Path)
    ensures r.absolute == p.absolute
    ensures p.parts == [] ==> r == p
    ensures p.parts != [] ==> r.parts + [p.parts[|p.parts| - 1]] == p.parts
  {
    if p.parts == [] then p else Path(p.absolute, p.parts[..|p.parts| - 1])
  }

  /** `p.relative_to(base)`: the relative path that leads from `base` to `p`;
      ValueError when `p` is not `base` or below it. */
  function RelativeTo(p: Path, base: Path): (r: Result<Path>)
    ensures r.Ok? <==> p.absolute == base.absolute && base.parts <= p.parts
    ensures r.Ok? ==> !r.value.absolute && Join(base, r.value) == p
    ensures r.Ok? && Valid(p) ==> Valid(r.value)
    ensures r.Err? ==> r.error == ValueError
  {
    if p.absolute == base.absolute && base.parts <= p.parts then
      var rel := Path(false, p.parts[|base.parts|..]);
      assert base.parts + rel.parts == p.parts;
      Ok(rel)
    else Err(ValueError)
  }

  /** Going down from `base` and taking the path relative to `base` again
      gives back the relative part. */
  lemma RelativeToJoin(base: Path, rel: Path)
    requires !rel.absolute
    ensures RelativeTo(Join(base, rel), base) == Ok(rel)
  {
    assert (base.parts + rel.parts)[|base.parts|..] == rel.parts;
  }

  /** `p.expanduser()` for the bare `~` form: a relative path whose first
      component is exactly `~` is re-rooted at `home`. The `~user` form
      (a first component `~alice`) is not modelled: it is kept as it is,
      where Python looks up that user's home directory or raises
      RuntimeError when there is none. */
  function ExpandUser(p: Path, home: Path): (r: Path)
    ensures !p.absolute && p.parts != [] && p.parts[0] == "~" ==>
      && r.absolute == home.absolute && r.parts == home.parts + p.parts[1..]
      && RelativeTo(r, home) == Ok(Path(false, p.parts[1..]))
    ensures !(!p.absolute && p.parts != [] && p.parts[0] == "~") ==> r == p
    ensures Valid(p) && Valid(home) ==> Valid(r)
  {
    if !p.absolute && p.parts != [] && p.parts[0] == "~" then
      var rest := Path(false, p.parts[1..]);
      RelativeToJoin(home, rest);
      Join(home, rest)
    else p
  }
}
