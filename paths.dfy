/**
 * POSIX paths as Node's `path` module treats them.  An absolute, normalised
 * path is the sequence of its segments; the root directory is the empty
 * sequence.
 */
module Paths {
  import opened Text

  type Path = seq<string>

  /** A segment of a normalised path: not empty, not `.` or `..`, no `/`. */
  predicate IsSegment(x: string) {
    x != "" && x != "." && x != ".." && '/' !in x
  }

  predicate Normal(p: Path) {
    forall i :: 0 <= i < |p| ==> IsSegment(p[i])
  }

  /** The path as a string: `/` for the root, otherwise `/a/b`. */
  function Str(p: Path): string {
    "/" + Join(p, "/")
  }

  /** One segment of a relative path applied to a directory. */
  function Step(dir: Path, seg: string): (r: Path)
    ensures Normal(dir) && '/' !in seg ==> Normal(r)
  {
    if seg == "" || seg == "." then dir
    else if seg == ".." then (if dir == [] then [] else dir[..|dir| - 1])
    else dir + [seg]
  }

  /** The segments applied left to right, as `path.normalize` does. */
  function Apply(dir: Path, segs: seq<string>): (r: Path)
    requires forall i :: 0 <= i < |segs| ==> '/' !in segs[i]
    ensures Normal(dir) ==> Normal(r)
    decreases |segs|
  {
    if segs == [] then dir else Apply(Step(dir, segs[0]), segs[1..])
  }

  function Segments(s: string): (r: seq<string>)
    ensures forall i :: 0 <= i < |r| ==> '/' !in r[i]
  {
    var parts := Split(s, '/');
    assert forall i :: 0 <= i < |parts| ==> '/' !in parts[i] by {
      forall i | 0 <= i < |parts| ensures '/' !in parts[i] {
        assert forall j :: 0 <= j < |parts[i]| ==> parts[i][j] != '/';
      }
    }
    parts
  }

  /** `path.resolve(base, s)`: an absolute `s` starts again from the root. */
  function Resolve(base: Path, s: string): (r: Path)
    ensures Normal(base) ==> Normal(r)
  {
    Apply(if |s| > 0 && s[0] == '/' then [] else base, Segments(s))
  }

  /** `path.join(dir, name)` for an absolute `dir`. */
  function JoinPath(dir: Path, name: string): (r: Path)
    ensures Normal(dir) ==> Normal(r)
  {
    Apply(dir, Segments(name))
  }

  /** `path.dirname(p)`: the root is its own parent. */
  function Dirname(p: Path): (r: Path)
    ensures r <= p
    ensures r == p <==> p == []
    ensures p != [] ==> |r| == |p| - 1
  {
    if p == [] then [] else p[..|p| - 1]
  }

  /** `path.basename(s)`: the last non-empty `/`-separated part, or "". */
  function Basename(s: string): (r: string)
    ensures '/' !in r
    ensures r == "" <==> forall i :: 0 <= i < |Segments(s)| ==> Segments(s)[i] == ""
    ensures r != "" ==> exists i :: 0 <= i < |Segments(s)| && Segments(s)[i] == r
                                    && forall j :: i < j < |Segments(s)| ==> Segments(s)[j] == ""
  {
    LastNonEmpty(Segments(s))
  }

  function LastNonEmpty(parts: seq<string>): (r: string)
    requires forall i :: 0 <= i < |parts| ==> '/' !in parts[i]
    ensures r == "" || r in parts
    ensures '/' !in r
    ensures r == "" <==> forall i :: 0 <= i < |parts| ==> parts[i] == ""
    ensures r != "" ==> exists i :: 0 <= i < |parts| && parts[i] == r
                                    && forall j :: i < j < |parts| ==> parts[j] == ""
  {
    if parts == [] then ""
    else if parts[|parts| - 1] != "" then parts[|parts| - 1]
    else LastNonEmpty(parts[..|parts| - 1])
  }

  /** A plain file name resolves to that name inside the base directory. */
  lemma ResolveName(base: Path, name: string)
    requires IsSegment(name)
    ensures Resolve(base, name) == base + [name]
  {
    SplitWithoutSeparator(name, '/');
    var segs := Segments(name);
    assert segs == [name] && segs[1..] == [];
    assert name[0] != '/';
    assert Resolve(base, name) == Apply(Step(base, name), []);
  }
}
