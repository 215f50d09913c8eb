/** Host paths as lists of segments, and the part of Node's `path.resolve`
    that the devnet uses: joining a base directory with relative segments. */
module Paths {

  /** An absolute host path, segment by segment; the root is `[]`. */
  type Path = seq<string>

  /** A segment that names a directory entry (not empty, not `.` or `..`). */
  predicate Plain(seg: string) {
    seg != "" && seg != "." && seg != ".."
  }

  /** A path in normal form: every segment names an entry. */
  predicate Normal(p: Path) {
    forall i :: 0 <= i < |p| ==> Plain(p[i])
  }

  /** One segment of `path.resolve`: empty and `.` segments are skipped,
      `..` climbs one level (the root is its own parent), any other
      segment descends. */
  function Step(p: Path, seg: string): (r: Path)
    ensures Normal(p) ==> Normal(r)
    ensures |p| - 1 <= |r| <= |p| + 1
    ensures |r| == |p| + 1 <==> Plain(seg)
    ensures |r| <= |p| ==> r == p[..|r|]
  {
    if seg == "" || seg == "." then p
    else if seg == ".." then (if p == [] then [] else p[..|p| - 1])
    else p + [seg]
  }

  /** `path.resolve(base, ...segs)` for a base in normal form and segments
      that contain no separator. */
  function Resolve(base: Path, segs: seq<string>): (r: Path)
    ensures Normal(base) ==> Normal(r)
    ensures |base| - |segs| <= |r| <= |base| + |segs|
    decreases |segs|
  {
    if segs == [] then base else Resolve(Step(base, segs[0]), segs[1..])
  }

  /** Resolving plain segments appends them. */
  lemma {:induction false} ResolvePlain(base: Path, segs: seq<string>)
    requires forall i :: 0 <= i < |segs| ==> Plain(segs[i])
    ensures Resolve(base, segs) == base + segs
    decreases |segs|
  {
    if segs != [] {
      ResolvePlain(base + [segs[0]], segs[1..]);
      assert base + [segs[0]] + segs[1..] == base + segs;
    }
  }

  /** Resolving a normal path keeps it normal when the segments are plain
      or empty. */
  lemma {:induction false} ResolveNormal(base: Path, segs: seq<string>)
    requires Normal(base)
    requires forall i :: 0 <= i < |segs| ==> segs[i] == "" || Plain(segs[i])
    ensures Normal(Resolve(base, segs))
    ensures |base| <= |Resolve(base, segs)| <= |base| + |segs|
    decreases |segs|
  {
    if segs != [] {
      ResolveNormal(Step(base, segs[0]), segs[1..]);
    }
  }

  /** `path.resolve(dir, '..', name)` is the sibling `name` of `dir`. */
  lemma SiblingOf(dir: Path, name: string)
    requires dir != [] && Plain(name)
    ensures Resolve(dir, ["..", name]) == dir[..|dir| - 1] + [name]
  {
    var up := dir[..|dir| - 1];
    assert Step(dir, "..") == up;
    assert ["..", name][1..] == [name];
    assert Resolve(dir, ["..", name]) == Resolve(up, [name]);
    assert [name][1..] == [];
    assert Resolve(up, [name]) == Resolve(up + [name], []);
  }

  /** The textual form of a path, as passed on a command line. */
  function Text(p: Path): (s: string)
  {
    if p == [] then "/" else Joined(p)
  }

  function Joined(p: Path): (s: string)
  {
    if p == [] then "" else "/" + p[0] + Joined(p[1..])
  }
}
