/** File paths as the action builds them with `path.join`. */
module Paths {
  import opened Text

  type Path = string

  /** `path.join(dir, name)` for a plain file name: the two joined by one separator. */
  function PathJoin(dir: Path, name: string): (p: Path)
    ensures |p| > |dir| && p[..|dir| + 1] == dir + "/"
  {
    dir + "/" + name
  }

  /** In one directory, different names give different paths. */
  lemma PathJoinInjective(dir: Path, a: string, b: string)
    requires PathJoin(dir, a) == PathJoin(dir, b)
    ensures a == b
  {
    CancelPrefix(dir + "/", a, b);
  }
}
