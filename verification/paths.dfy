/** Relative paths as strings, with the separator `filepath.Join` inserts. */
module Paths {

  const Separator: char := '/'

  /** `p` lies strictly inside directory `dir` */
  predicate Under(p: string, dir: string)
  {
    |dir| < |p| && p[..|dir| + 1] == dir + [Separator]
  }

  /** `p` is `dir` itself or lies inside it: what `os.RemoveAll(dir)` removes */
  predicate InTree(p: string, dir: string)
  {
    p == dir || Under(p, dir)
  }

  /** `filepath.Join(dir, name)` for the directory `results` and a plain file name */
  function Join(dir: string, name: string): (p: string)
    ensures name == [] ==> p == dir
    ensures name != [] ==> Under(p, dir) && p[|dir| + 1..] == name
  {
    if name == [] then dir else dir + [Separator] + name
  }

  /** Lying inside is transitive: what is inside a subdirectory is inside its parent */
  lemma UnderTransitive(p: string, q: string, dir: string)
    requires Under(p, q) && Under(q, dir)
    ensures Under(p, dir)
  {
    assert p[..|dir| + 1] == p[..|q| + 1][..|dir| + 1];
  }
}
