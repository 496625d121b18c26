/**
 * The filesystem as the set of paths that are recorded in it (files and
 * directories alike), and the results-directory reset done before the batch.
 */
module FileSystem {

  import opened Paths

  type Fs = set<string>

  /** `os.Stat(p)` succeeds: p is recorded, or something recorded lies below it */
  predicate Exists(fs: Fs, p: string)
  {
    p in fs || exists q :: q in fs && Under(q, p)
  }

  /** `os.RemoveAll(dir)`: dir and everything below it disappear */
  function RemoveAll(fs: Fs, dir: string): (r: Fs)
    ensures !Exists(r, dir)
    ensures forall p :: !InTree(p, dir) ==> (p in r <==> p in fs)
  {
    var r := set p | p in fs && !InTree(p, dir);
    assert forall q :: q in r ==> !Under(q, dir);
    r
  }

  /** `os.MkdirAll(dir)` for a single-segment relative directory that succeeds */
  function MkdirAll(fs: Fs, dir: string): (r: Fs)
    ensures dir in r
    ensures forall p :: p != dir ==> (p in r <==> p in fs)
  {
    fs + {dir}
  }

  /** The paths recorded below `dir` */
  function Contents(fs: Fs, dir: string): (r: set<string>)
    ensures forall p :: p in r <==> p in fs && Under(p, dir)
  {
    set p | p in fs && Under(p, dir)
  }

  datatype Prepared = Ready(fs: Fs) | CreateFailed(fs: Fs)

  /**
   * The results-directory reset: create the directory when it is missing,
   * otherwise remove it with all its contents and create it again. Whether
   * `MkdirAll` succeeds is the parameter `mkdirOk`; `RemoveAll`, whose error
   * the program ignores, always succeeds here.
   */
  function PrepareOutputDir(fs: Fs, dir: string, mkdirOk: bool): (r: Prepared)
    ensures r.Ready? <==> mkdirOk
    ensures r.Ready? ==> dir in r.fs && forall p :: p in r.fs ==> !Under(p, dir)
    ensures r.CreateFailed? ==> !Exists(r.fs, dir)
    ensures forall p :: !InTree(p, dir) ==> (p in r.fs <==> p in fs)
  {
    if !Exists(fs, dir) then
      if mkdirOk then Ready(MkdirAll(fs, dir)) else CreateFailed(fs)
    else
      var cleared := RemoveAll(fs, dir);
      if mkdirOk then Ready(MkdirAll(cleared, dir)) else CreateFailed(cleared)
  }

  /** Resetting a freshly reset directory changes nothing */
  lemma PrepareIdempotent(fs: Fs, dir: string)
    ensures var once := PrepareOutputDir(fs, dir, true).fs;
      PrepareOutputDir(once, dir, true) == Ready(once)
  {
  }
}
