/**
 * The local filesystem, reduced to the set of existing directories and a log
 * of the `mkdir` calls made on it. Whether a `mkdir` succeeds, and whether a
 * concurrent process creates the directory meanwhile, is decided by the
 * environment and passed in as a `MkdirEffect`.
 */
module FileSystem {

  /** What a `mkdir` call turned out to do. */
  datatype MkdirEffect =
    | Created                                  // `mkdir` returned true and made the directory
    | Failed(concurrentlyCreated: bool)        // `mkdir` returned false; another process may have made it

  /** The directories that exist once a `mkdir` of `path` with the given effect has returned. */
  function DirsAfterMkdir(dirs: set<string>, path: string, effect: MkdirEffect): (r: set<string>)
    ensures dirs <= r <= dirs + {path}
    ensures path in r <==> path in dirs || effect.Created? || effect == Failed(true)
  {
    if effect.Created? || effect.concurrentlyCreated then dirs + {path} else dirs
  }

  class Disk {
    var dirs: set<string>
    var mkdirCalls: seq<string>

    constructor (existing: set<string>)
      ensures dirs == existing && mkdirCalls == []
    {
      dirs := existing;
      mkdirCalls := [];
    }

    /** `is_dir($path)`. */
    function IsDir(path: string): (r: bool)
      reads this
      ensures r <==> path in dirs
    {
      path in dirs
    }

    /** `mkdir($path, 0755, true)`: returns whether the call itself succeeded. */
    method Mkdir(path: string, effect: MkdirEffect) returns (ok: bool)
      modifies this
      ensures ok <==> effect.Created?
      ensures ok ==> path in dirs
      ensures dirs == DirsAfterMkdir(old(dirs), path, effect)
      ensures mkdirCalls == old(mkdirCalls) + [path]
    {
      ok := effect.Created?;
      dirs := DirsAfterMkdir(dirs, path, effect);
      mkdirCalls := mkdirCalls + [path];
    }
  }
}
