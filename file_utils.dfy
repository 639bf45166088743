/**
 * `cleanupFile` of backend/utils/fileUtils.js over an abstract file
 * system: the set of paths that exist.
 */
module FileUtils {
  import opened Wrappers

  /** A path argument is truthy: neither null/undefined (None) nor "". */
  predicate IsTruthyPath(filePath: Option<string>) {
    filePath.Some? && filePath.value != ""
  }

  /** The paths that exist after `cleanupFile(filePath)` when `files` existed before. */
  function AfterCleanup(files: set<string>, filePath: Option<string>): (r: set<string>)
    ensures r <= files
    ensures IsTruthyPath(filePath) ==> filePath.value !in r
    ensures forall p :: p in files && (!IsTruthyPath(filePath) || p != filePath.value) ==> p in r
  {
    if IsTruthyPath(filePath) && filePath.value in files then files - {filePath.value} else files
  }

  /** A falsy path, or one that does not exist, changes nothing. */
  lemma CleanupNoOp(files: set<string>, filePath: Option<string>)
    requires !IsTruthyPath(filePath) || filePath.value !in files
    ensures AfterCleanup(files, filePath) == files
  {
  }

  /** Exactly the given path disappears, when it existed. */
  lemma CleanupRemovesExactlyTarget(files: set<string>, path: string)
    requires path != ""
    ensures AfterCleanup(files, Some(path)) == files - {path}
  {
  }

  /** A second cleanup of the same path changes nothing. */
  lemma CleanupIdempotent(files: set<string>, filePath: Option<string>)
    ensures AfterCleanup(AfterCleanup(files, filePath), filePath) == AfterCleanup(files, filePath)
  {
  }

  /** The file system the backend process sees. */
  class FileStore {
    var files: set<string>

    constructor(initial: set<string>)
      ensures files == initial
    {
      files := initial;
    }

    /** `fs.existsSync(path)`. */
    method Exists(path: string) returns (present: bool)
      ensures present <==> path in files
    {
      present := path in files;
    }

    /** `fs.unlinkSync(path)` on a path that exists. */
    method Unlink(path: string)
      requires path in files
      modifies this
      ensures files == old(files) - {path}
    {
      files := files - {path};
    }

    /** `cleanupFile(filePath)`: remove the file if the path is truthy and exists; never fails. */
    method CleanupFile(filePath: Option<string>)
      modifies this
      ensures files == AfterCleanup(old(files), filePath)
    {
      if IsTruthyPath(filePath) {
        var present := Exists(filePath.value);
        if present {
          Unlink(filePath.value);
        }
      }
    }
  }
}
