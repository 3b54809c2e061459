/** The on-disk artifacts of a stitching task: where they are kept (main.py:63-69), how an
    upload is saved (main.py:72-78) and how files are removed (main.py:114-121). The
    filesystem is the set of paths that exist. */
module Artifacts {
  import opened Wrappers

  /** The temp directory every artifact lives in. */
  const TempDir: string := "/app/media/temp"

  /** `os.path.join(temp_dir, f"{task_id}{ext}")`, for a task id without a leading `/`. */
  function TaskPath(taskId: string, ext: string): (path: string)
    ensures |path| == |TempDir| + 1 + |taskId| + |ext|
    ensures path[..|TempDir| + 1] == TempDir + "/"
    ensures path[|TempDir| + 1..|path| - |ext|] == taskId
    ensures path[|path| - |ext|..] == ext
  {
    TempDir + "/" + taskId + ext
  }

  /** The extension of an upload: the one taken from its filename, or `default` when the
      upload has no filename. */
  function ExtOrDefault(fromFilename: Option<string>, default: string): (ext: string)
    ensures fromFilename.None? ==> ext == default
    ensures fromFilename.Some? ==> ext == fromFilename.value
  {
    match fromFilename
    case Some(ext) => ext
    case None => default
  }

  /** Two artifacts of the same task share a path exactly when they share an extension. */
  lemma {:induction false} SameTaskPaths(taskId: string, ext1: string, ext2: string)
    ensures TaskPath(taskId, ext1) == TaskPath(taskId, ext2) <==> ext1 == ext2
  {
    var prefix := TempDir + "/" + taskId;
    assert TaskPath(taskId, ext1) == prefix + ext1;
    assert TaskPath(taskId, ext2) == prefix + ext2;
    if prefix + ext1 == prefix + ext2 {
      assert (prefix + ext1)[|prefix|..] == ext1;
      assert (prefix + ext2)[|prefix|..] == ext2;
    }
  }

  /** Task ids of one length (as every uuid4 string is) never share an artifact path. */
  lemma {:induction false} DistinctTaskPaths(id1: string, id2: string, ext1: string, ext2: string)
    requires |id1| == |id2| && id1 != id2
    ensures TaskPath(id1, ext1) != TaskPath(id2, ext2)
  {
    var k :| 0 <= k < |id1| && id1[k] != id2[k];
    var n := |TempDir + "/"|;
    assert TaskPath(id1, ext1)[n + k] == id1[k];
    assert TaskPath(id2, ext2)[n + k] == id2[k];
  }

  /** How writing one upload to disk went: written; `open` failed, so no file was made;
      or the copy failed after `open` had created the file. */
  datatype SaveOutcome = Saved | OpenFailed(message: string) | CopyFailed(message: string)
  {
    /** The message of the exception raised, if any. */
    function Message(): string
    {
      match this
      case Saved => ""
      case OpenFailed(m) => m
      case CopyFailed(m) => m
    }
  }

  /** The paths present after removing each listed path that exists, in order, where the
      removal of a path in `denied` raises OSError and leaves that file in place. */
  function Cleaned(files: set<string>, paths: seq<string>, denied: set<string>): (r: set<string>)
    ensures forall p :: p in r <==> p in files && (p !in paths || p in denied)
    decreases |paths|
  {
    if paths == [] then files
    else
      var before := Cleaned(files, paths[..|paths| - 1], denied);
      var p := paths[|paths| - 1];
      if p in before && p !in denied then before - {p} else before
  }

  /** Cleaning up the same list twice leaves what cleaning it up once leaves. */
  lemma CleanupIdempotent(files: set<string>, paths: seq<string>, denied: set<string>)
    ensures Cleaned(Cleaned(files, paths, denied), paths, denied) == Cleaned(files, paths, denied)
  {
    var once := Cleaned(files, paths, denied);
    var twice := Cleaned(once, paths, denied);
    assert forall p :: p in twice <==> p in once;
  }

  /** The filesystem, as the set of paths that exist. */
  class FileSystem {
    var files: set<string>

    constructor (existing: set<string>)
      ensures files == existing
    {
      files := existing;
    }

    /** `open(path, "wb")` followed by a copy of the upload: the file exists afterwards
        unless `open` itself failed. */
    method Save(path: string, outcome: SaveOutcome) returns (ok: bool)
      modifies this
      ensures ok <==> outcome.Saved?
      ensures files == if outcome.OpenFailed? then old(files) else old(files) + {path}
    {
      if outcome.OpenFailed? {
        return false;
      }
      files := files + {path};
      ok := outcome.Saved?;
    }

    /** `cleanup_files`: for each listed path that exists, try to remove it; a failed
        removal is reported and skipped, never raised. */
    method CleanupFiles(paths: seq<string>, denied: set<string>)
      modifies this
      ensures files == Cleaned(old(files), paths, denied)
    {
      var i := 0;
      while i < |paths|
        invariant 0 <= i <= |paths|
        invariant files == Cleaned(old(files), paths[..i], denied)
      {
        var path := paths[i];
        assert paths[..i + 1][..i] == paths[..i];
        if path in files {
          if path !in denied {
            files := files - {path};
          }
        }
        i := i + 1;
      }
      assert paths[..i] == paths;
    }
  }
}
