/**
 * A file system reduced to what the background services touch: a map from
 * the paths they name to entries, a directory holding its children by
 * name.  `clear_directory` / `clear_directories` empty directories in place.
 */
module Directory {
  import opened Wrappers
  import opened Text

  /** A directory entry: a regular file, a symbolic link, something else (a socket, a FIFO), or a directory. */
  datatype Entry = File | Link | Special | Dir(children: map<string, Entry>)

  /** The paths the services name, with what each holds. */
  type Fs = map<string, Entry>

  /** What escapes a clearing call: `os.listdir` on a non-directory, or a path that is not a string. */
  datatype FsError = NotADirectory(path: string) | TypeError

  /**
   * An entry left behind by a clearing pass: neither a file, a link nor a
   * directory (so neither branch removes it), or its removal raised (the
   * error is printed and the loop goes on).
   */
  predicate Survives(e: Entry, path: string, fails: string -> bool) {
    e.Special? || fails(path)
  }

  /** The children a clearing pass leaves in the directory at `dir`. */
  function Survivors(children: map<string, Entry>, dir: string, fails: string -> bool): (kept: map<string, Entry>)
    ensures kept.Keys <= children.Keys
    ensures forall n :: n in kept ==> kept[n] == children[n]
    ensures forall n :: n in children ==> (n in kept <==> Survives(children[n], PathJoin(dir, n), fails))
  {
    map n | n in children && Survives(children[n], PathJoin(dir, n), fails) :: children[n]
  }

  /** A second clearing pass over what a first pass kept keeps all of it. */
  lemma SurvivorsIdempotent(children: map<string, Entry>, dir: string, fails: string -> bool)
    ensures Survivors(Survivors(children, dir, fails), dir, fails) == Survivors(children, dir, fails)
  {
  }

  /**
   * `clear_directory(path)` for a path given as a string: nothing happens
   * when it does not exist; listing a non-directory raises; otherwise every
   * child that does not survive is removed and the directory itself stays.
   */
  function ClearOne(fs: Fs, path: string, fails: string -> bool): (r: Result<Fs, FsError>)
    ensures path !in fs ==> r == Success(fs)
    ensures path in fs && !fs[path].Dir? ==> r == Failure(NotADirectory(path))
    ensures path in fs && fs[path].Dir? ==> r.Success? && r.value.Keys == fs.Keys && r.value[path].Dir?
    ensures path in fs && fs[path].Dir? ==> r.value[path] == Dir(Survivors(fs[path].children, path, fails))
    ensures r.Success? ==> forall p :: p in fs && p != path ==> p in r.value && r.value[p] == fs[p]
  {
    if path !in fs then Success(fs)
    else if !fs[path].Dir? then Failure(NotADirectory(path))
    else Success(fs[path := Dir(Survivors(fs[path].children, path, fails))])
  }

  /** `clear_directory` as a loop over the directory listing, in whatever order the listing comes. */
  method ClearDirectory(fs: Fs, path: string, fails: string -> bool) returns (r: Result<Fs, FsError>)
    ensures r == ClearOne(fs, path, fails)
  {
    if path !in fs {
      return Success(fs);
    }
    if !fs[path].Dir? {
      return Failure(NotADirectory(path));
    }
    var children := fs[path].children;
    var remaining := children.Keys;
    var kept := children;
    while remaining != {}
      invariant remaining <= children.Keys
      invariant kept.Keys <= children.Keys
      invariant forall n :: n in kept ==> kept[n] == children[n]
      invariant forall n :: n in remaining ==> n in kept
      invariant forall n :: n in children && n !in remaining ==>
                  (n in kept <==> Survives(children[n], PathJoin(path, n), fails))
      decreases |remaining|
    {
      var n :| n in remaining;
      if !Survives(children[n], PathJoin(path, n), fails) {
        kept := kept - {n};
      }
      remaining := remaining - {n};
    }
    assert kept == Survivors(children, path, fails);
    return Success(fs[path := Dir(kept)]);
  }

  /** The argument a caller hands `clear_directory`: a path, or (by mistake) a list of paths. */
  datatype PathArg = PathText(path: string) | PathList(paths: seq<string>)

  /**
   * `clear_directory(arg)`: `os.path.exists` hands its argument to
   * `os.stat`, which refuses a list with TypeError; `exists` only catches
   * OSError and ValueError, so the TypeError escapes.
   */
  function ClearDirectoryArg(fs: Fs, arg: PathArg, fails: string -> bool): (r: Result<Fs, FsError>)
    ensures arg.PathList? ==> r == Failure(TypeError)
    ensures arg.PathText? ==> r == ClearOne(fs, arg.path, fails)
  {
    match arg
    case PathList(_) => Failure(TypeError)
    case PathText(p) => ClearOne(fs, p, fails)
  }

  /** `clear_directories(paths)`: each path in turn; the first listing error escapes. */
  function ClearAll(fs: Fs, paths: seq<string>, fails: string -> bool): (r: Result<Fs, FsError>)
    ensures r.Success? ==> r.value.Keys == fs.Keys
    ensures r.Success? ==> forall p :: p in fs && p !in paths ==> r.value[p] == fs[p]
    ensures r.Success? ==> forall p :: p in paths && p in fs ==>
              fs[p].Dir? && r.value[p] == Dir(Survivors(fs[p].children, p, fails))
    decreases |paths|
  {
    if |paths| == 0 then Success(fs)
    else
      match ClearOne(fs, paths[0], fails)
      case Failure(e) => Failure(e)
      case Success(fs') =>
        var rest := ClearAll(fs', paths[1..], fails);
        if paths[0] in fs then
          // a path listed again is cleared again, which keeps what the first pass kept
          SurvivorsIdempotent(fs[paths[0]].children, paths[0], fails);
          rest
        else rest
  }

  /** `clear_directories` as the loop over its list of paths. */
  method ClearDirectories(fs: Fs, paths: seq<string>, fails: string -> bool) returns (r: Result<Fs, FsError>)
    ensures r == ClearAll(fs, paths, fails)
  {
    var current := fs;
    var i := 0;
    while i < |paths|
      invariant 0 <= i <= |paths|
      invariant ClearAll(fs, paths, fails) == ClearAll(current, paths[i..], fails)
    {
      assert paths[i..][1..] == paths[i + 1..];
      var step := ClearDirectory(current, paths[i], fails);
      if step.Failure? {
        return step;
      }
      current := step.value;
      i := i + 1;
    }
    return Success(current);
  }

  /** With no failing removal, a cleared directory holds only entries that are not files, links or directories. */
  lemma ClearedHoldsOnlySpecial(children: map<string, Entry>, dir: string, fails: string -> bool)
    requires forall n :: n in children ==> !fails(PathJoin(dir, n))
    ensures forall n :: n in Survivors(children, dir, fails) ==> Survivors(children, dir, fails)[n].Special?
  {
  }

  /** Clearing twice leaves what clearing once leaves. */
  lemma ClearIdempotent(fs: Fs, path: string, fails: string -> bool)
    requires ClearOne(fs, path, fails).Success?
    ensures ClearOne(ClearOne(fs, path, fails).value, path, fails) == ClearOne(fs, path, fails)
  {
    if path in fs {
      var once := Survivors(fs[path].children, path, fails);
      var fs1 := fs[path := Dir(once)];
      assert ClearOne(fs, path, fails) == Success(fs1);
      assert fs1[path].children == once;
      var twice := Survivors(once, path, fails);
      assert twice == once;
      assert ClearOne(fs1, path, fails) == Success(fs1[path := Dir(twice)]);
      assert fs1[path := Dir(twice)] == fs1;
    }
  }

  /** Clearing a list of one path is clearing that path. */
  lemma ClearAllSingle(fs: Fs, path: string, fails: string -> bool)
    ensures ClearAll(fs, [path], fails) == ClearOne(fs, path, fails)
  {
    assert [path][1..] == [];
  }

  /** A path that does not exist is skipped; the others are cleared, in list order. */
  lemma ClearAllSkipsMissing(fs: Fs, missing: string, paths: seq<string>, fails: string -> bool)
    requires missing !in fs
    ensures ClearAll(fs, [missing] + paths, fails) == ClearAll(fs, paths, fails)
  {
    assert ([missing] + paths)[1..] == paths;
  }
}
