/** The file system as `setup-zephyr.py` sees it: the entries of the working
    directory, and the directories outside it (the Zephyr RTOS tree among
    them) that links point to, each keyed by its path. */
module Workspace {
  import opened Fingerprint

  type Path = string

  /** An entry of a directory. A link holds the path of a directory outside
      the workspace; following it is a lookup in `Fs.dirs`. */
  datatype Entry = File(data: Bytes) | Dir(children: map<string, Entry>) | Link(target: Path)

  type Tree = map<string, Entry>

  /** `work`: the working directory's entries (a missing working directory
      reads as an empty one). `dirs`: the directories outside it. */
  datatype Fs = Fs(work: Tree, dirs: map<Path, Tree>)

  datatype Option<T> = None | Some(value: T)

  /** The exceptions the script lets escape. */
  datatype Fault =
    | NotFound(path: seq<string>)        // FileNotFoundError on a workspace path
    | NotFoundOutside(outside: Path)     // FileNotFoundError on the RTOS path
    | IsADirectory(path: seq<string>)    // IsADirectoryError from open()
    | AssertionFailed                    // `assert rtos_dir.is_dir()`
    | CalledProcessError(status: int)    // the west tool exited non-zero
    | ValueError(index: nat, length: nat) // `dict()` on a malformed --west-env

  /** What a Python call does: return a value or raise. */
  datatype Outcome<T> = Returned(value: T) | Raised(fault: Fault)

  /** Workspace-relative paths the script uses. */
  const ConfigPath: seq<string> := [".west", "config"]
  const ZephyrPath: seq<string> := ["zephyr"]
  const ManifestPath: seq<string> := ["zephyr", "west.yml"]
  const HashPath: seq<string> := [".west", "west.sha256"]

  /** What `stat` finds at an entry: a link is followed to the directory it
      names, a dangling link finds nothing. */
  function Follow(dirs: map<Path, Tree>, e: Entry): (r: Option<Entry>)
    ensures r.Some? ==> !r.value.Link?
    ensures e.Link? ==> (r.Some? <==> e.target in dirs)
  {
    match e
    case Link(t) => if t in dirs then Some(Dir(dirs[t])) else None
    case _ => Some(e)
  }

  /** Resolves `path` below `tree`, following links at every step, as
      `Path.exists()` and `open()` do. */
  function Lookup(dirs: map<Path, Tree>, tree: Tree, path: seq<string>): (r: Option<Entry>)
    requires path != []
    ensures r.Some? ==> path[0] in tree && !r.value.Link?
    decreases |path|
  {
    if path[0] !in tree then None
    else match Follow(dirs, tree[path[0]])
      case None => None
      case Some(e) =>
        if |path| == 1 then Some(e)
        else if e.Dir? then Lookup(dirs, e.children, path[1..])
        else None
  }

  /** A single name is found exactly when it is in the directory and is not
      a dangling link. */
  lemma LookupName(dirs: map<Path, Tree>, tree: Tree, n: string)
    ensures Lookup(dirs, tree, [n]).Some? <==>
      n in tree && (tree[n].Link? ==> tree[n].target in dirs)
    ensures n in tree && !tree[n].Link? ==> Lookup(dirs, tree, [n]) == Some(tree[n])
  {
  }

  /** A longer path goes through a link by looking up the rest inside the
      linked directory. */
  lemma LookupThroughLink(dirs: map<Path, Tree>, tree: Tree, n: string, t: Path, rest: seq<string>)
    requires n in tree && tree[n] == Link(t) && t in dirs && rest != []
    ensures Lookup(dirs, tree, [n] + rest) == Lookup(dirs, dirs[t], rest)
  {
    assert ([n] + rest)[1..] == rest;
  }

  /** ... and through a real directory by looking up the rest among its
      children. */
  lemma LookupThroughDir(dirs: map<Path, Tree>, tree: Tree, n: string, rest: seq<string>)
    requires n in tree && tree[n].Dir? && rest != []
    ensures Lookup(dirs, tree, [n] + rest) == Lookup(dirs, tree[n].children, rest)
  {
    assert ([n] + rest)[1..] == rest;
  }

  /** Nothing is found below a missing name, a dangling link or a file. */
  lemma LookupBlocked(dirs: map<Path, Tree>, tree: Tree, n: string, rest: seq<string>)
    requires rest != []
    requires n !in tree || tree[n].File? || (tree[n].Link? && tree[n].target !in dirs)
    ensures Lookup(dirs, tree, [n] + rest) == None
  {
  }

  /** `Path.exists()` on a workspace path. */
  predicate Exists(fs: Fs, path: seq<string>)
    requires path != []
    ensures Exists(fs, path) ==> path[0] in fs.work
    ensures |path| == 1 ==> (Exists(fs, path) <==>
      path[0] in fs.work && (fs.work[path[0]].Link? ==> fs.work[path[0]].target in fs.dirs))
  {
    LookupName(fs.dirs, fs.work, path[0]);
    assert |path| == 1 ==> path == [path[0]];
    Lookup(fs.dirs, fs.work, path).Some?
  }

  /** The bytes of the regular file at `path`, if there is one. */
  function FileAt(fs: Fs, path: seq<string>): (r: Option<Bytes>)
    requires path != []
    ensures r.Some? ==> Exists(fs, path)
    ensures r.Some? <==> exists b :: Lookup(fs.dirs, fs.work, path) == Some(File(b))
  {
    match Lookup(fs.dirs, fs.work, path)
    case Some(File(b)) => Some(b)
    case _ => None
  }

  /** `open(path).read()`: the bytes of a file, FileNotFoundError when there
      is nothing, IsADirectoryError on a directory. */
  function ReadFile(fs: Fs, path: seq<string>): (r: Outcome<Bytes>)
    requires path != []
    ensures r.Returned? <==> FileAt(fs, path).Some?
    ensures r.Returned? ==> r.value == FileAt(fs, path).value
    ensures r.Raised? ==> r.fault == (if Exists(fs, path) then IsADirectory(path) else NotFound(path))
  {
    match Lookup(fs.dirs, fs.work, path)
    case None => Raised(NotFound(path))
    case Some(File(b)) => Returned(b)
    case Some(_) => Raised(IsADirectory(path))
  }

  /** `is_dir() and not is_symlink()`: the entries `init` removes with
      `shutil.rmtree` rather than `unlink`. `is_dir()` follows a link, so a
      link to a directory passes it; the second test turns it away. */
  predicate IsRealDir(dirs: map<Path, Tree>, e: Entry)
    ensures IsRealDir(dirs, e) <==> e.Dir?
  {
    match Follow(dirs, e)
    case Some(Dir(_)) => !e.Link?
    case _ => false
  }
}
