/** `init`: short-circuits on a passing `check`, otherwise clears the working
    directory, writes `.west/config`, links `zephyr` to the RTOS tree, runs
    `west update` and records the fingerprint. */
module Initialize {
  import opened Fingerprint
  import opened WestEnv
  import opened Workspace
  import opened Validate

  /** The text of `.west/config`. */
  const WestConfig: string := "[manifest]\npath = zephyr\nfile = west.yml\n"

  /** The bytes `init` writes to `.west/config`. */
  function ConfigBytes(): (b: Bytes)
    ensures IsAscii(WestConfig) && b == Ascii(WestConfig)
  {
    assert IsAscii(WestConfig);
    Ascii(WestConfig)
  }

  /** What a run of `west update` did: its exit status and the RTOS tree as
      it left it (it may have rewritten `west.yml`, even when it failed). */
  datatype ToolRun = ToolRun(status: int, tree: Tree)

  /** The west tool as seen from `init`: given the environment it is run
      with and the RTOS tree, what it does. Any behaviour is allowed. */
  type Tool = (Env, Tree) -> ToolRun

  /** The result of `init` and the file system it leaves. */
  datatype Run = Run(result: Outcome<int>, fs: Fs)

  /** The working directory after the clear loop and the `.west/config`
      write. */
  function Configured(fs: Fs): (c: Fs)
    ensures c.dirs == fs.dirs
    ensures c.work.Keys == {".west"}
    ensures FileAt(c, ConfigPath) == Some(ConfigBytes())
    ensures !Exists(c, HashPath) && !Exists(c, ZephyrPath)
  {
    var c := Fs(map[".west" := Dir(map["config" := File(ConfigBytes())])], fs.dirs);
    assert Lookup(c.dirs, c.work, ConfigPath) == Some(File(ConfigBytes()));
    c
  }

  /** ... and after `zephyr` has been linked to the RTOS tree. */
  function Linked(fs: Fs, rtos: Path): (l: Fs)
    ensures l.dirs == fs.dirs
    ensures l.work.Keys == {".west", "zephyr"} && LinksTo(l, rtos)
    ensures l.work[".west"] == Dir(map["config" := File(ConfigBytes())])
  {
    var c := Configured(fs);
    c.(work := c.work["zephyr" := Link(rtos)])
  }

  /** Whatever the tool does to the RTOS tree, `.west/config` reads as
      written and there is no fingerprint. */
  lemma LinkedWestDir(fs: Fs, rtos: Path, dirs: map<Path, Tree>)
    ensures var l := Linked(fs, rtos).(dirs := dirs);
      FileAt(l, ConfigPath) == Some(ConfigBytes()) && !Exists(l, HashPath)
  {
    var l := Linked(fs, rtos).(dirs := dirs);
    assert Lookup(l.dirs, l.work, ConfigPath) == Some(File(ConfigBytes()));
  }

  /** `init` as a function of the file system it starts from. This function
      and `Rebuild`, `Update` and `Record` below are the specification the
      methods of `Host` are proved against; the lemmas about `init` are
      stated over them. */
  function InitRun(fs: Fs, rtos: Path, westEnv: string, west: Tool, sha: Bytes -> Digest): (r: Run)
    ensures r.result.Returned? ==> r.result.value == 0
    ensures r.fs.dirs.Keys == fs.dirs.Keys
  {
    var verdict := Check(fs, rtos, sha);
    if verdict.Raised? then Run(Raised(verdict.fault), fs)
    else if verdict.value == 0 then Run(Returned(0), fs)
    else Rebuild(fs, rtos, westEnv, west, sha)
  }

  /** The part of `init` after a failing `check`: clear, write the config,
      assert that the RTOS directory exists, link it, go on with the tool. */
  function Rebuild(fs: Fs, rtos: Path, westEnv: string, west: Tool, sha: Bytes -> Digest): (r: Run)
    ensures r.result.Returned? ==> r.result.value == 0 && rtos in fs.dirs
    ensures r.fs.dirs.Keys == fs.dirs.Keys
    ensures r.fs.work.Keys <= {".west", "zephyr"}
  {
    if rtos !in fs.dirs then Run(Raised(AssertionFailed), Configured(fs))
    else Update(Linked(fs, rtos), rtos, westEnv, west, sha)
  }

  /** Parse the environment, run `west update` with it, record. */
  function Update(linked: Fs, rtos: Path, westEnv: string, west: Tool, sha: Bytes -> Digest): (r: Run)
    requires rtos in linked.dirs && ".west" in linked.work && linked.work[".west"].Dir?
    ensures r.result.Returned? ==> r.result.value == 0 && ParseEnv(westEnv).Success?
    ensures r.fs.work.Keys == linked.work.Keys && r.fs.dirs.Keys == linked.dirs.Keys
    ensures forall p :: p in linked.dirs && p != rtos ==> r.fs.dirs[p] == linked.dirs[p]
  {
    match ParseEnv(westEnv)
    case Failure(e) => Run(Raised(ValueError(e.index, e.length)), linked)
    case Success(env) =>
      var run := west(env, linked.dirs[rtos]);
      var updated := linked.(dirs := linked.dirs[rtos := run.tree]);
      if run.status != 0 then Run(Raised(CalledProcessError(run.status)), updated)
      else Record(updated, sha)
  }

  /** The fingerprint write: hash `zephyr/west.yml` then `.west/config` and
      store the hex digest in `.west/west.sha256`. */
  function Record(fs: Fs, sha: Bytes -> Digest): (r: Run)
    requires ".west" in fs.work && fs.work[".west"].Dir?
    ensures r.result.Returned? ==> r.result.value == 0
    ensures r.result.Raised? ==> r.fs == fs
    ensures r.fs.dirs == fs.dirs && r.fs.work.Keys == fs.work.Keys
  {
    match ReadFile(fs, ManifestPath)
    case Raised(f) => Run(Raised(f), fs)
    case Returned(yml) =>
      match ReadFile(fs, ConfigPath)
      case Raised(f) => Run(Raised(f), fs)
      case Returned(config) =>
        var westDir := fs.work[".west"].children;
        var digest := HexDigest(sha, yml + config);
        Run(Returned(0), fs.(work := fs.work[".west" := Dir(westDir["west.sha256" := File(digest)])]))
  }

  /** The file system `init` works on. `rtos` lives in `dirs`; the working
      directory's entries are `work`. */
  class Host {
    var work: Tree
    var dirs: map<Path, Tree>

    constructor (work: Tree, dirs: map<Path, Tree>)
      ensures this.work == work && this.dirs == dirs
    {
      this.work := work;
      this.dirs := dirs;
    }

    function State(): Fs
      reads this
    {
      Fs(work, dirs)
    }

    /** `shutil.rmtree` on an entry of the working directory: only a real
        directory is accepted (it refuses a link), and it goes with all it
        contains. */
    method RemoveTree(name: string)
      requires name in work && IsRealDir(dirs, work[name])
      modifies this
      ensures work == old(work) - {name} && dirs == old(dirs)
    {
      work := work - {name};
    }

    /** `Path.unlink` on an entry of the working directory: a file or a link
        (a directory is refused). Only the link goes; what it points to in
        `dirs` stays. */
    method Unlink(name: string)
      requires name in work && !IsRealDir(dirs, work[name])
      modifies this
      ensures work == old(work) - {name} && dirs == old(dirs)
    {
      work := work - {name};
    }

    /** The "delete all contents" loop over `iterdir()`, in whatever order
        the entries come. */
    method Clear()
      modifies this
      ensures work == map[] && dirs == old(dirs)
    {
      while work != map[]
        invariant dirs == old(dirs)
        decreases work.Keys
      {
        var name :| name in work;
        if IsRealDir(dirs, work[name]) {
          RemoveTree(name);
        } else {
          Unlink(name);
        }
      }
    }

    /** The script's `init`. */
    method Init(rtos: Path, westEnv: string, west: Tool, sha: Bytes -> Digest) returns (r: Outcome<int>)
      modifies this
      ensures Run(r, State()) == InitRun(old(State()), rtos, westEnv, west, sha)
      ensures r == Returned(0) ==> Check(State(), rtos, sha) == Returned(0)
      ensures old(Check(State(), rtos, sha)) == Returned(0) ==> r == Returned(0) && unchanged(this)
    {
      var verdict := Check(State(), rtos, sha);
      if verdict.Raised? {
        return Raised(verdict.fault);
      }
      if verdict.value == 0 {
        return Returned(0);
      }
      r := RebuildWorkspace(rtos, westEnv, west, sha);
      InitThenCheck(old(State()), rtos, westEnv, west, sha);
    }

    method RebuildWorkspace(rtos: Path, westEnv: string, west: Tool, sha: Bytes -> Digest) returns (r: Outcome<int>)
      modifies this
      ensures Run(r, State()) == Rebuild(old(State()), rtos, westEnv, west, sha)
    {
      // work_dir.mkdir(exist_ok=True): a missing working directory (whose
      // parent exists) already reads as an empty one.
      Clear();
      work := work[".west" := Dir(map[])];
      work := work[".west" := Dir(map["config" := File(ConfigBytes())])];
      assert State() == Configured(old(State()));
      if rtos !in dirs {
        return Raised(AssertionFailed);
      }
      work := work["zephyr" := Link(rtos)];
      assert State() == Linked(old(State()), rtos);
      r := RunWestUpdate(rtos, westEnv, west, sha);
    }

    method RunWestUpdate(rtos: Path, westEnv: string, west: Tool, sha: Bytes -> Digest) returns (r: Outcome<int>)
      requires rtos in dirs && ".west" in work && work[".west"].Dir?
      modifies this
      ensures Run(r, State()) == Update(old(State()), rtos, westEnv, west, sha)
    {
      var env := ParseEnv(westEnv);
      if env.Failure? {
        return Raised(ValueError(env.error.index, env.error.length));
      }
      var run := west(env.value, dirs[rtos]);
      dirs := dirs[rtos := run.tree];
      if run.status != 0 {
        return Raised(CalledProcessError(run.status));
      }
      r := RecordFingerprint(sha);
    }

    method RecordFingerprint(sha: Bytes -> Digest) returns (r: Outcome<int>)
      requires ".west" in work && work[".west"].Dir?
      modifies this
      ensures Run(r, State()) == Record(old(State()), sha)
    {
      var yml := ReadFile(State(), ManifestPath);
      if yml.Raised? {
        return Raised(yml.fault);
      }
      var config := ReadFile(State(), ConfigPath);
      if config.Raised? {
        return Raised(config.fault);
      }
      var westDir := work[".west"].children;
      work := work[".west" := Dir(westDir["west.sha256" := File(HexDigest(sha, yml.value + config.value))])];
      r := Returned(0);
    }
  }

  /** The fingerprint write succeeds exactly when the manifest and the
      config are regular files; it then stores the hex SHA-256 of the
      manifest bytes followed by the config bytes, and leaves the config,
      the manifest, the `zephyr` link and the RTOS tree as they were. */
  lemma RecordWrites(fs: Fs, sha: Bytes -> Digest)
    requires ".west" in fs.work && fs.work[".west"].Dir?
    ensures var run := Record(fs, sha);
      && (run.result == Returned(0) <==> FileAt(fs, ManifestPath).Some? && FileAt(fs, ConfigPath).Some?)
      && (run.result.Raised? ==> run.fs == fs)
      && run.fs.dirs == fs.dirs && run.fs.work.Keys == fs.work.Keys
      && ("zephyr" in fs.work ==> run.fs.work["zephyr"] == fs.work["zephyr"])
      && FileAt(run.fs, ConfigPath) == FileAt(fs, ConfigPath)
      && FileAt(run.fs, ManifestPath) == FileAt(fs, ManifestPath)
      && (run.result == Returned(0) ==>
            FileAt(run.fs, HashPath)
            == Some(HexDigest(sha, FileAt(fs, ManifestPath).value + FileAt(fs, ConfigPath).value)))
  {
    var run := Record(fs, sha);
    var final := run.fs;
    if run.result == Returned(0) {
      var c := fs.work[".west"].children;
      assert final.work[".west"].children == c["west.sha256" := final.work[".west"].children["west.sha256"]];
      assert Lookup(final.dirs, final.work, ConfigPath) == Lookup(fs.dirs, fs.work, ConfigPath) by {
        if "config" in c {
          assert final.work[".west"].children["config"] == c["config"];
        }
      }
      if "zephyr" in fs.work {
        assert Lookup(final.dirs, final.work, ManifestPath) == Lookup(fs.dirs, fs.work, ManifestPath) by {
          assert final.work["zephyr"] == fs.work["zephyr"];
        }
      }
    }
  }

  /** A successful `init` leaves a workspace `check` accepts. */
  lemma InitThenCheck(fs: Fs, rtos: Path, westEnv: string, west: Tool, sha: Bytes -> Digest)
    ensures var run := InitRun(fs, rtos, westEnv, west, sha);
      run.result == Returned(0) ==> Check(run.fs, rtos, sha) == Returned(0)
  {
    var run := InitRun(fs, rtos, westEnv, west, sha);
    if run.result == Returned(0) && Check(fs, rtos, sha) != Returned(0) {
      var linked := Linked(fs, rtos);
      var tool := west(ParseEnv(westEnv).value, fs.dirs[rtos]);
      var updated := linked.(dirs := linked.dirs[rtos := tool.tree]);
      assert run == Record(updated, sha);
      LinkedWestDir(fs, rtos, updated.dirs);
      RecordWrites(updated, sha);
    }
  }

  /** When `check` passes, `init` returns 0 and leaves everything as it was,
      whatever the environment string and the tool would do: no clear, no
      tool run, no fingerprint rewrite. */
  lemma InitShortCircuits(fs: Fs, rtos: Path, westEnv: string, west: Tool, sha: Bytes -> Digest)
    requires Check(fs, rtos, sha) == Returned(0)
    ensures InitRun(fs, rtos, westEnv, west, sha) == Run(Returned(0), fs)
  {
  }

  /** `init` twice in a row: the second run is a no-op that returns 0, for
      any environment string and any tool. */
  lemma InitIdempotent(fs: Fs, rtos: Path, westEnv: string, west: Tool, westEnv': string, west': Tool,
                       sha: Bytes -> Digest)
    requires InitRun(fs, rtos, westEnv, west, sha).result == Returned(0)
    ensures var first := InitRun(fs, rtos, westEnv, west, sha).fs;
      InitRun(first, rtos, westEnv', west', sha) == Run(Returned(0), first)
  {
    InitThenCheck(fs, rtos, westEnv, west, sha);
  }

  /** Once `check` has returned a non-zero code, `init` rebuilds: nothing of
      the old working directory survives but what it writes itself (only
      `.west` and `zephyr` at top level, and in `.west` only `config` and the
      new `west.sha256`), `.west/config` holds exactly `WestConfig`, `zephyr` is the link to the
      RTOS tree once the assertion passed, and no directory outside the
      workspace except the RTOS tree is touched (in particular not the
      target of an old `zephyr` link). */
  lemma InitRebuilds(fs: Fs, rtos: Path, westEnv: string, west: Tool, sha: Bytes -> Digest)
    requires Check(fs, rtos, sha).Returned? && Check(fs, rtos, sha).value != 0
    ensures var final := InitRun(fs, rtos, westEnv, west, sha).fs;
      && final.work.Keys <= {".west", "zephyr"}
      && ".west" in final.work && final.work[".west"].Dir?
      && final.work[".west"].children.Keys <= {"config", "west.sha256"}
      && FileAt(final, ConfigPath) == Some(ConfigBytes())
      && (rtos in fs.dirs <==> LinksTo(final, rtos))
      && final.dirs.Keys == fs.dirs.Keys
      && forall p :: p in fs.dirs && p != rtos ==> p in final.dirs && final.dirs[p] == fs.dirs[p]
  {
    var final := InitRun(fs, rtos, westEnv, west, sha).fs;
    if rtos in fs.dirs {
      var linked := Linked(fs, rtos);
      if ParseEnv(westEnv).Success? {
        var tool := west(ParseEnv(westEnv).value, fs.dirs[rtos]);
        var updated := linked.(dirs := linked.dirs[rtos := tool.tree]);
        assert final == updated || final == Record(updated, sha).fs;
        LinkedWestDir(fs, rtos, updated.dirs);
        RecordWrites(updated, sha);
      } else {
        assert final == linked;
        LinkedWestDir(fs, rtos, fs.dirs);
      }
    } else {
      assert final == Configured(fs);
    }
  }

  /** A run of `init` that got past `check` and then failed leaves no
      fingerprint behind: the clear removed the old one and the write comes
      last. A missing RTOS directory fails the assertion before the tool
      runs, and a non-zero exit of the tool is raised as
      CalledProcessError. */
  lemma InitFailureLeavesNoFingerprint(fs: Fs, rtos: Path, westEnv: string, west: Tool, sha: Bytes -> Digest)
    requires Check(fs, rtos, sha).Returned? && Check(fs, rtos, sha).value != 0
    ensures var run := InitRun(fs, rtos, westEnv, west, sha);
      && (run.result.Raised? ==> !Exists(run.fs, HashPath))
      && (rtos !in fs.dirs ==> run == Run(Raised(AssertionFailed), Configured(fs)))
      && (rtos in fs.dirs && ParseEnv(westEnv).Success? ==>
            var status := west(ParseEnv(westEnv).value, fs.dirs[rtos]).status;
            status != 0 ==> run.result == Raised(CalledProcessError(status)))
  {
    if rtos in fs.dirs {
      var linked := Linked(fs, rtos);
      LinkedWestDir(fs, rtos, fs.dirs);
      if ParseEnv(westEnv).Success? {
        var tool := west(ParseEnv(westEnv).value, fs.dirs[rtos]);
        var updated := linked.(dirs := linked.dirs[rtos := tool.tree]);
        LinkedWestDir(fs, rtos, updated.dirs);
        RecordWrites(updated, sha);
      }
    }
  }

  /** With `.west/config` present and `zephyr` missing or dangling, `check`
      raises at `samefile` and `init` lets the exception escape before its
      clear loop: it does not repair such a workspace. */
  lemma InitRaisesWithoutZephyr(fs: Fs, rtos: Path, westEnv: string, west: Tool, sha: Bytes -> Digest)
    requires Exists(fs, ConfigPath) && !Exists(fs, ZephyrPath)
    ensures InitRun(fs, rtos, westEnv, west, sha) == Run(Raised(NotFound(ZephyrPath)), fs)
  {
  }

  /** A run that fails the `rtos_dir.is_dir()` assertion leaves such a
      workspace, so every later `init` raises, even once the RTOS directory
      exists with any contents `t`, whatever its environment and tool. */
  lemma InitStuckAfterAssertion(fs: Fs, rtos: Path, westEnv: string, west: Tool, sha: Bytes -> Digest,
                                t: Tree, westEnv': string, west': Tool)
    requires Check(fs, rtos, sha).Returned? && Check(fs, rtos, sha).value != 0
    requires rtos !in fs.dirs
    ensures var run := InitRun(fs, rtos, westEnv, west, sha);
      var later := run.fs.(dirs := run.fs.dirs[rtos := t]);
      && run.result == Raised(AssertionFailed)
      && InitRun(later, rtos, westEnv', west', sha) == Run(Raised(NotFound(ZephyrPath)), later)
  {
    var c := Configured(fs);
    var later := c.(dirs := c.dirs[rtos := t]);
    assert Lookup(later.dirs, later.work, ConfigPath).Some?;
    InitRaisesWithoutZephyr(later, rtos, westEnv', west', sha);
  }

  /** The linked workspace, whatever the tool left in the outside
      directories, fails `check` with 3 (no manifest) or 4 (no fingerprint). */
  lemma LinkedCheck(fs: Fs, rtos: Path, dirs: map<Path, Tree>, sha: Bytes -> Digest)
    requires rtos in dirs
    ensures var l := Linked(fs, rtos).(dirs := dirs);
      Check(l, rtos, sha) == Returned(3) || Check(l, rtos, sha) == Returned(4)
  {
    var l := Linked(fs, rtos).(dirs := dirs);
    LinkedWestDir(fs, rtos, dirs);
    LookupName(dirs, l.work, "zephyr");
  }

  /** A run that fails after linking `zephyr` (a malformed environment, a
      non-zero tool exit, an unreadable manifest) leaves a workspace that
      `check` rejects with 3 or 4 without raising, so the next `init`
      rebuilds it. */
  lemma InitFailureRecoverable(fs: Fs, rtos: Path, westEnv: string, west: Tool, sha: Bytes -> Digest,
                               westEnv': string, west': Tool)
    requires Check(fs, rtos, sha).Returned? && Check(fs, rtos, sha).value != 0
    requires rtos in fs.dirs && InitRun(fs, rtos, westEnv, west, sha).result.Raised?
    ensures var failed := InitRun(fs, rtos, westEnv, west, sha).fs;
      && (Check(failed, rtos, sha) == Returned(3) || Check(failed, rtos, sha) == Returned(4))
      && InitRun(failed, rtos, westEnv', west', sha) == Rebuild(failed, rtos, westEnv', west', sha)
  {
    var linked := Linked(fs, rtos);
    var failed := InitRun(fs, rtos, westEnv, west, sha).fs;
    if ParseEnv(westEnv).Success? {
      var tool := west(ParseEnv(westEnv).value, fs.dirs[rtos]);
      var updated := linked.(dirs := linked.dirs[rtos := tool.tree]);
      RecordWrites(updated, sha);
      assert failed == updated;
      LinkedCheck(fs, rtos, updated.dirs, sha);
    } else {
      assert failed == linked.(dirs := fs.dirs);
      LinkedCheck(fs, rtos, fs.dirs, sha);
    }
  }

  /** If the tool exits 0 and leaves a regular `west.yml` in the RTOS tree,
      `init` returns 0 and records the hex SHA-256 (64 characters) of that
      manifest followed by `WestConfig`. */
  lemma InitSucceeds(fs: Fs, rtos: Path, westEnv: string, west: Tool, sha: Bytes -> Digest)
    requires Check(fs, rtos, sha).Returned? && Check(fs, rtos, sha).value != 0
    requires rtos in fs.dirs && ParseEnv(westEnv).Success?
    requires var tool := west(ParseEnv(westEnv).value, fs.dirs[rtos]);
      tool.status == 0 && "west.yml" in tool.tree && tool.tree["west.yml"].File?
    ensures var run := InitRun(fs, rtos, westEnv, west, sha);
      var yml := west(ParseEnv(westEnv).value, fs.dirs[rtos]).tree["west.yml"].data;
      && run.result == Returned(0)
      && FileAt(run.fs, HashPath) == Some(HexDigest(sha, yml + ConfigBytes()))
  {
    var linked := Linked(fs, rtos);
    var tool := west(ParseEnv(westEnv).value, fs.dirs[rtos]);
    var updated := linked.(dirs := linked.dirs[rtos := tool.tree]);
    assert InitRun(fs, rtos, westEnv, west, sha) == Record(updated, sha);
    assert FileAt(updated, ManifestPath) == Some(tool.tree["west.yml"].data) by {
      LookupThroughLink(updated.dirs, updated.work, "zephyr", rtos, ["west.yml"]);
      LookupName(updated.dirs, tool.tree, "west.yml");
    }
    LinkedWestDir(fs, rtos, updated.dirs);
    RecordWrites(updated, sha);
  }
}
