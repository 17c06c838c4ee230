/** `check`: the read-only validator. It is a function of the file system,
    so it changes nothing by construction. */
module Validate {
  import opened Fingerprint
  import opened Workspace

  /** `zephyr_dir.samefile(rtos_dir)` once both exist: identity of the
      directory object, which only a link to `rtos` has. */
  predicate LinksTo(fs: Fs, rtos: Path)
    ensures LinksTo(fs, rtos) ==> (Exists(fs, ZephyrPath) <==> rtos in fs.dirs)
  {
    "zephyr" in fs.work && fs.work["zephyr"] == Link(rtos)
  }

  /** The workspace invariant `check` accepts: the config, manifest and
      fingerprint are regular files, `zephyr` is the link to the RTOS tree,
      and the stored fingerprint is the hex SHA-256 of the manifest bytes
      followed by the config bytes. */
  predicate Consistent(fs: Fs, rtos: Path, sha: Bytes -> Digest)
    ensures Consistent(fs, rtos, sha) ==>
      && Exists(fs, ZephyrPath) && Exists(fs, ManifestPath)
      && FileAt(fs, HashPath).Some? && |FileAt(fs, HashPath).value| == 64
  {
    && LinksTo(fs, rtos) && rtos in fs.dirs
    && FileAt(fs, ConfigPath).Some?
    && FileAt(fs, ManifestPath).Some?
    && FileAt(fs, HashPath).Some?
    && FileAt(fs, HashPath).value
       == HexDigest(sha, FileAt(fs, ManifestPath).value + FileAt(fs, ConfigPath).value)
  }

  /** The script's `check`: the five guards in their order, each returning
      its own code; `samefile` raises when `zephyr` or the RTOS directory
      does not exist, and `open` raises on a directory. */
  function Check(fs: Fs, rtos: Path, sha: Bytes -> Digest): (r: Outcome<int>)
    ensures r.Returned? ==> 0 <= r.value <= 5
    ensures r == Returned(0) <==> Consistent(fs, rtos, sha)
  {
    if !Exists(fs, ConfigPath) then Returned(1)
    else if !Exists(fs, ZephyrPath) then Raised(NotFound(ZephyrPath))
    else if rtos !in fs.dirs then Raised(NotFoundOutside(rtos))
    else if fs.work["zephyr"] != Link(rtos) then Returned(2)
    else if !Exists(fs, ManifestPath) then Returned(3)
    else if !Exists(fs, HashPath) then Returned(4)
    else match ReadFile(fs, ManifestPath)
      case Raised(f) => Raised(f)
      case Returned(yml) =>
        match ReadFile(fs, ConfigPath)
        case Raised(f) => Raised(f)
        case Returned(config) =>
          match ReadFile(fs, HashPath)
          case Raised(f) => Raised(f)
          case Returned(stored) =>
            if stored != HexDigest(sha, yml + config) then Returned(5) else Returned(0)
  }

  /** What one guard of `check` finds when evaluated on its own. */
  datatype Verdict = Holds | Violated | Raises(fault: Fault)

  /** Guard `k` (1 to 5) of `check`, by itself: config present, `zephyr` is
      the RTOS directory, manifest present, fingerprint present, fingerprint
      matches. */
  function Precondition(fs: Fs, rtos: Path, sha: Bytes -> Digest, k: nat): (v: Verdict)
    requires 1 <= k <= 5
    ensures v.Raises? ==> k == 2 || k == 5
    ensures k == 2 && v == Holds ==> LinksTo(fs, rtos) && rtos in fs.dirs
  {
    if k == 1 then
      if Exists(fs, ConfigPath) then Holds else Violated
    else if k == 2 then
      if !Exists(fs, ZephyrPath) then Raises(NotFound(ZephyrPath))
      else if rtos !in fs.dirs then Raises(NotFoundOutside(rtos))
      else if LinksTo(fs, rtos) then Holds else Violated
    else if k == 3 then
      if Exists(fs, ManifestPath) then Holds else Violated
    else if k == 4 then
      if Exists(fs, HashPath) then Holds else Violated
    else
      var yml, config, stored :=
        ReadFile(fs, ManifestPath), ReadFile(fs, ConfigPath), ReadFile(fs, HashPath);
      if yml.Raised? then Raises(yml.fault)
      else if config.Raised? then Raises(config.fault)
      else if stored.Raised? then Raises(stored.fault)
      else if stored.value == HexDigest(sha, yml.value + config.value) then Holds
      else Violated
  }

  /** `check` fails fast: it returns code `k` exactly when guard `k` is the
      first that does not hold and it is violated, whatever the later guards
      would say; it returns 0 exactly when all five hold. */
  lemma CheckFailFast(fs: Fs, rtos: Path, sha: Bytes -> Digest)
    ensures forall k :: 1 <= k <= 5 ==>
      (Check(fs, rtos, sha) == Returned(k) <==>
        && Precondition(fs, rtos, sha, k) == Violated
        && forall j :: 1 <= j < k ==> Precondition(fs, rtos, sha, j) == Holds)
    ensures Check(fs, rtos, sha) == Returned(0) <==>
      forall k :: 1 <= k <= 5 ==> Precondition(fs, rtos, sha, k) == Holds
  {
    var p1, p2, p3, p4, p5 := Precondition(fs, rtos, sha, 1), Precondition(fs, rtos, sha, 2),
      Precondition(fs, rtos, sha, 3), Precondition(fs, rtos, sha, 4), Precondition(fs, rtos, sha, 5);
    if p1 == Holds && p2 == Holds && p3 == Holds && p4 == Holds {
      assert Check(fs, rtos, sha) == (match p5 case Holds => Returned(0)
                                                case Violated => Returned(5)
                                                case Raises(f) => Raised(f));
    }
  }

  /** `check` raises only where a guard raises, with every earlier guard
      holding. */
  lemma CheckRaises(fs: Fs, rtos: Path, sha: Bytes -> Digest)
    requires Check(fs, rtos, sha).Raised?
    ensures exists k ::
      && 1 <= k <= 5
      && Precondition(fs, rtos, sha, k) == Raises(Check(fs, rtos, sha).fault)
      && forall j :: 1 <= j < k ==> Precondition(fs, rtos, sha, j) == Holds
  {
    var f := Check(fs, rtos, sha).fault;
    if Precondition(fs, rtos, sha, 2) != Holds {
      assert Precondition(fs, rtos, sha, 2) == Raises(f);
    } else {
      assert Precondition(fs, rtos, sha, 5) == Raises(f);
    }
  }

  /** A `zephyr` link to any other existing directory is reported as code 2
      before the manifest or the fingerprint is looked at. */
  lemma CheckRetargeted(fs: Fs, rtos: Path, other: Path, sha: Bytes -> Digest)
    requires Exists(fs, ConfigPath)
    requires "zephyr" in fs.work && fs.work["zephyr"] == Link(other)
    requires other != rtos && other in fs.dirs && rtos in fs.dirs
    ensures Check(fs, rtos, sha) == Returned(2)
  {
    assert Exists(fs, ZephyrPath);
  }

  /** The RTOS tree with its manifest replaced by `yml`. */
  function WithManifest(fs: Fs, rtos: Path, yml: Bytes): (drifted: Fs)
    requires rtos in fs.dirs
    ensures drifted.work == fs.work && drifted.dirs.Keys == fs.dirs.Keys
  {
    fs.(dirs := fs.dirs[rtos := fs.dirs[rtos]["west.yml" := File(yml)]])
  }

  /** Manifest drift: if `west.yml` is rewritten after a consistent state,
      `check` returns 5 exactly when the SHA-256 over the new bytes (followed
      by the config) differs from the recorded one, and 0 otherwise. */
  lemma ManifestDrift(fs: Fs, rtos: Path, sha: Bytes -> Digest, yml: Bytes)
    requires Check(fs, rtos, sha) == Returned(0)
    ensures rtos in fs.dirs
    ensures var old_yml, config := FileAt(fs, ManifestPath).value, FileAt(fs, ConfigPath).value;
      Check(WithManifest(fs, rtos, yml), rtos, sha)
        == if sha(yml + config) == sha(old_yml + config) then Returned(0) else Returned(5)
  {
    var drifted := WithManifest(fs, rtos, yml);
    var old_yml, config := FileAt(fs, ManifestPath).value, FileAt(fs, ConfigPath).value;
    var dirs := drifted.dirs;
    assert Lookup(dirs, fs.work, ManifestPath) == Some(File(yml)) by {
      LookupThroughLink(dirs, fs.work, "zephyr", rtos, ["west.yml"]);
      LookupName(dirs, dirs[rtos], "west.yml");
    }
    assert Lookup(dirs, fs.work, ConfigPath) == Lookup(fs.dirs, fs.work, ConfigPath) by {
      var e := fs.work[".west"];
      if e.Link? && e.target in fs.dirs {
        assert Follow(dirs, e).value.children["config"] == Follow(fs.dirs, e).value.children["config"]
          by { if "config" in Follow(fs.dirs, e).value.children {} }
      }
    }
    assert Lookup(dirs, fs.work, HashPath) == Lookup(fs.dirs, fs.work, HashPath) by {
      var e := fs.work[".west"];
      if e.Link? && e.target in fs.dirs {
        assert Follow(dirs, e).value.children["west.sha256"] == Follow(fs.dirs, e).value.children["west.sha256"]
          by { if "west.sha256" in Follow(fs.dirs, e).value.children {} }
      }
    }
    HexDigestInjective(sha, yml + config, old_yml + config);
  }
}
