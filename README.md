# setup-zephyr: the workspace consistency protocol, in Dafny

`setup-zephyr.py` prepares and checks a west workspace for a Zephyr
toolchain. The workspace is a directory with four entries that matter:

- `.west/config`, with fixed contents;
- `zephyr`, a link to the Zephyr RTOS tree;
- `zephyr/west.yml`, the manifest, which lives in that tree and which
  `west update` may rewrite;
- `.west/west.sha256`, the hex SHA-256 of the manifest bytes followed by
  the config bytes, as of the last successful `init`.

This project models the two actions and the `--west-env` parser, and proves
what they promise:

- `check` is a read-only validator. It returns 0, or the code (1 to 5) of
  the first guard that fails, in a fixed order.
- `init` returns at once when `check` passes. Otherwise it clears the
  workspace, writes the config, links `zephyr`, runs the west tool, and
  records the fingerprint.
- `--west-env` is split on single spaces. Each token is split on `=`, and a
  dict is built from the pairs.

Modules, one per concern of the script:

- `Fingerprint` (`fingerprint.dfy`): bytes and the 32-byte `Digest`.
  `hexdigest()` is defined (lowercase, two digits per byte) with its
  inverse. SHA-256 (FIPS 180-4, section 6.2) is not defined. Every member
  that hashes takes it as a parameter `sha: Bytes -> Digest`, so each result
  holds for any hash function.
- `WestEnv` (`westenv.dfy`): Python's `str.split(sep)`, `dict()` over the
  split tokens, and their properties.
- `Workspace` (`workspace.dfy`): the file system as an abstract value. The
  working directory's entries (file with bytes, real directory, or link to a
  path) are kept apart from the directories outside it. The RTOS tree is one
  of those outside directories, keyed by its path. Lookup follows links the
  way `stat` and `open` do. Exceptions are `Raised(Fault)` outcomes.
- `Validate` (`validate.dfy`): `check` as a pure function of that value,
  so it is read-only by construction.
- `Initialize` (`initialize.dfy`): `init` as a class `Host` whose fields are
  the working directory and the outside directories. Its methods change the
  fields step by step. `Clear`, `RemoveTree` and `Unlink` state the new
  working directory directly. `RebuildWorkspace` runs the clear loop, then
  writes the config and makes the link itself. `Init`, `RebuildWorkspace`,
  `RunWestUpdate` and `RecordFingerprint` are proved equal to the
  specification functions `InitRun`, `Rebuild`, `Update` and `Record`. The
  lemmas about `init` are stated over those functions.

The external tool is a parameter `west: (Env, Tree) -> ToolRun`. Given the
parsed environment and the RTOS tree, it yields an exit status and the tree
as the tool left it. Any behaviour is allowed.

Behaviour of the script that is easy to misread:

- Both hash computations feed `west.yml` first and `.west/config` second
  (`setup-zephyr.py:50-51` and `setup-zephyr.py:93-94`). There is no order
  mismatch between `check` and `init`, so none is modelled.
- `--west-env` tokens need exactly one `=`. The code does not split at the
  first `=`: a token with two or more `=` makes `dict()` raise.
- `samefile` raises rather than returning 2 when `zephyr` or the RTOS
  directory does not exist. `init` does not catch this.
- So `init` does not repair every broken workspace. If `.west/config` is
  present and `zephyr` is missing or dangling, `check` raises before the
  clear loop, and `init` raises with it. A failed `assert rtos_dir.is_dir()`
  (`setup-zephyr.py:82`) leaves exactly such a workspace. Every later
  `init` then raises, even once the RTOS directory exists
  (`InitStuckAfterAssertion`). A failure after the link is recoverable:
  `check` returns 3 or 4, so the next `init` rebuilds
  (`InitFailureRecoverable`).

## Model

| member | source | states |
|---|---|---|
| `Validate.Check` | setup-zephyr.py:31-58 | returns only 0 to 5 (or raises), and returns 0 exactly when `zephyr` links to the RTOS directory, config, manifest and fingerprint are regular files, and the fingerprint equals the hex SHA-256 of manifest bytes followed by config bytes |
| `Validate.LinksTo` | setup-zephyr.py:40 | when `zephyr` is the link to the RTOS path, `zephyr` exists exactly when the RTOS directory does |
| `Validate.Consistent` | setup-zephyr.py:38-56 | a workspace `check` accepts has `zephyr` and `zephyr/west.yml` present and a 64-byte fingerprint file |
| `Validate.Precondition` | setup-zephyr.py:38-56 | guard k of `check` on its own; only guard 2 (`samefile`) and guard 5 (the reads) can raise, and guard 2 holds only for the link to an existing RTOS directory |
| `Validate.CheckFailFast` | setup-zephyr.py:38-58 | `check` returns code k (1..5) exactly when guard k is violated and every earlier guard holds, whatever later guards say; 0 exactly when all five hold |
| `Validate.CheckRaises` | setup-zephyr.py:40-53 | `check` raises only the exception of a guard that raises (`samefile` on a missing path, `open` on a directory), with all earlier guards holding |
| `Validate.CheckRetargeted` | setup-zephyr.py:40-43 | a `zephyr` link to another existing directory gives code 2, before manifest or fingerprint are consulted |
| `Validate.ManifestDrift` | setup-zephyr.py:49-56 | after a consistent state, rewriting `west.yml` makes `check` return 5 exactly when the SHA-256 over the new manifest and the config differs from the recorded one, else 0 |
| `Workspace.Follow` | setup-zephyr.py:24-28 | following an entry never yields a link; a link is found exactly when its target directory exists |
| `Workspace.Lookup` | setup-zephyr.py:24-28 | a path is found only if its first name is in the directory, and the entry found is never a link |
| `Workspace.LookupName` | setup-zephyr.py:24-28 | `exists()` on a single name is true exactly when the name is present and is not a dangling link; a file or directory is found as itself |
| `Workspace.LookupThroughLink` | setup-zephyr.py:34-35 | a path through a link to an existing directory is looked up inside that directory (how `zephyr/west.yml` reaches the RTOS tree) |
| `Workspace.LookupThroughDir` | setup-zephyr.py:33-36 | a path through a real directory is looked up among its children (how `.west/config` and `.west/west.sha256` are reached) |
| `Workspace.LookupBlocked` | setup-zephyr.py:24-28 | nothing is found below a missing name, a file or a dangling link |
| `Workspace.Exists` | setup-zephyr.py:24-28 | `Path.exists()`: a found path starts with a present name; a single name exists exactly when it is present and not a dangling link |
| `Workspace.FileAt` | setup-zephyr.py:19-21 | there is a regular file's contents exactly when lookup yields a regular file, and then the path exists |
| `Workspace.IsRealDir` | setup-zephyr.py:69 | `is_dir() and not is_symlink()` holds exactly for a real directory entry: a link to a directory passes `is_dir()` but is turned away |
| `Workspace.ReadFile` | setup-zephyr.py:19-21 | `open().read()` returns the bytes exactly when a regular file is there; otherwise it raises IsADirectory when something exists and NotFound when nothing does |
| `Fingerprint.Hex` | setup-zephyr.py:54 | `hexdigest()` text is two lowercase hex digits per byte |
| `Fingerprint.Unhex` | setup-zephyr.py:54 | reading hex text back yields half as many bytes |
| `Fingerprint.UnhexHex` | setup-zephyr.py:54 | reading the hex text back gives the digest: no two digests share a hex text |
| `Fingerprint.HexInjective` | setup-zephyr.py:54 | equal hex text means equal digests |
| `Fingerprint.Ascii` | setup-zephyr.py:95-96 | the bytes written for an ASCII text are its character codes |
| `Fingerprint.AsciiInjective` | setup-zephyr.py:95-96 | different ASCII texts are written as different bytes |
| `Fingerprint.HexIsAscii` | setup-zephyr.py:96 | hex text is ASCII, so writing it in text mode is byte-for-byte |
| `Fingerprint.HexDigest` | setup-zephyr.py:96 | the recorded fingerprint is 64 bytes for any input |
| `Fingerprint.HexDigestInjective` | setup-zephyr.py:52-54 | two fingerprints compare equal exactly when the two SHA-256 digests are equal |
| `WestEnv.Split` | setup-zephyr.py:85 | `str.split(sep)` yields at least one part and no part contains the separator |
| `WestEnv.SplitCount` | setup-zephyr.py:85 | the split has one more part than the string has separators |
| `WestEnv.JoinSplit` | setup-zephyr.py:85 | joining the parts with the separator gives back the string |
| `WestEnv.JoinCons` | setup-zephyr.py:85 | prefixing a character to the first part prefixes it to the joined string |
| `WestEnv.SplitJoin` | setup-zephyr.py:85 | splitting separator-free parts joined by the separator gives back the parts |
| `WestEnv.SplitWord` | setup-zephyr.py:85 | a separator-free string splits to itself alone |
| `WestEnv.SplitAround` | setup-zephyr.py:85 | splitting `a + sep + b` is splitting `a`, then `b` |
| `WestEnv.DictFrom` | setup-zephyr.py:85 | `dict()` from element i on: a failure names an element at or after i whose length is not 2 and reports that length; a success keeps every key it started with |
| `WestEnv.ParseEnv` | setup-zephyr.py:85 | the whole `--west-env` expression: a failure names one of the space-separated tokens and a part count other than 2 |
| `WestEnv.PairsLastWins` | setup-zephyr.py:85 | a successful `dict()` over the pairs holds exactly their keys, each mapped to the value of its last pair |
| `WestEnv.Pairs` | setup-zephyr.py:85 | the list comprehension has one entry per space-separated token |
| `WestEnv.DictFromOutcome` | setup-zephyr.py:85 | `dict()` succeeds exactly when every element has two parts; otherwise it fails at the first element that does not, reporting its length |
| `WestEnv.DictFromLastWins` | setup-zephyr.py:85 | `dict()` holds exactly the earlier and new keys; each key maps to the value of its last pair, and untouched earlier keys keep their values |
| `WestEnv.ParseEnvFails` | setup-zephyr.py:85 | parsing succeeds exactly when every space-separated token contains exactly one `=`; on failure the error names the first bad token and its number of `=`-parts |
| `WestEnv.ParseEnvLastWins` | setup-zephyr.py:85 | the parsed environment holds exactly the tokens' keys, and each key maps to the value of its last token |
| `WestEnv.ParseEnvEmpty` | setup-zephyr.py:85 | an empty `--west-env` is one empty token and fails at token 0 with one part |
| `WestEnv.ParseEnvDoubleSpace` | setup-zephyr.py:85 | a `--west-env` with a double space anywhere fails |
| `Initialize.ConfigBytes` | setup-zephyr.py:13-16 | the bytes of `.west/config` are the ASCII text of `WEST_CONFIG` (the constant `Initialize.WestConfig`) |
| `Initialize.InitRun` | setup-zephyr.py:61-98 | `init` returns only 0 or raises, and never creates or removes a directory outside the workspace |
| `Initialize.Rebuild` | setup-zephyr.py:64-98 | after a failing `check`: returns 0 only if the RTOS directory exists; only `.west` and `zephyr` remain at top level; the set of outside directories is unchanged |
| `Initialize.Update` | setup-zephyr.py:85-96 | returns 0 only if `--west-env` parses; the top-level entries and the set of outside directories are unchanged, and every outside directory other than the RTOS tree keeps its contents |
| `Initialize.Record` | setup-zephyr.py:91-96 | returns only 0 or raises; a raise changes nothing; the outside directories and the top-level entries stay as they were |
| `Initialize.Configured` | setup-zephyr.py:67-78 | after the clear and the config write, the working directory holds only `.west`, whose `config` reads `WEST_CONFIG`; there is no fingerprint and no `zephyr`; outside directories are unchanged |
| `Initialize.Linked` | setup-zephyr.py:80-83 | after the symlink, the workspace holds `.west` and `zephyr`, and `zephyr` is the link to the RTOS directory |
| `Initialize.LinkedWestDir` | setup-zephyr.py:74-83 | whatever the outside directories become, the freshly written config reads as written and there is no fingerprint |
| `Initialize.Host.RemoveTree` | setup-zephyr.py:69-70 | `rmtree` accepts only a real directory and removes that entry alone |
| `Initialize.Host.Unlink` | setup-zephyr.py:71-72 | `unlink` accepts files and links, removes the entry alone, and leaves the link's target untouched |
| `Initialize.Host.Clear` | setup-zephyr.py:67-72 | after the loop, in any iteration order, the working directory is empty and no outside directory has changed |
| `Initialize.Host.Init` | setup-zephyr.py:61-98 | `init` behaves as `InitRun`; when it returns 0, `check` on the new state returns 0; when `check` passed beforehand, it returns 0 and changes nothing |
| `Initialize.Host.RebuildWorkspace` | setup-zephyr.py:64-83 | clear, config write, `assert rtos_dir.is_dir()`, then the link; behaves as `Rebuild` |
| `Initialize.Host.RunWestUpdate` | setup-zephyr.py:85-89 | env parse, tool run (its tree replaces the RTOS tree), `check=True` raising on non-zero exit; behaves as `Update` |
| `Initialize.Host.RecordFingerprint` | setup-zephyr.py:91-96 | reads the manifest then the config, and writes the hex digest; behaves as `Record` |
| `Initialize.RecordWrites` | setup-zephyr.py:91-96 | the fingerprint write succeeds exactly when manifest and config are regular files; it stores the hex SHA-256 of manifest then config, and leaves config, manifest, `zephyr` and the outside directories as they were |
| `Initialize.InitThenCheck` | setup-zephyr.py:86-98 | after `init` returns 0, `check` returns 0 |
| `Initialize.InitShortCircuits` | setup-zephyr.py:62-63 | when `check` returns 0, `init` returns 0 and the file system is unchanged, for any environment string and any tool |
| `Initialize.InitIdempotent` | setup-zephyr.py:61-63 | a second `init` after a successful one returns 0 and changes nothing, whatever its environment and tool |
| `Initialize.InitRebuilds` | setup-zephyr.py:64-83 | once `check` fails with a code, nothing of the old working directory survives: `init` itself creates only `.west` and `zephyr` at top level, and `.west` holds only `config` and possibly the new `west.sha256` (what the tool adds to the working directory is not modelled); the config is exactly `WEST_CONFIG`; `zephyr` links to the RTOS directory exactly when that directory exists; outside directories other than the RTOS tree are untouched |
| `Initialize.InitFailureLeavesNoFingerprint` | setup-zephyr.py:64-96 | an `init` that fails after `check` leaves no `west.sha256`. A missing RTOS directory fails the assertion before the tool runs. A non-zero tool exit raises CalledProcessError |
| `Initialize.InitRaisesWithoutZephyr` | setup-zephyr.py:61-63 | with `.west/config` present and `zephyr` missing or dangling, `init` raises FileNotFoundError from `check` and changes nothing |
| `Initialize.InitStuckAfterAssertion` | setup-zephyr.py:74-83 | a run that fails the `is_dir()` assertion leaves a workspace on which every later `init` raises, even once the RTOS directory exists, whatever its environment and tool |
| `Initialize.LinkedCheck` | setup-zephyr.py:38-47 | the linked workspace without a fingerprint is rejected by `check` with 3 or 4, whatever the RTOS tree holds |
| `Initialize.InitFailureRecoverable` | setup-zephyr.py:85-96 | a run that fails after the link (malformed environment, non-zero tool exit, unreadable manifest) leaves a workspace `check` rejects with 3 or 4, so the next `init` rebuilds |
| `Initialize.InitSucceeds` | setup-zephyr.py:85-98 | if the tool exits 0 and leaves a regular `west.yml`, `init` returns 0 and records the hex SHA-256 of that manifest followed by `WEST_CONFIG` |

## Left out

- SHA-256 itself is a parameter, not a definition. Nothing is proved about
  collisions: `ManifestDrift` states the drift result in terms of digest
  equality.
- The tool's command line (`sys.executable`, `--west-path`, `update`), its
  working directory and the real `west update` are not modelled. The tool
  is an arbitrary function of the parsed environment and the RTOS tree.
  Its effects on the working directory itself are not modelled; in
  particular it cannot rewrite `.west/config` or the `zephyr` link. The
  real `west update` runs in the working directory (`cwd=work_dir`) and
  clones the manifest's projects there. `InitRebuilds` speaks only of what
  `init` itself creates.
- File-system details are not modelled: permissions, races, and
  `shutil.rmtree` internals. Identity is by path only: the RTOS path is
  assumed canonical and outside the workspace. Links point only to
  directories outside the workspace; a link to a file is not modelled.
- The working directory path existing as a non-directory (where `mkdir`
  raises) is not modelled. A missing working directory reads as an empty
  one.
- Initialize.InitRun: `work_dir.mkdir(exist_ok=True)` has no
  `parents=True`, so it raises FileNotFoundError when the working
  directory's parent is missing too. The model assumes the parent exists
  and goes on to rebuild.
- Initialize.ConfigBytes: POSIX newline handling is assumed. A text-mode
  write (`setup-zephyr.py:77-78`) stores each `\n` of `WEST_CONFIG` as
  `os.linesep`, which is `\r\n` on Windows, so there the config bytes and
  the fingerprint over them differ from the model. The same applies to
  `Fingerprint.Ascii`.
- Validate.Check: the RTOS path is assumed to be either a directory or
  absent (`rtos !in dirs`). An RTOS path that exists but is not a
  directory is not representable: the script's `samefile` returns False
  there (code 2), `init` clears the workspace and writes the config, and
  then the assertion at `setup-zephyr.py:82` fails. The model raises from
  `check` instead. The assertion is also assumed enabled. Under
  `python -O` it is stripped, and `init` would link a dangling `zephyr`
  and run the tool anyway.
- `Validate.Check`: the fingerprint file is compared as bytes. The script
  reads it as text, and bytes that do not decode raise instead of
  returning 5. For decodable bytes the two comparisons agree, since the
  hex text is ASCII.
- Diagnostic messages printed to stdout are not modelled.
- `argparse`/`main` dispatch and `sys.exit` are not modelled. A missing
  `--west-env` (AttributeError on `None`) is a CLI concern.
- Concurrent `init` runs on one workspace are not modelled: the script
  has no locking.
