/**
 * `find_project_root` (`src/main.rs`): walks from the current directory up
 * to the file-system root and stops at the first directory that holds a
 * plugin config.
 */
module Project {
  import opened Wrappers
  import opened Fs
  import Config

  /**
   * The loop's test, `Cargo.toml && .reaper.toml || reaper.toml`: `&&` binds
   * tighter, so a lone `reaper.toml` is enough but a `.reaper.toml` needs a
   * `Cargo.toml` beside it.
   */
  predicate IsProjectRoot(fs: Entries, dir: Path) {
    (IsFile(fs, dir + ["Cargo.toml"]) && IsFile(fs, dir + [".reaper.toml"])) || IsFile(fs, dir + ["reaper.toml"])
  }

  const NO_ROOT: string := "Unable to find project root directory. Please ensure a reaper.toml or .reaper.toml file is present in the project root, and try again."

  /**
   * `find_project_root`. `cwd` is what `env::current_dir` gave. The result
   * is the deepest ancestor of `cwd` (itself included) that is a project
   * root; when there is none, the walk ends after the root directory.
   */
  method FindProjectRoot(fs: Entries, cwd: Result<Path, IoError>) returns (r: Result<Path, string>)
    ensures cwd.Err? ==> r == Err(cwd.error.message)
    ensures cwd.Ok? && r.Ok? ==>
      exists k :: 0 <= k <= |cwd.value| && r.value == cwd.value[..k] && IsProjectRoot(fs, r.value)
                  && forall j :: k < j <= |cwd.value| ==> !IsProjectRoot(fs, cwd.value[..j])
    ensures cwd.Ok? && r.Err? ==>
      r.error == NO_ROOT && forall j :: 0 <= j <= |cwd.value| ==> !IsProjectRoot(fs, cwd.value[..j])
  {
    if cwd.Err? {
      return Err(cwd.error.message);
    }
    var currentDir := cwd.value;
    while true
      invariant |currentDir| <= |cwd.value| && currentDir == cwd.value[..|currentDir|]
      invariant forall j :: |currentDir| < j <= |cwd.value| ==> !IsProjectRoot(fs, cwd.value[..j])
      decreases |currentDir|
    {
      if IsProjectRoot(fs, currentDir) {
        return Ok(currentDir);
      }
      if |currentDir| == 0 {
        break;
      }
      currentDir := currentDir[..|currentDir| - 1];
    }
    assert cwd.value[..0] == currentDir;
    return Err(NO_ROOT);
  }

  /** A directory the walk accepts always has a config for `ReaperPluginConfig::load` to pick, so its `unwrap` holds. */
  lemma RootHasConfig(fs: Entries, dir: Path)
    requires IsProjectRoot(fs, dir)
    ensures Config.ConfigFile(fs, dir).Some?
  {
    Config.ConfigFilePreference(fs, dir);
  }
}
