/**
 * The platform-independent plugin file operations of `src/main.rs`:
 * `_rename_plugin`, `_symlink_plugin` and `_remove_plugin_symlink`, over the
 * abstract `FileSystem`. The link callback `_symlink_plugin` receives is the
 * platform's symlink call, `FileSystem.CreateSymlink`. I/O errors render
 * through `{:?}` in the source; here they render as their message.
 */
module Links {
  import opened Wrappers
  import opened Fs
  import Platform

  /**
   * The `UserPlugins` directory the per-OS wrappers hand to
   * `_symlink_plugin` and `_remove_plugin_symlink`. `base` is what `dirs`
   * gives: the data directory on Windows, the config directory on Linux,
   * the home directory on macOS.
   */
  function UserPluginsDir(os: Platform.Os, base: Option<Path>): (r: Result<Path, string>)
    ensures r.Ok? <==> base.Some?
    ensures r.Ok? ==> |r.value| >= |base.value| + 2 && r.value[..|base.value|] == base.value
                      && r.value[|r.value| - 2..] == ["REAPER", "UserPlugins"]
    ensures r.Err? ==> r.error == "Unable to find '" + BaseName(os) + "' directory"
  {
    if base.None? then Err("Unable to find '" + BaseName(os) + "' directory")
    else
      var under: Path := match os
        case Windows => []
        case Linux => []
        case MacOS => ["Library", "Application Support"];
      var dir := base.value + under + ["REAPER", "UserPlugins"];
      assert dir[..|base.value|] == base.value;
      Ok(dir)
  }

  function BaseName(os: Platform.Os): string {
    match os
    case Windows => "AppData"
    case Linux => ".config"
    case MacOS => "Users"
  }

  const NO_USER_PLUGINS: string := "The 'UserPlugins' directory must exist before the plugin can be symlinked. Please launch REAPER to initialize the 'UserPlugins' directory and try again."

  /** The path `_rename_plugin` moves the artifact to: `root/target/<profile>/<name>`. */
  function RenamedPath(root: Path, profile: string, nameTo: string): Path {
    root + ["target", profile, nameTo]
  }

  /** When `fs::rename(from, to)` succeeds: `from` exists, `to`'s parent is a directory, and `to` is not another directory. */
  predicate CanRename(fs: Entries, from: Path, to: Path) {
    from in fs && |to| > 0 && IsDir(fs, to[..|to| - 1]) && !(to in fs && to != from && fs[to].Dir?)
  }

  const RENAME_FAILED: string := "failed to rename plugin: "

  /** `_rename_plugin`: moves `oldPath` to `RenamedPath(...)` and returns that path. */
  method RenamePlugin(fsys: FileSystem, root: Path, profile: string, oldPath: Path, nameTo: string)
    returns (r: Result<Path, string>)
    modifies fsys
    ensures var to := RenamedPath(root, profile, nameTo);
      && (r.Ok? <==> CanRename(old(fsys.entries), oldPath, to))
      && (r.Ok? ==> r.value == to && fsys.entries == Apply(old(fsys.entries), Rename(oldPath, to)))
      && (r.Err? ==> fsys.entries == old(fsys.entries)
                     && r.error == RENAME_FAILED + RenameError(old(fsys.entries), oldPath, to).message)
  {
    var newPath := RenamedPath(root, profile, nameTo);
    assert newPath[..|newPath| - 1] == root + ["target", profile];
    var moved := fsys.RenameEntry(oldPath, newPath);
    if moved.Err? {
      return Err(RENAME_FAILED + moved.error.message);
    }
    return Ok(newPath);
  }

  /** The symlink `_symlink_plugin` manages for `pluginPath`: its file name inside `dir`. */
  function LinkPath(pluginPath: Path, dir: Path): (r: Option<Path>)
    ensures r.Some? <==> FileName(pluginPath).Some?
    ensures r.Some? ==> |r.value| == |dir| + 1 && r.value[..|dir|] == dir && FileName(r.value) == FileName(pluginPath)
  {
    match FileName(pluginPath)
    case None => None
    case Some(name) => Some(dir + [name])
  }

  const LINK_FAILED: string := "failed to link extension plugin: "

  /**
   * What `_symlink_plugin` does to `fs`: its result and the new state. A
   * missing `UserPlugins` directory or a plugin path without a file name is
   * an error that changes nothing. A link that exists (the test follows it)
   * and already points at `pluginPath` is left as it is; any other link that
   * exists is removed before the new one is made. A dangling link does not
   * exist by that test, so it is not removed and the new link then collides
   * with it.
   */
  function SymlinkOutcome(fs: Entries, pluginPath: Path, dir: Path): (out: (Result<(), string>, Entries))
    ensures !Exists(fs, dir) ==> out == (Err(NO_USER_PLUGINS), fs)
    ensures Exists(fs, dir) && LinkPath(pluginPath, dir).None? ==>
      out == (Err("Unable to get plugin file name from path '" + Display(pluginPath) + "'"), fs)
    ensures Exists(fs, dir) && LinkPath(pluginPath, dir).Some? ==>
      var link := LinkPath(pluginPath, dir).value;
      && (Exists(fs, link) && fs[link] == Symlink(pluginPath) ==> out == (Ok(()), fs))
      && (Exists(fs, link) && !fs[link].Symlink? ==> out == (Err(ReadLink(fs, link).error.message), fs))
      && (Exists(fs, link) && fs[link].Symlink? && fs[link] != Symlink(pluginPath) ==>
            (out.0.Ok? <==> IsDir(fs - {link}, dir))
            && out.1 == (if out.0.Ok? then (fs - {link})[link := Symlink(pluginPath)] else fs - {link})
            && (out.0.Err? ==> out.0.error == LINK_FAILED + CreateSymlinkError(fs - {link}, link).message))
      && (!Exists(fs, link) ==>
            (out.0.Ok? <==> link !in fs && IsDir(fs, dir))
            && out.1 == (if out.0.Ok? then fs[link := Symlink(pluginPath)] else fs)
            && (out.0.Err? ==> out.0.error == LINK_FAILED + CreateSymlinkError(fs, link).message))
    ensures out.0.Ok? ==> LinkPath(pluginPath, dir).Some? && out.1 == fs[LinkPath(pluginPath, dir).value := Symlink(pluginPath)]
  {
    if !Exists(fs, dir) then (Err(NO_USER_PLUGINS), fs)
    else if FileName(pluginPath).None? then (Err("Unable to get plugin file name from path '" + Display(pluginPath) + "'"), fs)
    else
      var link := dir + [FileName(pluginPath).value];
      assert link[..|link| - 1] == dir;
      if Exists(fs, link) && !fs[link].Symlink? then (Err(ReadLink(fs, link).error.message), fs)
      else if Exists(fs, link) && fs[link].target == pluginPath then (Ok(()), fs)
      else
        var cleared := if Exists(fs, link) then fs - {link} else fs;
        if link !in cleared && IsDir(cleared, dir) then (Ok(()), cleared[link := Symlink(pluginPath)])
        else (Err(LINK_FAILED + CreateSymlinkError(cleared, link).message), cleared)
  }

  /** `_symlink_plugin`, with the link callback `FileSystem.CreateSymlink`. */
  method SymlinkPlugin(fsys: FileSystem, pluginPath: Path, dir: Path) returns (r: Result<(), string>)
    modifies fsys
    ensures (r, fsys.entries) == SymlinkOutcome(old(fsys.entries), pluginPath, dir)
  {
    if !Exists(fsys.entries, dir) {
      return Err(NO_USER_PLUGINS);
    }
    var name := FileName(pluginPath);
    if name.None? {
      return Err("Unable to get plugin file name from path '" + Display(pluginPath) + "'");
    }
    var link := dir + [name.value];
    assert link[..|link| - 1] == dir;
    if Exists(fsys.entries, link) {
      var current := ReadLink(fsys.entries, link);
      if current.Err? {
        return Err(current.error.message);
      }
      if current.value != pluginPath {
        // The entry is a symlink, so its removal cannot fail in this model.
        var removed := fsys.RemoveFile(link);
        assert removed.Ok?;
      } else {
        return Ok(());
      }
    }
    var linked := fsys.CreateSymlink(pluginPath, link);
    if linked.Err? {
      return Err(LINK_FAILED + linked.error.message);
    }
    return Ok(());
  }

  /**
   * `_remove_plugin_symlink`: an existing symlink `dir/<fileName>` is removed
   * (kept under `dryRun`) and the result is `Ok`; when there is none the
   * result is an error and nothing changes.
   */
  method RemovePluginSymlink(fsys: FileSystem, pluginName: string, fileName: string, dir: Path, dryRun: bool)
    returns (r: Result<(), string>)
    modifies fsys
    ensures r.Ok? <==> IsSymlink(old(fsys.entries), dir + [fileName])
    ensures r.Err? ==> r.error == "`" + Display(dir) + "` does not contain a symlink for `" + pluginName + "` (" + fileName + ")"
    ensures fsys.entries == if r.Ok? && !dryRun then old(fsys.entries) - {dir + [fileName]} else old(fsys.entries)
  {
    var link := dir + [fileName];
    if IsSymlink(fsys.entries, link) {
      if !dryRun {
        // The entry is a symlink, so its removal cannot fail in this model.
        var removed := fsys.RemoveFile(link);
        assert removed.Ok?;
      }
      return Ok(());
    }
    return Err("`" + Display(dir) + "` does not contain a symlink for `" + pluginName + "` (" + fileName + ")");
  }
}
