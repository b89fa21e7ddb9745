/**
 * `build` (`src/command/build.rs`, and its older copy in `src/main.rs`):
 * runs `cargo build`, then for each configured plugin validates its
 * manifest, renames the built artifact after the plugin's config key and
 * symlinks it into REAPER's `UserPlugins` directory.
 */
module Build {
  import opened Wrappers
  import opened Fs
  import opened Process
  import opened Diagnostics
  import Platform
  import Util
  import Config
  import Project
  import Links

  /** The profile directory cargo built into: `release` iff some argument is exactly `--release`. */
  function Profile(args: seq<string>): (p: string)
    ensures p == (if "--release" in args then "release" else "debug")
    decreases |args|
  {
    if |args| == 0 then "debug"
    else if args[0] == "--release" then "release"
    else
      assert args == [args[0]] + args[1..];
      Profile(args[1..])
  }

  /** The artifact cargo leaves for library `libName`: `root/target/<profile>/<platform file name>`. */
  function ArtifactPath(os: Platform.Os, root: Path, profile: string, libName: string): (r: Path)
    ensures |r| == |root| + 3 && r[..|root|] == root && r[|root|] == "target" && r[|root| + 1] == profile
    ensures FileName(r) == Some(Platform.FromPluginFileName(os, Platform.AddPluginExt(os, libName)))
  {
    root + ["target", profile, Platform.FromPluginFileName(os, Platform.AddPluginExt(os, libName))]
  }

  /** Where the artifact is renamed to: the plugin's config key with the platform extension, beside it. */
  function PluginPath(os: Platform.Os, root: Path, profile: string, key: string): Path {
    Links.RenamedPath(root, profile, Platform.AddPluginExt(os, key))
  }

  /**
   * The library name `build` takes from a plugin's manifest: a read error
   * and a `validate_plugin` error are returned, and a missing `[lib]` or
   * library name panics at the `unwrap`s.
   */
  function LibName(fs: Entries, config: Config.ReaperPluginConfig, entry: Config.PluginEntry,
                   parseManifest: string -> Result<Util.Manifest, string>): (r: Result<string, Failure>)
    ensures var file := Config.ManifestFile(entry);
      !IsFile(fs, file) ==>
        r == Err(Error(Util.ManifestReadFailure(Display(file), entry.key.value, ReadToString(fs, file).error.message)))
    ensures IsFile(fs, Config.ManifestFile(entry)) ==>
      var content := ReadToString(fs, Config.ManifestFile(entry)).value;
      var parsed := parseManifest(content);
      && (parsed.Err? ==> r.Err? && r.error.Error?)
      && (parsed.Ok? ==>
            && (r.Ok? <==> parsed.value.lib.Some? && parsed.value.lib.value.name.Some?
                           && !Util.LibPanics(parsed.value.lib, content))
            && (r.Ok? ==> r.value == parsed.value.lib.value.name.value)
            && (r.Err? ==> r == Err(Panic(UNWRAP_NONE))))
  {
    match ReadToString(fs, Config.ManifestFile(entry))
    case Err(e) => Err(Error(Util.ManifestReadFailure(Display(Config.ManifestFile(entry)), entry.key.value, e.message)))
    case Ok(content) =>
      var parsed := parseManifest(content);
      match Util.ValidationResult(Config.ValidationInputFor(config, entry, content), parsed)
      case Err(e) => Err(e)
      case Ok(manifest) =>
        match manifest.value.lib
        case None => Err(Panic(UNWRAP_NONE))
        case Some(lib) =>
          match lib.name
          case None => Err(Panic(UNWRAP_NONE))
          case Some(name) =>
            Ok(name)
  }

  /** What happened to one plugin whose manifest was usable. */
  datatype PluginBuild = Skipped | Linked(path: Path) | NotLinked(path: Path, warning: string)

  function NotSymlinkedWarning(path: Path): string {
    "warning: plugin was not symlinked (" + Display(path) + ")"
  }

  /** What `build` did to plugin `key` when it went on past it. */
  predicate BuiltAsExpected(b: PluginBuild, os: Platform.Os, root: Path, profile: string, key: string, noSymlink: bool) {
    b.Skipped? || (b.path == PluginPath(os, root, profile, key) && (b.NotLinked? <==> noSymlink))
  }

  /** What every plugin of one `build` shares: platform, project, profile, config, flag and `dirs` base. */
  datatype BuildEnv = BuildEnv(os: Platform.Os, root: Path, profile: string, config: Config.ReaperPluginConfig,
                               noSymlink: bool, parseManifest: string -> Result<Util.Manifest, string>,
                               userPluginsBase: Option<Path>)

  /**
   * One iteration of `build`'s loop on state `fs`: its result and the new
   * state. A plugin whose artifact does not exist is skipped without a
   * change; otherwise the artifact is renamed and then symlinked into
   * `UserPlugins` unless `noSymlink`. A failure after the rename keeps it.
   */
  function PluginOutcome(fs: Entries, env: BuildEnv, entry: Config.PluginEntry): (out: (Result<PluginBuild, Failure>, Entries))
    ensures out.0.Ok? ==> BuiltAsExpected(out.0.value, env.os, env.root, env.profile, entry.key.value, env.noSymlink)
  {
    match LibName(fs, env.config, entry, env.parseManifest)
    case Err(e) => (Err(e), fs)
    case Ok(lib) =>
      var from := ArtifactPath(env.os, env.root, env.profile, lib);
      var to := PluginPath(env.os, env.root, env.profile, entry.key.value);
      if !Exists(fs, from) then (Ok(Skipped), fs)
      else if !Links.CanRename(fs, from, to) then (Err(Error(Links.RENAME_FAILED + RenameError(fs, from, to).message)), fs)
      else
        var renamed := Apply(fs, Rename(from, to));
        if env.noSymlink then (Ok(NotLinked(to, NotSymlinkedWarning(to))), renamed)
        else match Links.UserPluginsDir(env.os, env.userPluginsBase)
          case Err(e) => (Err(Error(e)), renamed)
          case Ok(dir) =>
            var linked := Links.SymlinkOutcome(renamed, to, dir);
            (if linked.0.Ok? then Ok(Linked(to)) else Err(Error(linked.0.error)), linked.1)
  }

  /**
   * The cases of one iteration: which failures change nothing, which keep
   * the rename, and the state a skip, a rename and a link leave.
   */
  lemma PluginOutcomeCases(fs: Entries, env: BuildEnv, entry: Config.PluginEntry)
    ensures var out := PluginOutcome(fs, env, entry);
      var lib := LibName(fs, env.config, entry, env.parseManifest);
      && (lib.Err? ==> out == (Err(lib.error), fs))
      && (lib.Ok? ==>
            var from := ArtifactPath(env.os, env.root, env.profile, lib.value);
            var to := PluginPath(env.os, env.root, env.profile, entry.key.value);
            var renamed := Apply(fs, Rename(from, to));
            var dir := Links.UserPluginsDir(env.os, env.userPluginsBase);
            && (out.0 == Ok(Skipped) <==> !Exists(fs, from))
            && (!Exists(fs, from) ==> out.1 == fs)
            && (Exists(fs, from) && !Links.CanRename(fs, from, to) ==>
                  out == (Err(Error(Links.RENAME_FAILED + RenameError(fs, from, to).message)), fs))
            && (Exists(fs, from) && Links.CanRename(fs, from, to) ==>
                  && (env.noSymlink ==> out == (Ok(NotLinked(to, NotSymlinkedWarning(to))), renamed))
                  && (!env.noSymlink && dir.Err? ==> out == (Err(Error(dir.error)), renamed))
                  && (!env.noSymlink && dir.Ok? ==>
                        var linked := Links.SymlinkOutcome(renamed, to, dir.value);
                        && out.1 == linked.1
                        && (out.0.Ok? <==> linked.0.Ok?)
                        && (out.0.Ok? ==> out.0.value == Linked(to)
                                          && out.1 == renamed[dir.value + [Platform.AddPluginExt(env.os, entry.key.value)] := Symlink(to)])
                        && (out.0.Err? ==> out.0.error == Error(linked.0.error)))))
  {
    var lib := LibName(fs, env.config, entry, env.parseManifest);
    var dir := Links.UserPluginsDir(env.os, env.userPluginsBase);
    if lib.Ok? && dir.Ok? {
      var to := PluginPath(env.os, env.root, env.profile, entry.key.value);
      assert Links.LinkPath(to, dir.value) == Some(dir.value + [Platform.AddPluginExt(env.os, entry.key.value)]);
    }
  }

  /** One iteration of `build`'s loop, proved against `PluginOutcome`. */
  method BuildPlugin(fsys: FileSystem, emitter: TomlErrorEmitter, env: BuildEnv, entry: Config.PluginEntry)
    returns (r: Result<PluginBuild, Failure>)
    requires emitter.Valid()
    modifies fsys, emitter
    ensures emitter.Valid()
    ensures (r, fsys.entries) == PluginOutcome(old(fsys.entries), env, entry)
  {
    var manifestFile := Config.ManifestFile(entry);
    var read := ReadToString(fsys.entries, manifestFile);
    if read.Err? {
      return Err(Error(Util.ManifestReadFailure(Display(manifestFile), entry.key.value, read.error.message)));
    }
    var content := read.value;
    var manifest := Util.ValidatePlugin(emitter, Config.ValidationInputFor(env.config, entry, content), env.parseManifest(content));
    if manifest.Err? {
      return Err(manifest.error);
    }
    var lib := manifest.value.value.lib;
    if lib.None? || lib.value.name.None? {
      return Err(Panic(UNWRAP_NONE));
    }
    var from := ArtifactPath(env.os, env.root, env.profile, lib.value.name.value);
    if !Exists(fsys.entries, from) {
      return Ok(Skipped);
    }
    var renamed := Links.RenamePlugin(fsys, env.root, env.profile, from, Platform.AddPluginExt(env.os, entry.key.value));
    if renamed.Err? {
      return Err(Error(renamed.error));
    }
    var to := renamed.value;
    if env.noSymlink {
      return Ok(NotLinked(to, NotSymlinkedWarning(to)));
    }
    var dir := Links.UserPluginsDir(env.os, env.userPluginsBase);
    if dir.Err? {
      return Err(Error(dir.error));
    }
    var linked := Links.SymlinkPlugin(fsys, to, dir.value);
    if linked.Err? {
      return Err(Error(linked.error));
    }
    return Ok(Linked(to));
  }

  /** One step of a loop over plugins: its result and the state it leaves. */
  type Step = (Entries, Config.PluginEntry) -> (Result<PluginBuild, Failure>, Entries)

  /**
   * A loop that runs `step` on each plugin in turn from state `fs` and stops
   * at the first failure: the results before it, the failure if any, and
   * the final state.
   */
  function RunSteps(fs: Entries, step: Step, plugins: seq<Config.PluginEntry>): (out: (seq<PluginBuild>, Option<Failure>, Entries))
    ensures |out.0| <= |plugins| && (out.1.None? <==> |out.0| == |plugins|)
    decreases |plugins|
  {
    if |plugins| == 0 then ([], None, fs)
    else
      var first := step(fs, plugins[0]);
      if first.0.Err? then ([], Some(first.0.error), first.1)
      else
        var rest := RunSteps(first.1, step, plugins[1..]);
        ([first.0.value] + rest.0, rest.1, rest.2)
  }

  /** The loop over `a + b` is the loop over `a`, then, unless that failed, the loop over `b`. */
  lemma {:induction false} RunStepsAppend(fs: Entries, step: Step, a: seq<Config.PluginEntry>, b: seq<Config.PluginEntry>)
    ensures var first := RunSteps(fs, step, a);
      var rest := RunSteps(first.2, step, b);
      RunSteps(fs, step, a + b) == if first.1.Some? then first else (first.0 + rest.0, rest.1, rest.2)
    decreases |a|
  {
    if |a| == 0 {
      assert a + b == b && [] + RunSteps(fs, step, b).0 == RunSteps(fs, step, b).0;
    } else {
      assert (a + b)[0] == a[0] && (a + b)[1..] == a[1..] + b;
      var o := step(fs, a[0]);
      if o.0.Ok? {
        var x := RunSteps(o.1, step, a[1..]);
        var rest := RunSteps(x.2, step, b);
        RunStepsAppend(o.1, step, a[1..], b);
        assert ([o.0.value] + x.0) + rest.0 == [o.0.value] + (x.0 + rest.0);
      }
    }
  }

  /** Result `j` of a loop that got past plugin `j` is the step's on the state the plugins before it left. */
  lemma RunStepsAt(fs: Entries, step: Step, plugins: seq<Config.PluginEntry>, j: nat)
    requires j < |RunSteps(fs, step, plugins).0|
    ensures var before := RunSteps(fs, step, plugins[..j]);
      && before.1.None?
      && before.0 == RunSteps(fs, step, plugins).0[..j]
      && step(before.2, plugins[j]).0.Ok?
      && RunSteps(fs, step, plugins).0[j] == step(before.2, plugins[j]).0.value
  {
    var before := RunSteps(fs, step, plugins[..j]);
    assert plugins == plugins[..j] + plugins[j..];
    RunStepsAppend(fs, step, plugins[..j], plugins[j..]);
    var tail := plugins[j..];
    assert tail[0] == plugins[j];
  }

  /** `build`'s plugin loop: `PluginOutcome` for each configured plugin, in order. */
  function BuildAll(fs: Entries, env: BuildEnv, plugins: seq<Config.PluginEntry>): (out: (seq<PluginBuild>, Option<Failure>, Entries))
    ensures |out.0| <= |plugins| && (out.1.None? <==> |out.0| == |plugins|)
  {
    RunSteps(fs, (s, e) => PluginOutcome(s, env, e), plugins)
  }

  /**
   * Every plugin the loop got past was built as `build` promises, on the
   * state the plugins before it left, and it was skipped exactly when its
   * artifact was absent there.
   */
  lemma BuildAllStep(fs: Entries, env: BuildEnv, plugins: seq<Config.PluginEntry>, j: nat)
    requires j < |BuildAll(fs, env, plugins).0|
    ensures var built := BuildAll(fs, env, plugins).0[j];
      var before := BuildAll(fs, env, plugins[..j]);
      var lib := LibName(before.2, env.config, plugins[j], env.parseManifest);
      && before.1.None?
      && PluginOutcome(before.2, env, plugins[j]).0.Ok?
      && built == PluginOutcome(before.2, env, plugins[j]).0.value
      && BuiltAsExpected(built, env.os, env.root, env.profile, plugins[j].key.value, env.noSymlink)
      && lib.Ok?
      && (built.Skipped? <==> !Exists(before.2, ArtifactPath(env.os, env.root, env.profile, lib.value)))
  {
    var step: Step := (s, e) => PluginOutcome(s, env, e);
    RunStepsAt(fs, step, plugins, j);
    var before := RunSteps(fs, step, plugins[..j]);
    PluginOutcomeCases(before.2, env, plugins[j]);
  }

  /** A loop that got past every plugin built each one as `build` promises. */
  lemma BuildAllAsExpected(fs: Entries, env: BuildEnv, plugins: seq<Config.PluginEntry>)
    ensures var built := BuildAll(fs, env, plugins).0;
      forall j :: 0 <= j < |built| ==>
        BuiltAsExpected(built[j], env.os, env.root, env.profile, plugins[j].key.value, env.noSymlink)
  {
    forall j | 0 <= j < |BuildAll(fs, env, plugins).0|
      ensures BuiltAsExpected(BuildAll(fs, env, plugins).0[j], env.os, env.root, env.profile, plugins[j].key.value, env.noSymlink)
    {
      BuildAllStep(fs, env, plugins, j);
    }
  }

  /** How `build` ends: its `Result`, or a `process::exit` with cargo's code. */
  datatype BuildResult = Done(result: Result<(), Failure>) | ExitWith(code: int)

  /** `cargo build <args>`, with the forwarded arguments in order. */
  function CargoBuild(args: seq<string>): (c: Cmd)
    ensures c.program == "cargo" && c.env == [] && |c.args| == |args| + 1 && c.args[0] == "build" && c.args[1..] == args
  {
    Cmd("cargo", ["build"] + args, [])
  }

  /**
   * `build` once the project root and config are known. `cargo` is what
   * running `CargoBuild(args)` gave. Only a successful status reaches the
   * plugin loop; a failed one exits with its code or 1. The diagnostics
   * `validate_plugin` records are never emitted.
   */
  method BuildProject(fsys: FileSystem, os: Platform.Os, root: Path, config: Config.ReaperPluginConfig, noSymlink: bool,
                      args: seq<string>, cargo: Result<ExitStatus, string>,
                      parseManifest: string -> Result<Util.Manifest, string>, userPluginsBase: Option<Path>)
    returns (r: BuildResult, built: seq<PluginBuild>)
    modifies fsys
    ensures cargo.Err? ==> r == Done(Err(Error(cargo.error))) && built == [] && fsys.entries == old(fsys.entries)
    ensures cargo.Ok? && !cargo.value.Success() ==>
      r == ExitWith(FailureExitCode(cargo.value)) && built == [] && fsys.entries == old(fsys.entries)
    ensures r.ExitWith? ==> cargo.Ok? && !cargo.value.Success()
    ensures cargo.Ok? && cargo.value.Success() ==>
      var all := BuildAll(old(fsys.entries), BuildEnv(os, root, Profile(args), config, noSymlink, parseManifest, userPluginsBase),
                          config.extensionPlugins);
      && built == all.0 && fsys.entries == all.2
      && r == Done(if all.1.None? then Ok(()) else Err(all.1.value))
    ensures r == Done(Ok(())) ==>
      && cargo.Ok? && cargo.value.Success() && |built| == |config.extensionPlugins|
      && forall j :: 0 <= j < |built| ==>
           BuiltAsExpected(built[j], os, root, Profile(args), config.extensionPlugins[j].key.value, noSymlink)
  {
    built := [];
    if cargo.Err? {
      return Done(Err(Error(cargo.error))), built;
    }
    if !cargo.value.Success() {
      return ExitWith(FailureExitCode(cargo.value)), built;
    }
    var emitter := new TomlErrorEmitter();
    var env := BuildEnv(os, root, Profile(args), config, noSymlink, parseManifest, userPluginsBase);
    var step: Step := (s, e) => PluginOutcome(s, env, e);
    var plugins := config.extensionPlugins;
    ghost var all := RunSteps(fsys.entries, step, plugins);
    var i := 0;
    assert plugins[i..] == plugins && built + all.0 == all.0;
    while i < |plugins|
      invariant 0 <= i <= |plugins| && |built| == i
      invariant emitter.Valid() && fresh(emitter)
      invariant var rest := RunSteps(fsys.entries, step, plugins[i..]);
        all == (built + rest.0, rest.1, rest.2)
    {
      ghost var rest := RunSteps(fsys.entries, step, plugins[i..]);
      assert plugins[i..][0] == plugins[i] && plugins[i..][1..] == plugins[i + 1..];
      var b := BuildPlugin(fsys, emitter, env, plugins[i]);
      if b.Err? {
        return Done(Err(b.error)), built;
      }
      assert built + rest.0 == (built + [b.value]) + RunSteps(fsys.entries, step, plugins[i + 1..]).0;
      built := built + [b.value];
      i := i + 1;
    }
    assert plugins[i..] == [];
    BuildAllAsExpected(old(fsys.entries), env, plugins);
    return Done(Ok(())), built;
  }

  /**
   * `build`: finds the project root and loads its config before anything
   * runs, so a failure there means cargo is never invoked and nothing changes.
   */
  method BuildCommand(fsys: FileSystem, os: Platform.Os, cwd: Result<Path, IoError>,
                      parseConfig: string -> Result<seq<Config.PluginEntry>, string>, noSymlink: bool,
                      args: seq<string>, cargo: Result<ExitStatus, string>,
                      parseManifest: string -> Result<Util.Manifest, string>, userPluginsBase: Option<Path>)
    returns (r: BuildResult, ran: Option<Cmd>)
    modifies fsys
    ensures ran.None? ==> r.Done? && r.result.Err? && fsys.entries == old(fsys.entries)
    ensures ran.Some? ==> ran.value == CargoBuild(args)
  {
    var root := Project.FindProjectRoot(fsys.entries, cwd);
    if root.Err? {
      return Done(Err(Error(root.error))), None;
    }
    var config := Config.Load(fsys.entries, root.value, cwd.value, parseConfig);
    if config.Err? {
      return Done(Err(config.error)), None;
    }
    var built;
    r, built := BuildProject(fsys, os, root.value, config.value, noSymlink, args, cargo, parseManifest, userPluginsBase);
    return r, Some(CargoBuild(args));
  }
}
