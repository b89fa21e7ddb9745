/**
 * `src/config.rs`: locating and loading the `reaper.toml` plugin config of a
 * project. TOML deserialisation is the parameter `parse`: it maps the text of
 * the config file to the `[extension_plugins]` table or to the parser's
 * error message.
 */
module Config {
  import opened Wrappers
  import opened Fs
  import opened Diagnostics
  import Util

  /** `CONFIG_FILE_NAMES`, in order of preference. */
  const CONFIG_FILE_NAMES: seq<string> := [".reaper.toml", "reaper.toml"]

  /**
   * One `key = "path"` line of `[extension_plugins]`, with the spans of key
   * and value. The directory is its components as written, absolute or
   * relative to the working directory; `Load` resolves it, so every entry
   * of a loaded table is absolute with neither `.` nor `..` in it.
   */
  datatype PluginEntry = PluginEntry(key: Spanned<string>, dir: Spanned<Path>, absolute: bool)

  /**
   * The directory the operating system reaches from `base` by the
   * components `names`: `.` stays, `..` goes up (the root is its own
   * parent), any other name goes down.
   */
  function Descend(base: Path, names: seq<string>): (r: Path)
    ensures (forall i :: 0 <= i < |names| ==> names[i] != "." && names[i] != "..") ==> r == base + names
    ensures (forall i :: 0 <= i < |names| ==> names[i] == ".") ==> r == base
    decreases |names|
  {
    if |names| == 0 then base
    else
      var next := if names[0] == "." then base
                  else if names[0] == ".." then (if |base| == 0 then base else base[..|base| - 1])
                  else base + [names[0]];
      assert forall i :: 1 <= i < |names| ==> names[1..][i - 1] == names[i];
      var r := Descend(next, names[1..]);
      assert names[0] != "." && names[0] != ".." ==> base + names == next + names[1..];
      r
  }

  /**
   * `dir.join("Cargo.toml")` opened by a process whose working directory is
   * `cwd`: a relative directory is taken from `cwd`, not from the project
   * root.
   */
  function Resolved(cwd: Path, entry: PluginEntry): (r: PluginEntry)
    ensures r.key == entry.key && r.dir.span == entry.dir.span && r.absolute
    ensures r.dir.value == Descend(if entry.absolute then [] else cwd, entry.dir.value)
  {
    entry.(dir := entry.dir.(value := Descend(if entry.absolute then [] else cwd, entry.dir.value)), absolute := true)
  }

  /** The parsed table with every directory resolved from `cwd`; keys and order are kept. */
  function ResolveAll(cwd: Path, table: seq<PluginEntry>): (r: seq<PluginEntry>)
    ensures |r| == |table| && forall i :: 0 <= i < |table| ==> r[i] == Resolved(cwd, table[i])
    ensures DistinctKeys(table) ==> DistinctKeys(r)
  {
    seq(|table|, i requires 0 <= i < |table| => Resolved(cwd, table[i]))
  }

  /**
   * The directory `new` writes, `./.`, is the working directory itself. Run
   * from any other directory than the project root, the commands read a
   * `Cargo.toml` there instead of the project's.
   */
  lemma GeneratedDirIsWorkingDir(cwd: Path, root: Path, key: Spanned<string>, span: Span)
    ensures var entry := Resolved(cwd, PluginEntry(key, Spanned([".", "."], span), false));
      && ManifestFile(entry) == cwd + ["Cargo.toml"]
      && (ManifestFile(entry) == root + ["Cargo.toml"] <==> cwd == root)
  {
    var names := [".", "."];
    assert forall i :: 0 <= i < |names| ==> names[i] == ".";
    if cwd + ["Cargo.toml"] == root + ["Cargo.toml"] {
      assert cwd == (cwd + ["Cargo.toml"])[..|cwd|];
      assert root == (root + ["Cargo.toml"])[..|root|];
    }
  }

  /**
   * A `HashMap` in one of its iteration orders: no key occurs twice. The
   * model keeps the order fixed, so commands that walk the map twice see the
   * same order both times, as one unchanged Rust map does.
   */
  predicate DistinctKeys(table: seq<PluginEntry>) {
    forall i, j :: 0 <= i < j < |table| ==> table[i].key.value != table[j].key.value
  }

  /** `ReaperPluginConfig`; its accessors `file`, `contents` and `extension_plugins` are the fields. */
  datatype ReaperPluginConfig = ReaperPluginConfig(file: Path, contents: string, extensionPlugins: seq<PluginEntry>)

  /** The manifest a resolved config entry points at: `Cargo.toml` in the plugin's directory. */
  function ManifestFile(entry: PluginEntry): (r: Path)
    ensures |r| == |entry.dir.value| + 1 && r[..|entry.dir.value|] == entry.dir.value && FileName(r) == Some("Cargo.toml")
  {
    entry.dir.value + ["Cargo.toml"]
  }

  /** What `validate_plugin` is handed for one entry whose manifest text is `content`. */
  function ValidationInputFor(config: ReaperPluginConfig, entry: PluginEntry, content: string): Util.ValidationInput {
    Util.ValidationInput(Display(config.file), config.contents, entry.key, Display(ManifestFile(entry)), content)
  }

  /** The first of `names`, joined to `root`, that exists. */
  function FirstExisting(fs: Entries, root: Path, names: seq<string>): (r: Option<Path>)
    ensures r.Some? <==> exists i :: 0 <= i < |names| && Exists(fs, root + [names[i]])
    ensures r.Some? ==> exists i :: 0 <= i < |names| && r.value == root + [names[i]] && Exists(fs, r.value)
                                     && forall j :: 0 <= j < i ==> !Exists(fs, root + [names[j]])
    decreases |names|
  {
    if |names| == 0 then None
    else if Exists(fs, PathJoin(root, names[0])) then Some(PathJoin(root, names[0]))
    else
      var rest := FirstExisting(fs, root, names[1..]);
      assert forall i :: 1 <= i < |names| ==> names[i] == names[1..][i - 1];
      rest
  }

  /** The config file `load` picks: `.reaper.toml` when it exists, else `reaper.toml` when that does. */
  function ConfigFile(fs: Entries, root: Path): Option<Path> {
    FirstExisting(fs, root, CONFIG_FILE_NAMES)
  }

  lemma ConfigFilePreference(fs: Entries, root: Path)
    ensures Exists(fs, root + [".reaper.toml"]) ==> ConfigFile(fs, root) == Some(root + [".reaper.toml"])
    ensures !Exists(fs, root + [".reaper.toml"]) && Exists(fs, root + ["reaper.toml"])
            ==> ConfigFile(fs, root) == Some(root + ["reaper.toml"])
    ensures ConfigFile(fs, root).None?
            <==> !Exists(fs, root + [".reaper.toml"]) && !Exists(fs, root + ["reaper.toml"])
  {
  }

  const READ_FAILED: string := "failed to read reaper toml file:\n"
  const LOAD_FAILED: string := "failed to load plugin config from reaper toml:\n"

  /**
   * `ReaperPluginConfig::load`. The `unwrap` of the candidate search panics
   * when neither file exists (its callers first find a project root where one
   * does); a read error and a parse error are returned. The I/O error's
   * `{:#?}` rendering is modelled by its message.
   */
  function Load(fs: Entries, root: Path, cwd: Path, parse: string -> Result<seq<PluginEntry>, string>): (r: Result<ReaperPluginConfig, Failure>)
    ensures r.Err? && r.error.Panic? <==> ConfigFile(fs, root).None?
    ensures r.Ok? <==> ConfigFile(fs, root).Some? && IsFile(fs, ConfigFile(fs, root).value)
                       && parse(ReadToString(fs, ConfigFile(fs, root).value).value).Ok?
    ensures r.Ok? ==> r.value.file == ConfigFile(fs, root).value
                      && Ok(r.value.contents) == ReadToString(fs, r.value.file)
                      && parse(r.value.contents).Ok?
                      && r.value.extensionPlugins == ResolveAll(cwd, parse(r.value.contents).value)
    ensures r.Err? && r.error.Error? && ConfigFile(fs, root).Some? && !IsFile(fs, ConfigFile(fs, root).value)
            ==> r.error.message == READ_FAILED + ReadToString(fs, ConfigFile(fs, root).value).error.message
    ensures ConfigFile(fs, root).Some? && IsFile(fs, ConfigFile(fs, root).value)
            && parse(ReadToString(fs, ConfigFile(fs, root).value).value).Err?
            ==> r == Err(Error(LOAD_FAILED + parse(ReadToString(fs, ConfigFile(fs, root).value).value).error))
  {
    match ConfigFile(fs, root)
    case None => Err(Panic(UNWRAP_NONE))
    case Some(file) =>
      match ReadToString(fs, file)
      case Err(e) => Err(Error(READ_FAILED + e.message))
      case Ok(contents) =>
        match parse(contents)
        case Err(e) => Err(Error(LOAD_FAILED + e))
        case Ok(table) => Ok(ReaperPluginConfig(file, contents, ResolveAll(cwd, table)))
  }
}
