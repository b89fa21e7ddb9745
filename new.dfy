/**
 * `new` (`src/command/new.rs`, and the older copy in `src/main.rs`):
 * creates a plugin project from the template archive. The template tree is
 * moved to the destination, its `.git` and `.gitignore` are dropped, the
 * package and library names in `Cargo.toml` are set to the package name,
 * and `reaper.toml`, a fresh `.gitignore` and a git repository are written.
 */
module New {
  import opened Wrappers
  import opened Fs
  import opened Text
  import Util

  // ---------------------------------------------------------------- names and texts

  /** The config key `new` declares: the package name, with `reaper_` put in front unless it is already there. */
  function PluginKey(packageName: string): (key: string)
    ensures StartsWith(key, Util.PLUGIN_PREFIX)
    ensures EndsWith(key, packageName)
    ensures key == packageName <==> StartsWith(packageName, Util.PLUGIN_PREFIX)
  {
    if StartsWith(packageName, Util.PLUGIN_PREFIX) then packageName
    else
      StartsWithAppend(Util.PLUGIN_PREFIX, packageName);
      EndsWithAppend(Util.PLUGIN_PREFIX, packageName);
      Util.PLUGIN_PREFIX + packageName
  }

  /** Prefixing twice is prefixing once. */
  lemma PluginKeyIdempotent(packageName: string)
    ensures PluginKey(PluginKey(packageName)) == PluginKey(packageName)
  {
  }

  /** The text of the generated `reaper.toml` before and after the key. */
  const REAPER_TOML_HEAD: string :=
    "# Define the desired name and path to a directory containing a Cargo.toml for each extension plugin.\n"
    + "# Extension plugin names must start with `reaper_` or they will not be recognized by REAPER.\n"
    + "\n[extension_plugins]\n"
  const REAPER_TOML_TAIL: string := " = \"./.\"\n"

  /** The generated `reaper.toml`: one plugin `key` whose manifest is in the project directory. */
  function ReaperToml(key: string): string {
    REAPER_TOML_HEAD + key + REAPER_TOML_TAIL
  }

  /** The key a `reaper.toml` of the generated shape declares. */
  function DeclaredKey(text: string): (r: Option<string>)
    ensures r.Some? ==> |r.value| == |text| - |REAPER_TOML_HEAD| - |REAPER_TOML_TAIL|
  {
    if |REAPER_TOML_HEAD| + |REAPER_TOML_TAIL| <= |text| && StartsWith(text, REAPER_TOML_HEAD) && EndsWith(text, REAPER_TOML_TAIL)
    then Some(text[|REAPER_TOML_HEAD|..|text| - |REAPER_TOML_TAIL|])
    else None
  }

  /** Reading the key back from a generated `reaper.toml` gives the key, and only generated texts declare one. */
  lemma DeclaredKeyRoundTrip(key: string, text: string)
    ensures DeclaredKey(ReaperToml(key)) == Some(key)
    ensures DeclaredKey(text) == Some(key) ==> text == ReaperToml(key)
  {
    var t := ReaperToml(key);
    assert t[..|REAPER_TOML_HEAD|] == REAPER_TOML_HEAD;
    assert t[|t| - |REAPER_TOML_TAIL|..] == REAPER_TOML_TAIL;
    assert t[|REAPER_TOML_HEAD|..|t| - |REAPER_TOML_TAIL|] == key;
    if DeclaredKey(text) == Some(key) {
      var h, k := |REAPER_TOML_HEAD|, |text| - |REAPER_TOML_TAIL|;
      assert text == text[..h] + text[h..k] + text[k..];
    }
  }

  /** The key `new` writes is one that `validate_plugin` accepts. */
  lemma GeneratedKeyAccepted(packageName: string)
    ensures var k := DeclaredKey(ReaperToml(PluginKey(packageName)));
      k == Some(PluginKey(packageName)) && Util.KeyChecks(k.value) == []
  {
    DeclaredKeyRoundTrip(PluginKey(packageName), "");
  }

  /** The older `new_from_template` in `src/main.rs` declares the bare package name as the key. */
  function LegacyReaperToml(packageName: string): string {
    ReaperToml(packageName)
  }

  /**
   * A project the older `new_from_template` creates for package `hello`
   * declares key `hello`, which fails the `reaper_` prefix check of the
   * very file it wrote.
   */
  lemma LegacyKeyRejected()
    ensures var k := DeclaredKey(LegacyReaperToml("hello"));
      k == Some("hello") && Util.KeyChecks(k.value) == [Util.BadPrefix]
  {
    DeclaredKeyRoundTrip("hello", "");
    assert !StartsWith("hello", Util.PLUGIN_PREFIX) by {
      assert |"hello"| < |Util.PLUGIN_PREFIX|;
    }
  }

  // ---------------------------------------------------------------- Cargo.toml

  /** A `toml_edit` document: the tables of `Cargo.toml` by name, each a map from key to value. */
  type CargoDoc = map<string, map<string, string>>

  /** Sets `name` in table `table` when the table exists and already has a `name`. */
  function SetName(doc: CargoDoc, table: string, name: string): CargoDoc {
    if table in doc && "name" in doc[table] then doc[table := doc[table]["name" := name]] else doc
  }

  /**
   * `new`'s edit of `Cargo.toml`: `package.name` and `lib.name` become the
   * package name where they exist; no table or key is added or removed and
   * every other value stays.
   */
  function RenameNames(doc: CargoDoc, name: string): (r: CargoDoc)
    ensures r.Keys == doc.Keys
    ensures forall t | t in doc :: r[t].Keys == doc[t].Keys
    ensures forall t, k | t in doc && k in doc[t] ::
      r[t][k] == (if (t == "package" || t == "lib") && k == "name" then name else doc[t][k])
  {
    SetName(SetName(doc, "package", name), "lib", name)
  }

  /** Editing twice with the same name changes nothing more. */
  lemma RenameNamesIdempotent(doc: CargoDoc, name: string)
    ensures RenameNames(RenameNames(doc, name), name) == RenameNames(doc, name)
  {
    var once := RenameNames(doc, name);
    var twice := RenameNames(once, name);
    forall t | t in doc
      ensures twice[t] == once[t]
    {
      assert twice[t].Keys == once[t].Keys;
    }
  }

  // ---------------------------------------------------------------- scaffolding

  const GIT_DIR: string := ".git"
  const GITIGNORE: string := ".gitignore"
  const CARGO_TOML: string := "Cargo.toml"
  const REAPER_TOML: string := "reaper.toml"
  const GITIGNORE_CONTENTS: string := "/target"

  /** The step of `new_from_template` that failed. */
  datatype Stage = Fetch | Move | RemoveGit | RemoveGitignore | ReadManifest | ParseManifest
                 | WriteManifest | WriteConfig | WriteGitignore | InitGit

  /** The file system a sequence of steps left, and the step that stopped it, if one did. */
  datatype Outcome = Outcome(fs: Entries, failed: Option<Stage>)

  /** `rename` may move a tree to `dest`. */
  predicate CanMoveIn(fs: Entries, dest: Path) {
    |dest| > 0 && IsDir(fs, dest[..|dest| - 1]) && dest !in fs
  }

  /**
   * The template fetched (`template`: the extracted folder with paths
   * relative to itself, or why it could not be had), moved to `dest`, and
   * its `.git` and `.gitignore` removed where they exist. `sameDevice` says
   * whether the temporary directory it was extracted to is on the file
   * system of `dest`; `fs::rename` fails when it is not.
   */
  function InstallOutcome(fs: Entries, dest: Path, template: Result<Entries, string>, sameDevice: bool): Outcome {
    match template
    case Err(_) => Outcome(fs, Some(Fetch))
    case Ok(tree) =>
      if !CanMoveIn(fs, dest) || !sameDevice then Outcome(fs, Some(Move))
      else
        var moved := fs + Graft(dest, tree);
        var git := dest + [GIT_DIR];
        if Exists(moved, git) && !(moved[git].Dir? || moved[git].Symlink?) then Outcome(moved, Some(RemoveGit))
        else
          var cleaned := if !Exists(moved, git) then moved
                         else if moved[git].Symlink? then moved - {git}
                         else RemoveTree(moved, git);
          var ignore := dest + [GITIGNORE];
          if Exists(cleaned, ignore) && cleaned[ignore].Dir? then Outcome(cleaned, Some(RemoveGitignore))
          else Outcome(if Exists(cleaned, ignore) then cleaned - {ignore} else cleaned, None)
  }

  /** `fs::write` of `p` succeeds. */
  predicate CanWrite(fs: Entries, p: Path) {
    |p| > 0 && IsDir(fs, p[..|p| - 1]) && !(p in fs && fs[p].Dir?)
  }

  /** `Cargo.toml` read, parsed, renamed and written back. */
  function RewriteOutcome(fs: Entries, dest: Path, packageName: string,
                          parseDoc: string -> Result<CargoDoc, string>, renderDoc: CargoDoc -> string): Outcome {
    var cargo := dest + [CARGO_TOML];
    match ReadToString(fs, cargo)
    case Err(_) => Outcome(fs, Some(ReadManifest))
    case Ok(content) =>
      match parseDoc(content)
      case Err(_) => Outcome(fs, Some(ParseManifest))
      case Ok(doc) =>
        if !CanWrite(fs, cargo) then Outcome(fs, Some(WriteManifest))
        else Outcome(fs[cargo := File(renderDoc(RenameNames(doc, packageName)))], None)
  }

  /**
   * `reaper.toml` and `.gitignore` written and the repository initialised.
   * `gitInit` is what `gix::init` gave: the repository it created in
   * `dest/.git` (paths relative to that directory), or its error.
   */
  function FilesOutcome(fs: Entries, dest: Path, reaperToml: string, gitInit: Result<Entries, string>): Outcome {
    var config := dest + [REAPER_TOML];
    if !CanWrite(fs, config) then Outcome(fs, Some(WriteConfig))
    else
      var fs1 := fs[config := File(reaperToml)];
      var ignore := dest + [GITIGNORE];
      if !CanWrite(fs1, ignore) then Outcome(fs1, Some(WriteGitignore))
      else
        var fs2 := fs1[ignore := File(GITIGNORE_CONTENTS)];
        match gitInit
        case Err(_) => Outcome(fs2, Some(InitGit))
        case Ok(repo) => Outcome(fs2 + Graft(dest + [GIT_DIR], repo), None)
  }

  /** The installed project configured. */
  function ConfigureOutcome(fs: Entries, dest: Path, packageName: string, reaperToml: string,
                            parseDoc: string -> Result<CargoDoc, string>, renderDoc: CargoDoc -> string,
                            gitInit: Result<Entries, string>): (out: Outcome)
    ensures out.failed.Some? ==> out.failed.value in {ReadManifest, ParseManifest, WriteManifest, WriteConfig, WriteGitignore, InitGit}
    ensures gitInit.Err? ==> out.failed.Some?
  {
    var rewritten := RewriteOutcome(fs, dest, packageName, parseDoc, renderDoc);
    if rewritten.failed.Some? then rewritten
    else FilesOutcome(rewritten.fs, dest, reaperToml, gitInit)
  }

  /** Everything `new_from_template` does, as far as it gets. */
  function ScaffoldOutcome(fs: Entries, dest: Path, packageName: string, reaperToml: string,
                           template: Result<Entries, string>, sameDevice: bool,
                           parseDoc: string -> Result<CargoDoc, string>, renderDoc: CargoDoc -> string,
                           gitInit: Result<Entries, string>): Outcome {
    var installed := InstallOutcome(fs, dest, template, sameDevice);
    if installed.failed.Some? then installed
    else ConfigureOutcome(installed.fs, dest, packageName, reaperToml, parseDoc, renderDoc, gitInit)
  }

  /** The template moved in and cleaned of its repository files. */
  method Install(fsys: FileSystem, dest: Path, template: Result<Entries, string>, sameDevice: bool) returns (r: Result<(), string>)
    modifies fsys
    ensures var out := InstallOutcome(old(fsys.entries), dest, template, sameDevice);
      fsys.entries == out.fs && (r.Err? <==> out.failed.Some?)
  {
    if template.Err? {
      return Err(template.error);
    }
    var moved := fsys.MoveIn(template.value, dest, sameDevice);
    if moved.Err? {
      return Err(moved.error.message);
    }
    var git := dest + [GIT_DIR];
    if Exists(fsys.entries, git) {
      var removed := fsys.RemoveDirAll(git);
      if removed.Err? {
        return Err(removed.error.message);
      }
    }
    var ignore := dest + [GITIGNORE];
    if Exists(fsys.entries, ignore) {
      var removed := fsys.RemoveFile(ignore);
      if removed.Err? {
        return Err(removed.error.message);
      }
    }
    return Ok(());
  }

  /** The message `new_from_template` gives when `gix::init` fails. */
  function GitInitFailure(message: string): string {
    "failed to initialize REAPER extension plugin project as a git repository: " + message
  }

  /** `Cargo.toml` read and written back with the package name. */
  method RewriteManifest(fsys: FileSystem, dest: Path, packageName: string,
                         parseDoc: string -> Result<CargoDoc, string>, renderDoc: CargoDoc -> string)
    returns (r: Result<(), string>)
    modifies fsys
    ensures var out := RewriteOutcome(old(fsys.entries), dest, packageName, parseDoc, renderDoc);
      fsys.entries == out.fs && (r.Err? <==> out.failed.Some?)
  {
    var cargo := dest + [CARGO_TOML];
    var content := ReadToString(fsys.entries, cargo);
    if content.Err? {
      return Err(content.error.message);
    }
    var doc := parseDoc(content.value);
    if doc.Err? {
      return Err(doc.error);
    }
    var written := fsys.WriteFile(cargo, renderDoc(RenameNames(doc.value, packageName)));
    if written.Err? {
      return Err(written.error.message);
    }
    return Ok(());
  }

  /** The project's own files written and the repository initialised. */
  method WriteProjectFiles(fsys: FileSystem, dest: Path, reaperToml: string, gitInit: Result<Entries, string>)
    returns (r: Result<(), string>)
    modifies fsys
    ensures var out := FilesOutcome(old(fsys.entries), dest, reaperToml, gitInit);
      && fsys.entries == out.fs && (r.Err? <==> out.failed.Some?)
      && (out.failed == Some(InitGit) ==> r == Err(GitInitFailure(gitInit.error)))
  {
    var written := fsys.WriteFile(dest + [REAPER_TOML], reaperToml);
    if written.Err? {
      return Err(written.error.message);
    }
    written := fsys.WriteFile(dest + [GITIGNORE], GITIGNORE_CONTENTS);
    if written.Err? {
      return Err(written.error.message);
    }
    if gitInit.Err? {
      return Err(GitInitFailure(gitInit.error));
    }
    fsys.AddTree(dest + [GIT_DIR], gitInit.value);
    return Ok(());
  }

  /** The installed project's manifest renamed, its own files written and the repository initialised. */
  method Configure(fsys: FileSystem, dest: Path, packageName: string, reaperToml: string,
                   parseDoc: string -> Result<CargoDoc, string>, renderDoc: CargoDoc -> string,
                   gitInit: Result<Entries, string>) returns (r: Result<(), string>)
    modifies fsys
    ensures var out := ConfigureOutcome(old(fsys.entries), dest, packageName, reaperToml, parseDoc, renderDoc, gitInit);
      && fsys.entries == out.fs && (r.Err? <==> out.failed.Some?)
      && (out.failed == Some(InitGit) ==> r == Err(GitInitFailure(gitInit.error)))
  {
    r := RewriteManifest(fsys, dest, packageName, parseDoc, renderDoc);
    if r.Ok? {
      r := WriteProjectFiles(fsys, dest, reaperToml, gitInit);
    }
  }

  /** `new_from_template` once the `reaper.toml` text is chosen. */
  method Scaffold(fsys: FileSystem, dest: Path, packageName: string, reaperToml: string,
                  template: Result<Entries, string>, sameDevice: bool,
                  parseDoc: string -> Result<CargoDoc, string>, renderDoc: CargoDoc -> string,
                  gitInit: Result<Entries, string>) returns (r: Result<(), string>)
    modifies fsys
    ensures var out := ScaffoldOutcome(old(fsys.entries), dest, packageName, reaperToml, template, sameDevice, parseDoc, renderDoc, gitInit);
      && fsys.entries == out.fs && (r.Err? <==> out.failed.Some?)
      && (out.failed == Some(InitGit) ==> r == Err(GitInitFailure(gitInit.error)))
  {
    r := Install(fsys, dest, template, sameDevice);
    if r.Ok? {
      r := Configure(fsys, dest, packageName, reaperToml, parseDoc, renderDoc, gitInit);
    }
  }

  /** A finished install changes nothing outside `dest` and puts the template's files below it in place. */
  lemma Installed(fs: Entries, dest: Path, template: Result<Entries, string>, sameDevice: bool)
    requires InstallOutcome(fs, dest, template, sameDevice).failed.None?
    ensures template.Ok? && sameDevice
    ensures var installed := InstallOutcome(fs, dest, template, sameDevice).fs;
      && (forall q | !Under(q, dest) :: (q in installed <==> q in fs) && (q in fs ==> installed[q] == fs[q]))
      && (forall q | Under(q, dest) && q[|dest|..] in template.value && !Under(q, dest + [GIT_DIR]) && q != dest + [GITIGNORE] ::
            q in installed && installed[q] == template.value[q[|dest|..]])
  {
    var git := dest + [GIT_DIR];
    var ignore := dest + [GITIGNORE];
    forall q | !Under(q, dest)
      ensures !Under(q, git) && q != git && q != ignore
    {
    }
  }

  /** A finished configuration writes exactly the three project files and the repository. */
  lemma Configured(fs: Entries, dest: Path, packageName: string, reaperToml: string,
                   parseDoc: string -> Result<CargoDoc, string>, renderDoc: CargoDoc -> string,
                   gitInit: Result<Entries, string>)
    requires ConfigureOutcome(fs, dest, packageName, reaperToml, parseDoc, renderDoc, gitInit).failed.None?
    ensures gitInit.Ok?
    ensures var out := ConfigureOutcome(fs, dest, packageName, reaperToml, parseDoc, renderDoc, gitInit).fs;
      var content := ReadToString(fs, dest + [CARGO_TOML]);
      && content.Ok? && parseDoc(content.value).Ok?
      && dest + [CARGO_TOML] in out && out[dest + [CARGO_TOML]] == File(renderDoc(RenameNames(parseDoc(content.value).value, packageName)))
      && dest + [REAPER_TOML] in out && out[dest + [REAPER_TOML]] == File(reaperToml)
      && dest + [GITIGNORE] in out && out[dest + [GITIGNORE]] == File(GITIGNORE_CONTENTS)
      && (forall q | RepoFile(dest, gitInit.value, q) :: q in out && out[q] == gitInit.value[q[|dest| + 1..]])
      && forall q | !ProjectFile(dest, q) && !RepoFile(dest, gitInit.value, q) ::
           (q in out <==> q in fs) && (q in fs ==> out[q] == fs[q])
  {
    var rewritten := RewriteOutcome(fs, dest, packageName, parseDoc, renderDoc).fs;
    FilesWritten(rewritten, dest, reaperToml, gitInit);
  }

  /** Writing the project's own files and initialising the repository touches nothing else. */
  lemma FilesWritten(fs: Entries, dest: Path, reaperToml: string, gitInit: Result<Entries, string>)
    requires FilesOutcome(fs, dest, reaperToml, gitInit).failed.None?
    ensures gitInit.Ok?
    ensures var out := FilesOutcome(fs, dest, reaperToml, gitInit).fs;
      && dest + [REAPER_TOML] in out && out[dest + [REAPER_TOML]] == File(reaperToml)
      && dest + [GITIGNORE] in out && out[dest + [GITIGNORE]] == File(GITIGNORE_CONTENTS)
      && (forall q | RepoFile(dest, gitInit.value, q) :: q in out && out[q] == gitInit.value[q[|dest| + 1..]])
      && forall q | q != dest + [REAPER_TOML] && q != dest + [GITIGNORE] && !RepoFile(dest, gitInit.value, q) ::
           (q in out <==> q in fs) && (q in fs ==> out[q] == fs[q])
  {
    var repo := gitInit.value;
    var git := dest + [GIT_DIR];
    var placed := Graft(git, repo);
    forall q | q in placed
      ensures RepoFile(dest, repo, q)
    {
    }
    NotInRepo(dest, repo, REAPER_TOML);
    NotInRepo(dest, repo, GITIGNORE);
  }

  /** A file of the project directory named other than `.git` is not part of the repository. */
  lemma NotInRepo(dest: Path, repo: Entries, name: string)
    requires name != GIT_DIR
    ensures !RepoFile(dest, repo, dest + [name])
  {
    var q := dest + [name];
    if |dest + [GIT_DIR]| <= |q| {
      assert q[..|dest| + 1][|dest|] == name;
    }
  }

  /** An entry of the repository `repo` that `gix::init` created in `dest/.git`. */
  predicate RepoFile(dest: Path, repo: Entries, q: Path) {
    Under(q, dest + [GIT_DIR]) && q[|dest| + 1..] in repo
  }

  /** The repository lies in the project directory. */
  lemma RepoFilesUnder(dest: Path, repo: Entries, q: Path)
    requires RepoFile(dest, repo, q)
    ensures Under(q, dest)
  {
    assert q[..|dest|] == q[..|dest| + 1][..|dest|];
  }

  /** One of the three files `new` writes into project `dest`. */
  predicate ProjectFile(dest: Path, q: Path) {
    q == dest + [CARGO_TOML] || q == dest + [REAPER_TOML] || q == dest + [GITIGNORE]
  }

  /** The files `new` writes lie in the project directory. */
  lemma ProjectFilesUnder(dest: Path, q: Path)
    requires ProjectFile(dest, q)
    ensures Under(q, dest)
  {
    assert q[..|dest|] == dest;
  }

  /**
   * A project that `new_from_template` finished: outside `dest` nothing
   * changed; `Cargo.toml` is the installed manifest with its names set to
   * the package name; `reaper.toml` and `.gitignore` hold the generated
   * texts; the repository `gix::init` created is in `dest/.git`; and every
   * other file of the template outside its `.git` is in place.
   */
  lemma ScaffoldedProject(fs: Entries, dest: Path, packageName: string, reaperToml: string,
                          template: Result<Entries, string>, sameDevice: bool,
                          parseDoc: string -> Result<CargoDoc, string>, renderDoc: CargoDoc -> string,
                          gitInit: Result<Entries, string>)
    requires ScaffoldOutcome(fs, dest, packageName, reaperToml, template, sameDevice, parseDoc, renderDoc, gitInit).failed.None?
    ensures template.Ok? && sameDevice && gitInit.Ok?
    ensures var out := ScaffoldOutcome(fs, dest, packageName, reaperToml, template, sameDevice, parseDoc, renderDoc, gitInit).fs;
      var installed := InstallOutcome(fs, dest, template, sameDevice).fs;
      var content := ReadToString(installed, dest + [CARGO_TOML]);
      && content.Ok? && parseDoc(content.value).Ok?
      && dest + [CARGO_TOML] in out && out[dest + [CARGO_TOML]] == File(renderDoc(RenameNames(parseDoc(content.value).value, packageName)))
      && dest + [REAPER_TOML] in out && out[dest + [REAPER_TOML]] == File(reaperToml)
      && dest + [GITIGNORE] in out && out[dest + [GITIGNORE]] == File(GITIGNORE_CONTENTS)
    ensures var out := ScaffoldOutcome(fs, dest, packageName, reaperToml, template, sameDevice, parseDoc, renderDoc, gitInit).fs;
      forall q | RepoFile(dest, gitInit.value, q) :: q in out && out[q] == gitInit.value[q[|dest| + 1..]]
    ensures var out := ScaffoldOutcome(fs, dest, packageName, reaperToml, template, sameDevice, parseDoc, renderDoc, gitInit).fs;
      forall q | !Under(q, dest) :: (q in out <==> q in fs) && (q in fs ==> out[q] == fs[q])
    ensures var out := ScaffoldOutcome(fs, dest, packageName, reaperToml, template, sameDevice, parseDoc, renderDoc, gitInit).fs;
      forall q | Under(q, dest) && q[|dest|..] in template.value && !Under(q, dest + [GIT_DIR])
                 && !ProjectFile(dest, q) ::
        q in out && out[q] == template.value[q[|dest|..]]
  {
    Installed(fs, dest, template, sameDevice);
    var installed := InstallOutcome(fs, dest, template, sameDevice).fs;
    Configured(installed, dest, packageName, reaperToml, parseDoc, renderDoc, gitInit);
    var out := ConfigureOutcome(installed, dest, packageName, reaperToml, parseDoc, renderDoc, gitInit).fs;
    assert out == ScaffoldOutcome(fs, dest, packageName, reaperToml, template, sameDevice, parseDoc, renderDoc, gitInit).fs;
    forall q | !Under(q, dest)
      ensures !ProjectFile(dest, q) && !RepoFile(dest, gitInit.value, q)
    {
      if ProjectFile(dest, q) {
        ProjectFilesUnder(dest, q);
      }
      if RepoFile(dest, gitInit.value, q) {
        RepoFilesUnder(dest, gitInit.value, q);
      }
    }
  }

  /**
   * A template extracted to a temporary directory on another file system
   * than `dest` is never installed: `new` stops at the move and leaves the
   * file system as it was, whatever the destination.
   */
  lemma CrossDeviceMoveFails(fs: Entries, dest: Path, packageName: string, reaperToml: string,
                             template: Result<Entries, string>, sameDevice: bool,
                             parseDoc: string -> Result<CargoDoc, string>, renderDoc: CargoDoc -> string,
                             gitInit: Result<Entries, string>)
    requires template.Ok? && !sameDevice
    ensures ScaffoldOutcome(fs, dest, packageName, reaperToml, template, sameDevice, parseDoc, renderDoc, gitInit)
            == Outcome(fs, Some(Move))
  {
  }

  /** The message `new` wraps a failure of `new_from_template` in. */
  const NEW_FAILED: string := "failed to create new REAPER extension plugin project: "

  /** `new_from_template` of `src/command/new.rs`: the key is the package name made to start with `reaper_`. */
  method NewFromTemplate(fsys: FileSystem, dest: Path, packageName: string, template: Result<Entries, string>, sameDevice: bool,
                         parseDoc: string -> Result<CargoDoc, string>, renderDoc: CargoDoc -> string,
                         gitInit: Result<Entries, string>) returns (r: Result<(), string>)
    modifies fsys
    ensures var out := ScaffoldOutcome(old(fsys.entries), dest, packageName, ReaperToml(PluginKey(packageName)),
                                       template, sameDevice, parseDoc, renderDoc, gitInit);
      && fsys.entries == out.fs && (r.Err? <==> out.failed.Some?)
      && (out.failed == Some(InitGit) ==> r == Err(GitInitFailure(gitInit.error)))
  {
    var pluginKey := PluginKey(packageName);
    r := Scaffold(fsys, dest, packageName, ReaperToml(pluginKey), template, sameDevice, parseDoc, renderDoc, gitInit);
  }

  /** `new_from_template` of `src/main.rs`: the key is the bare package name. */
  method LegacyNewFromTemplate(fsys: FileSystem, dest: Path, packageName: string, template: Result<Entries, string>, sameDevice: bool,
                               parseDoc: string -> Result<CargoDoc, string>, renderDoc: CargoDoc -> string,
                               gitInit: Result<Entries, string>) returns (r: Result<(), string>)
    modifies fsys
    ensures var out := ScaffoldOutcome(old(fsys.entries), dest, packageName, LegacyReaperToml(packageName),
                                       template, sameDevice, parseDoc, renderDoc, gitInit);
      && fsys.entries == out.fs && (r.Err? <==> out.failed.Some?)
      && (out.failed == Some(InitGit) ==> r == Err(GitInitFailure(gitInit.error)))
  {
    r := Scaffold(fsys, dest, packageName, LegacyReaperToml(packageName), template, sameDevice, parseDoc, renderDoc, gitInit);
  }

  /** `path.exists()` for the argument `path`, relative to `cwd`; the empty path never exists. */
  predicate PathExists(fs: Entries, cwd: Path, path: seq<string>) {
    |path| > 0 && Exists(fs, cwd + path)
  }

  /** The package name: the argument's last component. */
  function PackageName(path: seq<string>): (r: Result<string, string>)
    ensures r.Ok? <==> |path| > 0
    ensures r.Ok? ==> r.value == path[|path| - 1]
  {
    if |path| == 0 then Err("failed to produce package name from directory") else Ok(path[|path| - 1])
  }

  /** The progress line `new` prints, without terminal colours. */
  function CreatingLine(packageName: string): string {
    "    Creating dynamically linked library (cdylib) `" + packageName + "` REAPER extension plugin package\n"
  }

  /**
   * `new <path>` run in `cwd`: an existing path and an empty one are refused
   * before anything is written or printed; otherwise the progress line is
   * printed and the project is scaffolded at `cwd + path`, a failure being
   * reported under `new`'s own message.
   */
  method NewCommand(fsys: FileSystem, cwd: Path, path: seq<string>, template: Result<Entries, string>, sameDevice: bool,
                    parseDoc: string -> Result<CargoDoc, string>, renderDoc: CargoDoc -> string,
                    gitInit: Result<Entries, string>) returns (r: Result<(), Failure>, stdout: Option<string>)
    modifies fsys
    ensures PathExists(old(fsys.entries), cwd, path) ==>
      r == Err(Error("project path already exists")) && stdout.None? && fsys.entries == old(fsys.entries)
    ensures path == [] ==>
      r == Err(Error("failed to produce package name from directory")) && stdout.None? && fsys.entries == old(fsys.entries)
    ensures !PathExists(old(fsys.entries), cwd, path) && path != [] ==>
      var name := path[|path| - 1];
      var out := ScaffoldOutcome(old(fsys.entries), cwd + path, name, ReaperToml(PluginKey(name)),
                                 template, sameDevice, parseDoc, renderDoc, gitInit);
      && stdout == Some(CreatingLine(name)) && fsys.entries == out.fs
      && (r.Ok? <==> out.failed.None?)
      && (r.Err? ==> r.error.Error? && StartsWith(r.error.message, NEW_FAILED))
  {
    if PathExists(fsys.entries, cwd, path) {
      return Err(Error("project path already exists")), None;
    }
    var packageName := PackageName(path);
    if packageName.Err? {
      return Err(Error(packageName.error)), None;
    }
    stdout := Some(CreatingLine(packageName.value));
    var made := NewFromTemplate(fsys, cwd + path, packageName.value, template, sameDevice, parseDoc, renderDoc, gitInit);
    if made.Err? {
      StartsWithAppend(NEW_FAILED, made.error);
      return Err(Error(NEW_FAILED + made.error)), stdout;
    }
    return Ok(()), stdout;
  }
}
