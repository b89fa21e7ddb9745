/**
 * `clean` (`src/command/clean.rs`, and its older copy in `src/main.rs`):
 * removes the plugins' symlinks from `UserPlugins` and, when asked, runs
 * `cargo clean -p <package> ...` for the plugins' packages.
 */
module Clean {
  import opened Wrappers
  import opened Fs
  import opened Process
  import opened Diagnostics
  import Text
  import Platform
  import Util
  import Config
  import Project
  import Links

  // ---------------------------------------------------------------- selection

  function NotFoundMessage(names: seq<string>): string {
    "The following plugin(s) were not found: " + Text.Join(names, ", ")
    + "\n\nTip: run `cargo reaper list` to view the available plugins."
  }

  /** What `retain` keeps of the table: the entries whose key is among `names`, in their order. */
  function Retained(table: seq<Config.PluginEntry>, names: seq<string>): (r: seq<Config.PluginEntry>)
    ensures |r| <= |table|
    ensures forall e :: e in r <==> e in table && e.key.value in names
    decreases |table|
  {
    if |table| == 0 then []
    else
      var rest := Retained(table[..|table| - 1], names);
      var last := table[|table| - 1];
      assert table == table[..|table| - 1] + [last];
      if last.key.value in names then rest + [last] else rest
  }

  /** Keeping a subset of a map keeps its keys distinct. */
  lemma {:induction false} RetainedDistinct(table: seq<Config.PluginEntry>, names: seq<string>)
    requires Config.DistinctKeys(table)
    ensures Config.DistinctKeys(Retained(table, names))
    decreases |table|
  {
    if |table| > 0 {
      var prefix := table[..|table| - 1];
      assert Config.DistinctKeys(prefix) by {
        forall i, j | 0 <= i < j < |prefix| ensures prefix[i].key.value != prefix[j].key.value {
          assert prefix[i] == table[i] && prefix[j] == table[j];
        }
      }
      RetainedDistinct(prefix, names);
      var rest := Retained(prefix, names);
      var last := table[|table| - 1];
      forall e | e in rest ensures e.key.value != last.key.value {
        var k :| 0 <= k < |prefix| && prefix[k] == e;
        assert table[k] == e;
      }
    }
  }

  /**
   * The plugins `clean` works on: all of them without a filter; with one,
   * those `retain` keeps, and an error naming every requested plugin when it
   * keeps none.
   */
  method SelectPlugins(table: seq<Config.PluginEntry>, names: seq<string>) returns (r: Result<seq<Config.PluginEntry>, string>)
    ensures names == [] ==> r == Ok(table)
    ensures names != [] && Retained(table, names) == [] ==> r == Err(NotFoundMessage(names))
    ensures names != [] && Retained(table, names) != [] ==> r == Ok(Retained(table, names))
  {
    if names == [] {
      return Ok(table);
    }
    var kept: seq<Config.PluginEntry> := [];
    var i := 0;
    while i < |table|
      invariant 0 <= i <= |table|
      invariant kept == Retained(table[..i], names)
    {
      assert table[..i + 1][..i] == table[..i];
      if table[i].key.value in names {
        kept := kept + [table[i]];
      }
      i := i + 1;
    }
    assert table[..i] == table;
    if kept == [] {
      return Err(NotFoundMessage(names));
    }
    return Ok(kept);
  }

  // ---------------------------------------------------------------- removal

  /** The symlink of plugin `key` in `dir`. */
  function LinkOf(os: Platform.Os, dir: Path, key: string): Path {
    dir + [Platform.AddPluginExt(os, key)]
  }

  /** How many removals fail: the plugins without a symlink in `dir`. */
  function Missing(fs: Entries, os: Platform.Os, dir: Path, plugins: seq<Config.PluginEntry>): (n: nat)
    ensures n <= |plugins|
    decreases |plugins|
  {
    if |plugins| == 0 then 0
    else
      var last := plugins[|plugins| - 1];
      Missing(fs, os, dir, plugins[..|plugins| - 1]) + (if IsSymlink(fs, LinkOf(os, dir, last.key.value)) then 0 else 1)
  }

  /** The symlinks of `plugins` that exist in `dir`. */
  function Present(fs: Entries, os: Platform.Os, dir: Path, plugins: seq<Config.PluginEntry>): (r: set<Path>)
    ensures forall p :: p in r ==> IsSymlink(fs, p)
    ensures forall p :: p in r ==> exists j :: 0 <= j < |plugins| && p == LinkOf(os, dir, plugins[j].key.value)
    decreases |plugins|
  {
    if |plugins| == 0 then {}
    else
      var prefix := plugins[..|plugins| - 1];
      var last := plugins[|plugins| - 1];
      var rest := Present(fs, os, dir, prefix);
      assert forall p :: p in rest ==> exists j :: 0 <= j < |plugins| && p == LinkOf(os, dir, plugins[j].key.value) by {
        forall p | p in rest ensures exists j :: 0 <= j < |plugins| && p == LinkOf(os, dir, plugins[j].key.value) {
          var j :| 0 <= j < |prefix| && p == LinkOf(os, dir, prefix[j].key.value);
          assert plugins[j] == prefix[j];
        }
      }
      rest + (if IsSymlink(fs, LinkOf(os, dir, last.key.value)) then {LinkOf(os, dir, last.key.value)} else {})
  }

  /** Distinct keys have distinct symlinks. */
  lemma LinkOfDistinct(os: Platform.Os, dir: Path, a: string, b: string)
    requires a != b
    ensures LinkOf(os, dir, a) != LinkOf(os, dir, b)
  {
    if LinkOf(os, dir, a) == LinkOf(os, dir, b) {
      assert LinkOf(os, dir, a)[|dir|] == LinkOf(os, dir, b)[|dir|];
      Platform.AddPluginExtInjective(os, a, b);
    }
  }

  /** Removing earlier plugins' links leaves a later plugin's alone. */
  lemma LaterLinkUntouched(fs: Entries, os: Platform.Os, dir: Path, plugins: seq<Config.PluginEntry>, i: nat)
    requires Config.DistinctKeys(plugins) && i < |plugins|
    ensures LinkOf(os, dir, plugins[i].key.value) !in Present(fs, os, dir, plugins[..i])
  {
    var p := LinkOf(os, dir, plugins[i].key.value);
    forall q | q in Present(fs, os, dir, plugins[..i]) ensures q != p {
      var j :| 0 <= j < i && q == LinkOf(os, dir, plugins[..i][j].key.value);
      LinkOfDistinct(os, dir, plugins[j].key.value, plugins[i].key.value);
    }
  }

  /**
   * One step of the removal loop: plugin `i`'s link is as it was before the
   * loop, and the count of failures and the removed links grow by that link.
   */
  lemma RemovalStep(fs0: Entries, os: Platform.Os, dir: Path, plugins: seq<Config.PluginEntry>, i: nat)
    requires Config.DistinctKeys(plugins) && i < |plugins|
    ensures var link := LinkOf(os, dir, plugins[i].key.value);
      var before := fs0 - Present(fs0, os, dir, plugins[..i]);
      && IsSymlink(before, link) == IsSymlink(fs0, link)
      && Missing(fs0, os, dir, plugins[..i + 1]) == Missing(fs0, os, dir, plugins[..i]) + (if IsSymlink(fs0, link) then 0 else 1)
      && fs0 - Present(fs0, os, dir, plugins[..i + 1]) == if IsSymlink(fs0, link) then before - {link} else before
  {
    var link := LinkOf(os, dir, plugins[i].key.value);
    var done := Present(fs0, os, dir, plugins[..i]);
    LaterLinkUntouched(fs0, os, dir, plugins, i);
    assert plugins[..i + 1][..i] == plugins[..i] && plugins[..i + 1][i] == plugins[i];
    var now := Present(fs0, os, dir, plugins[..i + 1]);
    assert now == done + (if IsSymlink(fs0, link) then {link} else {});
    MinusUnion(fs0, done, link);
  }

  /** Taking away a set and then one more key is taking away both. */
  lemma MinusUnion(m: Entries, s: set<Path>, k: Path)
    ensures m - (s + {k}) == (m - s) - {k}
  {
  }

  /**
   * The removal loop: one attempt per plugin; a failed one is counted and
   * does not stop the loop. Without a `UserPlugins` directory every attempt
   * fails.
   */
  method RemoveSymlinks(fsys: FileSystem, os: Platform.Os, plugins: seq<Config.PluginEntry>, dryRun: bool, dir: Result<Path, string>)
    returns (failures: nat)
    requires Config.DistinctKeys(plugins)
    modifies fsys
    ensures failures <= |plugins|
    ensures dir.Err? ==> failures == |plugins| && fsys.entries == old(fsys.entries)
    ensures dir.Ok? ==> failures == Missing(old(fsys.entries), os, dir.value, plugins)
    ensures dir.Ok? ==> fsys.entries == if dryRun then old(fsys.entries)
                                        else old(fsys.entries) - Present(old(fsys.entries), os, dir.value, plugins)
  {
    failures := 0;
    if dir.Err? {
      return |plugins|;
    }
    ghost var fs0 := fsys.entries;
    assert fs0 - Present(fs0, os, dir.value, plugins[..0]) == fs0;
    var i := 0;
    while i < |plugins|
      invariant 0 <= i <= |plugins|
      invariant failures == Missing(fs0, os, dir.value, plugins[..i])
      invariant fsys.entries == if dryRun then fs0 else fs0 - Present(fs0, os, dir.value, plugins[..i])
    {
      var key := plugins[i].key.value;
      RemovalStep(fs0, os, dir.value, plugins, i);
      var removed := Links.RemovePluginSymlink(fsys, key, Platform.AddPluginExt(os, key), dir.value, dryRun);
      if removed.Err? {
        failures := failures + 1;
      }
      i := i + 1;
    }
    assert plugins[..i] == plugins;
  }

  // ---------------------------------------------------------------- package arguments

  /** A manifest `clean` read and parsed. */
  datatype Scanned = Scanned(key: string, file: Path, content: string, package: Option<Util.Package>)

  /** Reading and parsing one plugin's manifest. */
  function ScanOne(fs: Entries, entry: Config.PluginEntry, parseManifest: string -> Result<Util.Manifest, string>)
    : (r: Result<Scanned, string>)
    ensures r.Ok? ==>
      && r.value.key == entry.key.value && r.value.file == Config.ManifestFile(entry)
      && ReadToString(fs, r.value.file) == Ok(r.value.content)
      && parseManifest(r.value.content).Ok? && parseManifest(r.value.content).value.package == r.value.package
    ensures ReadToString(fs, Config.ManifestFile(entry)).Err? ==>
      r == Err(Util.ManifestReadFailure(Display(Config.ManifestFile(entry)), entry.key.value, ReadToString(fs, Config.ManifestFile(entry)).error.message))
  {
    var file := Config.ManifestFile(entry);
    match ReadToString(fs, file)
    case Err(e) => Err(Util.ManifestReadFailure(Display(file), entry.key.value, e.message))
    case Ok(content) =>
      match parseManifest(content)
      case Err(e) => Err(Util.ParseFailure(Display(file), e))
      case Ok(manifest) => Ok(Scanned(entry.key.value, file, content, manifest.package))
  }

  /** Reading and parsing every plugin's manifest, in order; the first failure ends the scan with its error. */
  function Scan(fs: Entries, plugins: seq<Config.PluginEntry>, parseManifest: string -> Result<Util.Manifest, string>)
    : (r: Result<seq<Scanned>, string>)
    ensures r.Ok? ==> |r.value| == |plugins|
    decreases |plugins|
  {
    if |plugins| == 0 then Ok([])
    else
      match ScanOne(fs, plugins[0], parseManifest)
      case Err(e) => Err(e)
      case Ok(item) =>
        match Scan(fs, plugins[1..], parseManifest)
        case Err(e) => Err(e)
        case Ok(scanned) => Ok([item] + scanned)
  }

  /** A scan that succeeds holds, in order, every plugin's own read and parse. */
  lemma {:induction false} ScanElements(fs: Entries, plugins: seq<Config.PluginEntry>,
                                        parseManifest: string -> Result<Util.Manifest, string>)
    requires Scan(fs, plugins, parseManifest).Ok?
    ensures forall j :: 0 <= j < |plugins| ==>
      ScanOne(fs, plugins[j], parseManifest) == Ok(Scan(fs, plugins, parseManifest).value[j])
    decreases |plugins|
  {
    if |plugins| > 0 {
      ScanElements(fs, plugins[1..], parseManifest);
    }
  }

  /** A scan succeeds exactly when every plugin's own read and parse does. */
  lemma {:induction false} ScanOkIffAll(fs: Entries, plugins: seq<Config.PluginEntry>,
                                        parseManifest: string -> Result<Util.Manifest, string>)
    ensures Scan(fs, plugins, parseManifest).Ok? <==> forall j :: 0 <= j < |plugins| ==> ScanOne(fs, plugins[j], parseManifest).Ok?
    decreases |plugins|
  {
    if |plugins| > 0 {
      ScanOkIffAll(fs, plugins[1..], parseManifest);
      assert forall j :: 1 <= j < |plugins| ==> plugins[j] == plugins[1..][j - 1];
    }
  }

  /** A scan that fails reports the error of the first plugin whose read or parse fails. */
  lemma {:induction false} ScanErrIsFirst(fs: Entries, plugins: seq<Config.PluginEntry>, k: nat,
                                          parseManifest: string -> Result<Util.Manifest, string>)
    requires k < |plugins| && ScanOne(fs, plugins[k], parseManifest).Err?
    requires forall j :: 0 <= j < k ==> ScanOne(fs, plugins[j], parseManifest).Ok?
    ensures Scan(fs, plugins, parseManifest) == Err(ScanOne(fs, plugins[k], parseManifest).error)
    decreases k
  {
    if k > 0 {
      assert forall j :: 0 <= j < k - 1 ==> plugins[1..][j] == plugins[j + 1];
      ScanErrIsFirst(fs, plugins[1..], k - 1, parseManifest);
    }
  }

  /** The manifests that have a package, in order. */
  function Packages(scanned: seq<Scanned>): (r: seq<Util.Package>)
    decreases |scanned|
  {
    if |scanned| == 0 then []
    else
      var rest := Packages(scanned[..|scanned| - 1]);
      var last := scanned[|scanned| - 1];
      if last.package.Some? then rest + [last.package.value] else rest
  }

  /** The `-p` pair of one manifest with a package; nothing for one without. */
  function ItemArgs(item: Scanned): seq<string> {
    if item.package.Some? then ["-p", item.package.value.name] else []
  }

  /** 1 for a manifest without a package. */
  function ItemNonPackage(item: Scanned): nat {
    if item.package.None? then 1 else 0
  }

  /** The "is not a package" diagnostic of one manifest without a package, its files numbered from `firstId`. */
  function ItemDiagnostics(item: Scanned, firstId: nat): seq<Diagnostic> {
    if item.package.Some? then []
    else [Util.NotPackageDiagnostic(firstId, Display(item.file), item.content, item.key)]
  }

  /** `package_args`: `"-p", name` for each manifest with a package, in order. */
  function PackageArgs(scanned: seq<Scanned>): (r: seq<string>)
    ensures |r| % 2 == 0 && |r| <= 2 * |scanned|
    decreases |scanned|
  {
    if |scanned| == 0 then []
    else PackageArgs(scanned[..|scanned| - 1]) + ItemArgs(scanned[|scanned| - 1])
  }

  /** The package arguments are exactly the `-p` pairs of the packages. */
  lemma {:induction false} PackageArgsArePairs(scanned: seq<Scanned>)
    ensures |PackageArgs(scanned)| == 2 * |Packages(scanned)|
    ensures forall k :: 0 <= k < |Packages(scanned)| ==>
      PackageArgs(scanned)[2 * k] == "-p" && PackageArgs(scanned)[2 * k + 1] == Packages(scanned)[k].name
    decreases |scanned|
  {
    if |scanned| > 0 {
      PackageArgsArePairs(scanned[..|scanned| - 1]);
    }
  }

  /** How many manifests have no package. */
  function NonPackages(scanned: seq<Scanned>): (n: nat)
    ensures n <= |scanned|
    decreases |scanned|
  {
    if |scanned| == 0 then 0
    else NonPackages(scanned[..|scanned| - 1]) + ItemNonPackage(scanned[|scanned| - 1])
  }

  /** The "is not a package" diagnostics the loop records, each taking two files of the database. */
  function NonPackageDiagnostics(scanned: seq<Scanned>, firstId: nat): (r: seq<Diagnostic>)
    ensures |r| == NonPackages(scanned)
    decreases |scanned|
  {
    if |scanned| == 0 then []
    else
      var prefix := scanned[..|scanned| - 1];
      NonPackageDiagnostics(prefix, firstId) + ItemDiagnostics(scanned[|scanned| - 1], firstId + 2 * NonPackages(prefix))
  }

  /** The functions of a scan extended by one manifest. */
  lemma ScannedSnoc(scanned: seq<Scanned>, item: Scanned, firstId: nat)
    ensures PackageArgs(scanned + [item]) == PackageArgs(scanned) + ItemArgs(item)
    ensures NonPackages(scanned + [item]) == NonPackages(scanned) + ItemNonPackage(item)
    ensures NonPackageDiagnostics(scanned + [item], firstId) == NonPackageDiagnostics(scanned, firstId)
      + ItemDiagnostics(item, firstId + 2 * NonPackages(scanned))
  {
    assert (scanned + [item])[..|scanned|] == scanned;
  }

  /**
   * The loop body for one plugin: read and parse its manifest, then add its
   * `-p` pair or record its "is not a package" diagnostic.
   */
  method ScanPlugin(emitter: TomlErrorEmitter, fs: Entries, entry: Config.PluginEntry,
                    parseManifest: string -> Result<Util.Manifest, string>)
    returns (r: Result<seq<string>, string>)
    requires emitter.Valid()
    modifies emitter
    ensures emitter.Valid()
    ensures var one := ScanOne(fs, entry, parseManifest);
      && (one.Err? ==> r == Err(one.error))
      && (one.Ok? ==>
            && r == Ok(ItemArgs(one.value))
            && emitter.errors == old(emitter.errors) + ItemDiagnostics(one.value, |old(emitter.db)|)
            && |emitter.db| == |old(emitter.db)| + 2 * ItemNonPackage(one.value))
  {
    var file := entry.dir.value + ["Cargo.toml"];
    var read := ReadToString(fs, file);
    if read.Err? {
      return Err(Util.ManifestReadFailure(Display(file), entry.key.value, read.error.message));
    }
    var content := read.value;
    var manifest := parseManifest(content);
    if manifest.Err? {
      return Err(Util.ParseFailure(Display(file), manifest.error));
    }
    if manifest.value.package.Some? {
      return Ok(["-p", manifest.value.package.value.name]);
    }
    emitter.InsertErr(Display(file), content, Util.NotPackageMessage(entry.key.value), Span(0, |content|),
                      Some(Util.NOT_PACKAGE_NOTE), None, Some(Util.NOT_PACKAGE_HELP));
    return Ok([]);
  }

  /** The manifest loop of `clean`: `-p` pairs for the packages, a diagnostic for each manifest without one. */
  method CollectPackageArgs(emitter: TomlErrorEmitter, fs: Entries, plugins: seq<Config.PluginEntry>,
                            parseManifest: string -> Result<Util.Manifest, string>)
    returns (r: Result<seq<string>, string>)
    requires emitter.Valid()
    modifies emitter
    ensures emitter.Valid()
    ensures var s := Scan(fs, plugins, parseManifest);
      && (s.Err? ==> r == Err(s.error))
      && (s.Ok? ==> r == Ok(PackageArgs(s.value))
                    && emitter.errors == old(emitter.errors) + NonPackageDiagnostics(s.value, |old(emitter.db)|))
  {
    ghost var db0, errors0 := emitter.db, emitter.errors;
    ghost var scanned: seq<Scanned> := [];
    var packageArgs: seq<string> := [];
    var rest := plugins;
    AfterNothing(Scan(fs, plugins, parseManifest));
    while rest != []
      invariant emitter.Valid()
      invariant After(scanned, Scan(fs, rest, parseManifest)) == Scan(fs, plugins, parseManifest)
      invariant packageArgs == PackageArgs(scanned)
      invariant emitter.errors == errors0 + NonPackageDiagnostics(scanned, |db0|)
      invariant |emitter.db| == |db0| + 2 * NonPackages(scanned)
      decreases |rest|
    {
      ghost var nextId := |emitter.db|;
      var args := ScanPlugin(emitter, fs, rest[0], parseManifest);
      if args.Err? {
        return Err(args.error);
      }
      ghost var item := ScanOne(fs, rest[0], parseManifest).value;
      ScannedSnoc(scanned, item, |db0|);
      RecordedStep(errors0, scanned, item, |db0|, nextId, emitter.errors);
      AfterSnoc(scanned, item, Scan(fs, rest[1..], parseManifest));
      packageArgs := packageArgs + args.value;
      scanned := scanned + [item];
      rest := rest[1..];
    }
    assert scanned + [] == scanned;
    return Ok(packageArgs);
  }

  /** The diagnostics recorded so far, extended by one manifest's. */
  lemma RecordedStep(errors0: seq<Diagnostic>, scanned: seq<Scanned>, item: Scanned, firstId: nat, nextId: nat, errors: seq<Diagnostic>)
    requires nextId == firstId + 2 * NonPackages(scanned)
    requires errors == (errors0 + NonPackageDiagnostics(scanned, firstId)) + ItemDiagnostics(item, nextId)
    ensures errors == errors0 + NonPackageDiagnostics(scanned + [item], firstId)
  {
    ScannedSnoc(scanned, item, firstId);
    Text.ConcatAssoc(errors0, NonPackageDiagnostics(scanned, firstId), ItemDiagnostics(item, firstId + 2 * NonPackages(scanned)));
  }

  // ---------------------------------------------------------------- the command

  const DRY_RUN_WARNING: string := "warning: no files deleted due to --dry-run"

  /** `cargo clean` with the package arguments, then `--dry-run` iff `dryRun`. */
  function CargoClean(packageArgs: seq<string>, dryRun: bool): (c: Cmd)
    ensures c.program == "cargo" && c.env == []
    ensures |c.args| == 1 + |packageArgs| + (if dryRun then 1 else 0)
    ensures c.args[0] == "clean" && c.args[1..1 + |packageArgs|] == packageArgs
    ensures dryRun ==> c.args[|c.args| - 1] == "--dry-run"
  {
    Cmd("cargo", ["clean"] + packageArgs + (if dryRun then ["--dry-run"] else []), [])
  }

  /** How `clean` ends: its `Result`, or the `process::exit(1)` of `emit`. */
  datatype CleanResult = Done(result: Result<(), Failure>) | ExitWith(code: int)

  /**
   * What `clean` reports: the plugins it worked on, how many symlinks the
   * summary line counts (its verb is `Summary` under `dryRun`, else
   * `Removed`), the dry-run warning and the cargo command it ran.
   */
  datatype CleanReport = CleanReport(selected: seq<Config.PluginEntry>, removed: nat, warning: Option<string>, ran: Option<Cmd>)

  /**
   * What the `remove_artifacts` branch of `clean` ends with, and the cargo
   * command it runs: a read or parse error ends it at once, manifests
   * without a package end it with exit code 1 before cargo runs, and
   * otherwise cargo runs with the package arguments; its status is not
   * looked at.
   */
  function ArtifactsOutcome(fs: Entries, plugins: seq<Config.PluginEntry>, dryRun: bool,
                            parseManifest: string -> Result<Util.Manifest, string>, cargo: Result<ExitStatus, string>)
    : (out: (CleanResult, Option<Cmd>))
    ensures out.1.Some? ==> out.0.Done?
    ensures out.0.ExitWith? ==> out.0.code == 1 && out.1.None?
  {
    var s := Scan(fs, plugins, parseManifest);
    if s.Err? then (Done(Err(Error(s.error))), None)
    else if NonPackages(s.value) > 0 then (ExitWith(1), None)
    else (Done(if cargo.Ok? then Ok(()) else Err(Error(cargo.error))), Some(CargoClean(PackageArgs(s.value), dryRun)))
  }

  /** No manifest lacks a package exactly when every manifest has one. */
  lemma {:induction false} NoNonPackagesIffAllPackages(scanned: seq<Scanned>)
    ensures NonPackages(scanned) == 0 <==> forall j :: 0 <= j < |scanned| ==> scanned[j].package.Some?
    decreases |scanned|
  {
    if |scanned| > 0 {
      var prefix := scanned[..|scanned| - 1];
      NoNonPackagesIffAllPackages(prefix);
      assert forall j :: 0 <= j < |prefix| ==> prefix[j] == scanned[j];
    }
  }

  /**
   * `clean` runs cargo exactly when every manifest reads, parses and has a
   * package, and then with one `-p` pair per plugin, in the plugins' order.
   */
  lemma CargoRunsIffAllPackages(fs: Entries, plugins: seq<Config.PluginEntry>, dryRun: bool,
                                parseManifest: string -> Result<Util.Manifest, string>, cargo: Result<ExitStatus, string>)
    ensures var ran := ArtifactsOutcome(fs, plugins, dryRun, parseManifest, cargo).1;
      ran.Some? <==> forall j :: 0 <= j < |plugins| ==>
        ScanOne(fs, plugins[j], parseManifest).Ok? && ScanOne(fs, plugins[j], parseManifest).value.package.Some?
    ensures var ran := ArtifactsOutcome(fs, plugins, dryRun, parseManifest, cargo).1;
      ran.Some? ==>
        var s := Scan(fs, plugins, parseManifest).value;
        && ran.value == CargoClean(PackageArgs(s), dryRun)
        && |PackageArgs(s)| == 2 * |plugins|
        && forall j :: 0 <= j < |plugins| ==>
             PackageArgs(s)[2 * j] == "-p"
             && PackageArgs(s)[2 * j + 1] == ScanOne(fs, plugins[j], parseManifest).value.package.value.name
  {
    ScanOkIffAll(fs, plugins, parseManifest);
    var r := Scan(fs, plugins, parseManifest);
    if r.Ok? {
      ScanElements(fs, plugins, parseManifest);
      NoNonPackagesIffAllPackages(r.value);
      if NonPackages(r.value) == 0 {
        PackagesAreAll(r.value);
        PackageArgsArePairs(r.value);
      }
    }
  }

  /** When every manifest has a package, `Packages` lists them all, in order. */
  lemma {:induction false} PackagesAreAll(scanned: seq<Scanned>)
    requires forall j :: 0 <= j < |scanned| ==> scanned[j].package.Some?
    ensures |Packages(scanned)| == |scanned|
    ensures forall j :: 0 <= j < |scanned| ==> Packages(scanned)[j] == scanned[j].package.value
    decreases |scanned|
  {
    if |scanned| > 0 {
      var prefix := scanned[..|scanned| - 1];
      assert forall j :: 0 <= j < |prefix| ==> prefix[j] == scanned[j];
      PackagesAreAll(prefix);
    }
  }

  /**
   * The `remove_artifacts` branch of `clean`, over the file system as the
   * removal loop left it. `cargo` is what running the cargo command gives.
   * The rendering of the diagnostics is `TomlErrorEmitter.Emit`'s.
   */
  method RemoveArtifacts(fs: Entries, plugins: seq<Config.PluginEntry>, dryRun: bool,
                         parseManifest: string -> Result<Util.Manifest, string>, cargo: Result<ExitStatus, string>)
    returns (r: CleanResult, ran: Option<Cmd>)
    ensures (r, ran) == ArtifactsOutcome(fs, plugins, dryRun, parseManifest, cargo)
  {
    var emitter := new TomlErrorEmitter();
    var packageArgs := CollectPackageArgs(emitter, fs, plugins, parseManifest);
    if packageArgs.Err? {
      return Done(Err(Error(packageArgs.error))), None;
    }
    var emitted := emitter.Emit(None);
    if emitted.Exited? {
      return ExitWith(emitted.code), None;
    }
    ran := Some(CargoClean(packageArgs.value, dryRun));
    if cargo.Err? {
      return Done(Err(Error(cargo.error))), ran;
    }
    return Done(Ok(())), ran;
  }

  /**
   * The first half of `clean`: selecting the plugins and removing their
   * symlinks; `removed` is the count the summary line reports.
   */
  method SelectAndRemove(fsys: FileSystem, os: Platform.Os, table: seq<Config.PluginEntry>, names: seq<string>,
                         dryRun: bool, userPluginsBase: Option<Path>)
    returns (selected: Result<seq<Config.PluginEntry>, string>, removed: nat)
    requires Config.DistinctKeys(table)
    modifies fsys
    ensures names == [] ==> selected == Ok(table)
    ensures names != [] && Retained(table, names) == [] ==>
      selected == Err(NotFoundMessage(names)) && removed == 0 && fsys.entries == old(fsys.entries)
    ensures names != [] && Retained(table, names) != [] ==> selected == Ok(Retained(table, names))
    ensures selected.Ok? ==> Config.DistinctKeys(selected.value) && removed <= |selected.value|
    ensures var dir := Links.UserPluginsDir(os, userPluginsBase);
      selected.Ok? ==>
        if dir.Ok? then
          && removed == |selected.value| - Missing(old(fsys.entries), os, dir.value, selected.value)
          && fsys.entries == if dryRun then old(fsys.entries)
                             else old(fsys.entries) - Present(old(fsys.entries), os, dir.value, selected.value)
        else removed == 0 && fsys.entries == old(fsys.entries)
  {
    selected := SelectPlugins(table, names);
    if selected.Err? {
      return selected, 0;
    }
    if names != [] {
      RetainedDistinct(table, names);
    }
    var dir := Links.UserPluginsDir(os, userPluginsBase);
    var failures := RemoveSymlinks(fsys, os, selected.value, dryRun, dir);
    removed := |selected.value| - failures;
  }

  /** A filter that keeps no plugin is an error. */
  predicate Found(table: seq<Config.PluginEntry>, names: seq<string>) {
    names == [] || Retained(table, names) != []
  }

  /** The plugins `clean` works on once the filter found some. */
  function Selection(table: seq<Config.PluginEntry>, names: seq<string>): seq<Config.PluginEntry> {
    if names == [] then table else Retained(table, names)
  }

  /**
   * `clean` once the config is loaded. `userPluginsBase` is the directory
   * `dirs` gives; `cargo` is as for `RemoveArtifacts`.
   */
  method CleanProject(fsys: FileSystem, os: Platform.Os, config: Config.ReaperPluginConfig, names: seq<string>,
                      dryRun: bool, removeArtifacts: bool, parseManifest: string -> Result<Util.Manifest, string>,
                      userPluginsBase: Option<Path>, cargo: Result<ExitStatus, string>)
    returns (r: CleanResult, report: CleanReport)
    requires Config.DistinctKeys(config.extensionPlugins)
    modifies fsys
    ensures var table := config.extensionPlugins;
      !Found(table, names) ==>
        r == Done(Err(Error(NotFoundMessage(names)))) && report.ran.None? && fsys.entries == old(fsys.entries)
    ensures var table := config.extensionPlugins;
      var dir := Links.UserPluginsDir(os, userPluginsBase);
      Found(table, names) ==>
        && report.selected == Selection(table, names)
        && report.removed <= |report.selected|
        && (dir.Ok? ==>
              && report.removed == |report.selected| - Missing(old(fsys.entries), os, dir.value, report.selected)
              && fsys.entries == if dryRun then old(fsys.entries)
                                 else old(fsys.entries) - Present(old(fsys.entries), os, dir.value, report.selected))
        && (dir.Err? ==> report.removed == 0 && fsys.entries == old(fsys.entries))
    ensures Found(config.extensionPlugins, names) && !removeArtifacts ==>
      r == Done(Ok(())) && report.ran.None? && report.warning == (if dryRun then Some(DRY_RUN_WARNING) else None)
    ensures Found(config.extensionPlugins, names) && removeArtifacts ==>
      report.warning.None? && (r, report.ran) == ArtifactsOutcome(fsys.entries, report.selected, dryRun, parseManifest, cargo)
  {
    var selected, removed := SelectAndRemove(fsys, os, config.extensionPlugins, names, dryRun, userPluginsBase);
    if selected.Err? {
      return Done(Err(Error(selected.error))), CleanReport([], 0, None, None);
    }
    if !removeArtifacts {
      var warning := if dryRun then Some(DRY_RUN_WARNING) else None;
      return Done(Ok(())), CleanReport(selected.value, removed, warning, None);
    }
    var ran;
    r, ran := RemoveArtifacts(fsys.entries, selected.value, dryRun, parseManifest, cargo);
    report := CleanReport(selected.value, removed, None, ran);
  }

  /**
   * `clean`: the project root and the config come first, and a failure
   * there ends the command before anything is removed. The config table is
   * a `HashMap`, so `parseConfig` gives tables with distinct keys.
   */
  method CleanCommand(fsys: FileSystem, os: Platform.Os, cwd: Result<Path, IoError>,
                      parseConfig: string -> Result<seq<Config.PluginEntry>, string>, names: seq<string>,
                      dryRun: bool, removeArtifacts: bool, parseManifest: string -> Result<Util.Manifest, string>,
                      userPluginsBase: Option<Path>, cargo: Result<ExitStatus, string>)
    returns (r: CleanResult, report: Option<CleanReport>)
    requires forall s :: parseConfig(s).Ok? ==> Config.DistinctKeys(parseConfig(s).value)
    modifies fsys
    ensures report.None? ==> r.Done? && r.result.Err? && fsys.entries == old(fsys.entries)
    ensures cwd.Err? ==> r == Done(Err(Error(cwd.error.message))) && report.None?
    ensures report.Some? && report.value.ran.Some? ==> removeArtifacts && r.Done?
    ensures report.Some? && !removeArtifacts ==> r == Done(Ok(())) || (r.Done? && r.result == Err(Error(NotFoundMessage(names))))
  {
    var root := Project.FindProjectRoot(fsys.entries, cwd);
    if root.Err? {
      return Done(Err(Error(root.error))), None;
    }
    var config := Config.Load(fsys.entries, root.value, cwd.value, parseConfig);
    if config.Err? {
      return Done(Err(config.error)), None;
    }
    var rep;
    r, rep := CleanProject(fsys, os, config.value, names, dryRun, removeArtifacts, parseManifest, userPluginsBase, cargo);
    report := Some(rep);
  }
}
