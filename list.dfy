/**
 * `list` (`src/command/list.rs`): validates every configured plugin's
 * manifest, records an "is not a package" diagnostic for each manifest
 * without a `[package]`, emits the recorded diagnostics (exiting with code 1
 * when there are any) and otherwise prints the plugins' `PluginManifest`
 * lines in ascending order.
 */
module List {
  import opened Wrappers
  import opened Fs
  import opened Diagnostics
  import Text
  import Util
  import Config
  import Project

  // ---------------------------------------------------------------- one plugin

  /** A manifest `list` read and `validate_plugin` accepted: what its checks found and its package. */
  datatype Inspected = Inspected(key: string, file: string, content: string, input: Util.ValidationInput,
                                 checks: seq<Util.Check>, package: Option<Util.Package>)

  /**
   * Reading a plugin's manifest and running `validate_plugin` on it: a read
   * error and an error or panic of `validate_plugin` end the command.
   */
  function Inspect(fs: Entries, config: Config.ReaperPluginConfig, entry: Config.PluginEntry,
                   parseManifest: string -> Result<Util.Manifest, string>)
    : (r: Result<Inspected, Failure>)
    ensures r.Ok? ==>
      && r.value.key == entry.key.value && r.value.file == Display(Config.ManifestFile(entry))
      && ReadToString(fs, Config.ManifestFile(entry)) == Ok(r.value.content)
      && r.value.input == Config.ValidationInputFor(config, entry, r.value.content)
      && Util.ValidationResult(r.value.input, parseManifest(r.value.content)).Ok?
      && r.value.checks == Util.FailedChecks(entry.key.value, parseManifest(r.value.content))
      && r.value.package == parseManifest(r.value.content).value.package
    ensures ReadToString(fs, Config.ManifestFile(entry)).Err? ==>
      r == Err(Error(Util.ManifestReadFailure(Display(Config.ManifestFile(entry)), entry.key.value,
                                              ReadToString(fs, Config.ManifestFile(entry)).error.message)))
    ensures ReadToString(fs, Config.ManifestFile(entry)).Ok? ==>
      var content := ReadToString(fs, Config.ManifestFile(entry)).value;
      var result := Util.ValidationResult(Config.ValidationInputFor(config, entry, content), parseManifest(content));
      result.Err? ==> r == Err(result.error)
  {
    var file := Config.ManifestFile(entry);
    match ReadToString(fs, file)
    case Err(e) => Err(Error(Util.ManifestReadFailure(Display(file), entry.key.value, e.message)))
    case Ok(content) =>
      var v := Config.ValidationInputFor(config, entry, content);
      var parsed := parseManifest(content);
      match Util.ValidationResult(v, parsed)
      case Err(e) => Err(e)
      case Ok(manifest) =>
        Ok(Inspected(entry.key.value, Display(file), content, v, Util.FailedChecks(entry.key.value, parsed),
                     manifest.value.package))
  }

  /** The line `list` prints for a plugin whose manifest has a package. */
  function EntryLine(key: string, pkg: Util.Package): string {
    Util.Display(Util.PluginManifest(key, pkg.version, pkg.authors, pkg.description))
  }

  /** The line an inspected manifest contributes: its `PluginManifest` line when it has a package. */
  function ItemLines(item: Inspected): seq<string> {
    if item.package.Some? then [EntryLine(item.key, item.package.value)] else []
  }

  /**
   * The diagnostics recorded for an inspected manifest when the database
   * held `firstId` files: one per failed check, then "is not a package"
   * when it has no package.
   */
  function ItemErrors(item: Inspected, firstId: nat): seq<Diagnostic> {
    var recorded := Util.CheckDiagnostics(item.checks, firstId, item.input);
    if item.package.Some? then recorded
    else recorded + [Util.NotPackageDiagnostic(firstId + 2 * |item.checks|, item.file, item.content, item.key)]
  }

  /** The files an item's diagnostics add to the database. */
  function ItemFiles(item: Inspected): nat {
    2 * |item.checks| + (if item.package.Some? then 0 else 2)
  }

  /** A manifest that passes every check of `validate_plugin` and has a package. */
  predicate ItemClean(item: Inspected) {
    item.checks == [] && item.package.Some?
  }

  /**
   * An item records no diagnostic exactly when it is clean, and each of its
   * diagnostics takes two files of the database.
   */
  lemma ItemErrorsEmpty(item: Inspected, firstId: nat)
    ensures ItemErrors(item, firstId) == [] <==> ItemClean(item)
    ensures ItemFiles(item) == 2 * |ItemErrors(item, firstId)|
  {
  }

  // ---------------------------------------------------------------- the loop as functions

  /** Inspecting every plugin in order; the first failure ends the loop with its error. */
  function InspectAll(fs: Entries, config: Config.ReaperPluginConfig, plugins: seq<Config.PluginEntry>,
                      parseManifest: string -> Result<Util.Manifest, string>)
    : (r: Result<seq<Inspected>, Failure>)
    ensures r.Ok? ==> |r.value| == |plugins|
    decreases |plugins|
  {
    if |plugins| == 0 then Ok([])
    else
      match Inspect(fs, config, plugins[0], parseManifest)
      case Err(e) => Err(e)
      case Ok(item) =>
        match InspectAll(fs, config, plugins[1..], parseManifest)
        case Err(e) => Err(e)
        case Ok(items) => Ok([item] + items)
  }

  /** What the loop gathers from some inspected manifests: the lines, the diagnostics and the files they add. */
  datatype Listing = Listing(lines: seq<string>, errors: seq<Diagnostic>, files: nat)

  /** What one inspected manifest adds when the database holds `firstId` files. */
  function ItemListing(item: Inspected, firstId: nat): Listing {
    Listing(ItemLines(item), ItemErrors(item, firstId), ItemFiles(item))
  }

  /** One gathering followed by another. */
  function Then(a: Listing, b: Listing): Listing {
    Listing(a.lines + b.lines, a.errors + b.errors, a.files + b.files)
  }

  /** Gathering `items` in order, each numbered after the files of those before it. */
  function GatherBy<T>(items: seq<T>, firstId: nat, one: (T, nat) -> Listing): Listing
    decreases |items|
  {
    if |items| == 0 then Listing([], [], 0)
    else
      var head := one(items[0], firstId);
      Then(head, GatherBy(items[1..], firstId + head.files, one))
  }

  /** The gathering of inspected manifests, the first one's files numbered from `firstId`. */
  function Gather(items: seq<Inspected>, firstId: nat): Listing {
    GatherBy(items, firstId, ItemListing)
  }

  /** The loop over the config's plugins, its files numbered from `firstId`. */
  function ListAll(fs: Entries, config: Config.ReaperPluginConfig, plugins: seq<Config.PluginEntry>,
                   parseManifest: string -> Result<Util.Manifest, string>, firstId: nat)
    : (r: Result<Listing, Failure>)
    ensures r.Ok? <==> InspectAll(fs, config, plugins, parseManifest).Ok?
    ensures r.Err? ==> r.error == InspectAll(fs, config, plugins, parseManifest).error
    ensures r.Ok? ==> var items := InspectAll(fs, config, plugins, parseManifest).value;
      && r.value.lines == PackageLines(items)
      && (r.value.errors == [] <==> forall j :: 0 <= j < |items| ==> ItemClean(items[j]))
      && r.value.files == 2 * |r.value.errors|
  {
    match InspectAll(fs, config, plugins, parseManifest)
    case Err(e) => Err(e)
    case Ok(items) =>
      GatherLines(items, firstId);
      GatherErrors(items, firstId);
      Ok(Gather(items, firstId))
  }

  // ---------------------------------------------------------------- properties of the loop

  /** The loop succeeds exactly when every plugin's manifest is read and accepted by `validate_plugin`. */
  lemma {:induction false} InspectAllOkIffAll(fs: Entries, config: Config.ReaperPluginConfig, plugins: seq<Config.PluginEntry>,
                                              parseManifest: string -> Result<Util.Manifest, string>)
    ensures InspectAll(fs, config, plugins, parseManifest).Ok?
            <==> forall j :: 0 <= j < |plugins| ==> Inspect(fs, config, plugins[j], parseManifest).Ok?
    decreases |plugins|
  {
    if |plugins| > 0 {
      InspectAllOkIffAll(fs, config, plugins[1..], parseManifest);
      assert forall j :: 1 <= j < |plugins| ==> plugins[j] == plugins[1..][j - 1];
    }
  }

  /** A failing loop reports the error of the first plugin whose manifest is unreadable or rejected. */
  lemma {:induction false} InspectAllErrIsFirst(fs: Entries, config: Config.ReaperPluginConfig, plugins: seq<Config.PluginEntry>,
                                                parseManifest: string -> Result<Util.Manifest, string>, k: nat)
    requires k < |plugins| && Inspect(fs, config, plugins[k], parseManifest).Err?
    requires forall j :: 0 <= j < k ==> Inspect(fs, config, plugins[j], parseManifest).Ok?
    ensures InspectAll(fs, config, plugins, parseManifest) == Err(Inspect(fs, config, plugins[k], parseManifest).error)
    decreases k
  {
    if k > 0 {
      assert forall j :: 0 <= j < k - 1 ==> plugins[1..][j] == plugins[j + 1];
      InspectAllErrIsFirst(fs, config, plugins[1..], parseManifest, k - 1);
    }
  }

  /** A successful loop holds, in order, every plugin's own inspection. */
  lemma {:induction false} InspectAllElements(fs: Entries, config: Config.ReaperPluginConfig, plugins: seq<Config.PluginEntry>,
                                              parseManifest: string -> Result<Util.Manifest, string>)
    requires InspectAll(fs, config, plugins, parseManifest).Ok?
    ensures forall j :: 0 <= j < |plugins| ==>
      Inspect(fs, config, plugins[j], parseManifest) == Ok(InspectAll(fs, config, plugins, parseManifest).value[j])
    decreases |plugins|
  {
    if |plugins| > 0 {
      InspectAllElements(fs, config, plugins[1..], parseManifest);
    }
  }

  /**
   * The gathering records no diagnostic exactly when every manifest is
   * clean, and each diagnostic takes two files of the database.
   */
  lemma {:induction false} GatherErrors(items: seq<Inspected>, firstId: nat)
    ensures var l := Gather(items, firstId);
      && (l.errors == [] <==> forall j :: 0 <= j < |items| ==> ItemClean(items[j]))
      && l.files == 2 * |l.errors|
    decreases |items|
  {
    if |items| > 0 {
      assert Gather(items, firstId) == Then(ItemListing(items[0], firstId), Gather(items[1..], firstId + ItemFiles(items[0])));
      GatherErrors(items[1..], firstId + ItemFiles(items[0]));
      ItemErrorsEmpty(items[0], firstId);
      assert forall j :: 1 <= j < |items| ==> items[j] == items[1..][j - 1];
    }
  }

  /** The gathered lines are the package lines: one per manifest with a package, in config order. */
  lemma {:induction false} GatherLines(items: seq<Inspected>, firstId: nat)
    ensures Gather(items, firstId).lines == PackageLines(items)
    decreases |items|
  {
    if |items| > 0 {
      assert Gather(items, firstId) == Then(ItemListing(items[0], firstId), Gather(items[1..], firstId + ItemFiles(items[0])));
      GatherLines(items[1..], firstId + ItemFiles(items[0]));
    }
  }

  /** When every manifest has a package there is one line per manifest. */
  lemma {:induction false} PackageLinesAll(items: seq<Inspected>)
    requires forall j :: 0 <= j < |items| ==> items[j].package.Some?
    ensures |PackageLines(items)| == |items|
    decreases |items|
  {
    if |items| > 0 {
      assert forall j :: 0 <= j < |items| - 1 ==> items[1..][j] == items[j + 1];
      PackageLinesAll(items[1..]);
    }
  }

  /** The reference list of lines: the `PluginManifest` line of each manifest with a package, in order. */
  function PackageLines(items: seq<Inspected>): seq<string>
    decreases |items|
  {
    if |items| == 0 then []
    else if items[0].package.None? then PackageLines(items[1..])
    else [EntryLine(items[0].key, items[0].package.value)] + PackageLines(items[1..])
  }

  lemma ThenAssoc(a: Listing, b: Listing, c: Listing)
    ensures Then(a, Then(b, c)) == Then(Then(a, b), c)
  {
    Text.ConcatAssoc(a.lines, b.lines, c.lines);
    Text.ConcatAssoc(a.errors, b.errors, c.errors);
  }

  /** Gathering one more item after `items` appends what it adds, numbered after their files. */
  lemma {:induction false} GatherBySnoc<T>(items: seq<T>, x: T, firstId: nat, one: (T, nat) -> Listing)
    ensures var l := GatherBy(items, firstId, one);
      GatherBy(items + [x], firstId, one) == Then(l, one(x, firstId + l.files))
    decreases |items|
  {
    if |items| == 0 {
      assert [] + [x] == [x];
      assert Then(one(x, firstId), Listing([], [], 0)) == one(x, firstId) by {
        assert one(x, firstId).lines + [] == one(x, firstId).lines;
        assert one(x, firstId).errors + [] == one(x, firstId).errors;
      }
      assert Then(Listing([], [], 0), one(x, firstId)) == one(x, firstId) by {
        assert [] + one(x, firstId).lines == one(x, firstId).lines;
        assert [] + one(x, firstId).errors == one(x, firstId).errors;
      }
    } else {
      var head := one(items[0], firstId);
      assert (items + [x])[1..] == items[1..] + [x];
      GatherBySnoc(items[1..], x, firstId + head.files, one);
      var rest := GatherBy(items[1..], firstId + head.files, one);
      ThenAssoc(head, rest, one(x, firstId + head.files + rest.files));
    }
  }

  /** Gathering one more manifest after `items` appends its lines and its diagnostics, numbered after theirs. */
  lemma GatherSnoc(items: seq<Inspected>, item: Inspected, firstId: nat)
    ensures Gather(items + [item], firstId) == Then(Gather(items, firstId), ItemListing(item, firstId + Gather(items, firstId).files))
  {
    GatherBySnoc(items, item, firstId, ItemListing);
  }

  // ---------------------------------------------------------------- the loop as a method

  /** Reading one plugin's manifest and running `validate_plugin` on it, which records the failed checks. */
  method InspectPlugin(emitter: TomlErrorEmitter, fs: Entries, config: Config.ReaperPluginConfig, entry: Config.PluginEntry,
                       parseManifest: string -> Result<Util.Manifest, string>)
    returns (r: Result<Inspected, Failure>)
    requires emitter.Valid()
    modifies emitter
    ensures emitter.Valid()
    ensures r == Inspect(fs, config, entry, parseManifest)
    ensures r.Ok? ==>
      && emitter.errors == old(emitter.errors) + Util.CheckDiagnostics(r.value.checks, |old(emitter.db)|, r.value.input)
      && |emitter.db| == |old(emitter.db)| + 2 * |r.value.checks|
  {
    var manifestFile := Config.ManifestFile(entry);
    var read := ReadToString(fs, manifestFile);
    if read.Err? {
      return Err(Error(Util.ManifestReadFailure(Display(manifestFile), entry.key.value, read.error.message)));
    }
    var content := read.value;
    var v := Config.ValidationInputFor(config, entry, content);
    var parsed := parseManifest(content);
    var manifest := Util.ValidatePlugin(emitter, v, parsed);
    if manifest.Err? {
      return Err(manifest.error);
    }
    return Ok(Inspected(entry.key.value, Display(manifestFile), content, v, Util.FailedChecks(entry.key.value, parsed),
                        manifest.value.value.package));
  }

  /**
   * The loop body for one plugin: read the manifest, run `validate_plugin`,
   * then add the plugin's line or record its "is not a package" diagnostic,
   * whose label spans the whole manifest.
   */
  method ListPlugin(emitter: TomlErrorEmitter, fs: Entries, config: Config.ReaperPluginConfig, entry: Config.PluginEntry,
                    parseManifest: string -> Result<Util.Manifest, string>)
    returns (r: Result<seq<string>, Failure>)
    requires emitter.Valid()
    modifies emitter
    ensures emitter.Valid()
    ensures var one := Inspect(fs, config, entry, parseManifest);
      && (one.Err? ==> r == Err(one.error))
      && (one.Ok? ==>
            && r == Ok(ItemLines(one.value))
            && emitter.errors == old(emitter.errors) + ItemErrors(one.value, |old(emitter.db)|)
            && |emitter.db| == |old(emitter.db)| + ItemFiles(one.value))
  {
    var inspected := InspectPlugin(emitter, fs, config, entry, parseManifest);
    if inspected.Err? {
      return Err(inspected.error);
    }
    var item := inspected.value;
    if item.package.Some? {
      return Ok([EntryLine(item.key, item.package.value)]);
    }
    ghost var recorded := Util.CheckDiagnostics(item.checks, |old(emitter.db)|, item.input);
    emitter.InsertErr(item.file, item.content, Util.NotPackageMessage(item.key), Span(0, |item.content|),
                      Some(Util.NOT_PACKAGE_NOTE), None, Some(Util.NOT_PACKAGE_HELP));
    Text.ConcatAssoc(old(emitter.errors), recorded,
                     [Util.NotPackageDiagnostic(|old(emitter.db)| + 2 * |item.checks|, item.file, item.content, item.key)]);
    return Ok([]);
  }

  /** The diagnostics recorded so far, extended by one manifest's. */
  lemma RecordedStep(errors0: seq<Diagnostic>, done: seq<Inspected>, item: Inspected, firstId: nat, nextId: nat,
                     errors: seq<Diagnostic>)
    requires nextId == firstId + Gather(done, firstId).files
    requires errors == (errors0 + Gather(done, firstId).errors) + ItemErrors(item, nextId)
    ensures errors == errors0 + Gather(done + [item], firstId).errors
    ensures nextId + ItemFiles(item) == firstId + Gather(done + [item], firstId).files
  {
    GatherSnoc(done, item, firstId);
    Text.ConcatAssoc(errors0, Gather(done, firstId).errors, ItemErrors(item, nextId));
  }

  /** The loop of `list` over `plugins`, from an emitter holding `|emitter.db|` files. */
  method ListLoop(emitter: TomlErrorEmitter, fs: Entries, config: Config.ReaperPluginConfig, plugins: seq<Config.PluginEntry>,
                  parseManifest: string -> Result<Util.Manifest, string>)
    returns (r: Result<seq<string>, Failure>)
    requires emitter.Valid()
    modifies emitter
    ensures emitter.Valid()
    ensures var l := ListAll(fs, config, plugins, parseManifest, |old(emitter.db)|);
      && (l.Err? ==> r == Err(l.error))
      && (l.Ok? ==> r == Ok(l.value.lines) && emitter.errors == old(emitter.errors) + l.value.errors)
  {
    ghost var db0, errors0 := emitter.db, emitter.errors;
    ghost var done: seq<Inspected> := [];
    var lines: seq<string> := [];
    var rest := plugins;
    AfterNothing(InspectAll(fs, config, plugins, parseManifest));
    while rest != []
      invariant emitter.Valid()
      invariant After(done, InspectAll(fs, config, rest, parseManifest)) == InspectAll(fs, config, plugins, parseManifest)
      invariant lines == Gather(done, |db0|).lines
      invariant emitter.errors == errors0 + Gather(done, |db0|).errors
      invariant |emitter.db| == |db0| + Gather(done, |db0|).files
      decreases |rest|
    {
      ghost var nextId := |emitter.db|;
      var here := ListPlugin(emitter, fs, config, rest[0], parseManifest);
      if here.Err? {
        return Err(here.error);
      }
      ghost var item := Inspect(fs, config, rest[0], parseManifest).value;
      GatherSnoc(done, item, |db0|);
      RecordedStep(errors0, done, item, |db0|, nextId, emitter.errors);
      AfterSnoc(done, item, InspectAll(fs, config, rest[1..], parseManifest));
      lines := lines + here.value;
      done := done + [item];
      rest := rest[1..];
    }
    assert done + [] == done;
    return Ok(lines);
  }

  // ---------------------------------------------------------------- the command

  const HEADER: string := "\nAvailable Plugins:\n\n"
  const SEPARATOR: string := "\n\n--\n\n"

  /** What `println!` writes for the sorted lines, without terminal colours. */
  function Printed(sorted: seq<string>): (out: string)
    ensures Text.StartsWith(out, HEADER) && Text.EndsWith(out, "\n")
  {
    Text.StartsWithAppend(HEADER, Text.Join(sorted, SEPARATOR) + "\n");
    Text.EndsWithAppend(HEADER + Text.Join(sorted, SEPARATOR), "\n");
    HEADER + (Text.Join(sorted, SEPARATOR) + "\n")
  }

  /** Every one of `parts` appears in what `list` prints for them. */
  lemma PrintedHasEveryPart(parts: seq<string>, i: nat)
    requires i < |parts|
    ensures Text.Contains(Printed(parts), parts[i])
  {
    Text.JoinContainsParts(parts, SEPARATOR, i);
    var joined := Text.Join(parts, SEPARATOR);
    var at: nat :| at <= |joined| && Text.OccursAt(joined, parts[i], at);
    Text.OccursBeforeSuffix(joined, "\n", parts[i], at);
    Text.OccursAfterPrefix(HEADER, joined + "\n", parts[i], at);
  }

  /** Every line the loop gathered appears in what `list` prints after sorting them. */
  lemma PrintedHasEveryLine(lines: seq<string>, k: nat)
    requires k < |lines|
    ensures Text.Contains(Printed(Text.SortStrings(lines)), lines[k])
  {
    var sorted := Text.SortStrings(lines);
    assert lines[k] in multiset(sorted) by { assert lines[k] in multiset(lines); }
    var i :| 0 <= i < |sorted| && sorted[i] == lines[k];
    PrintedHasEveryPart(sorted, i);
  }

  /** How `list` ends: its `Result`, or the `process::exit(1)` of `emit`. */
  datatype ListResult = Done(result: Result<(), Failure>) | ExitWith(code: int)

  /**
   * How `list` ends once the loop is over: a failure in the loop ends it
   * with that error; any recorded diagnostic is written, newest first, and
   * exits with code 1 before anything is printed; otherwise the lines are
   * printed sorted.
   */
  function ListOutcome(l: Result<Listing, Failure>): (ListResult, seq<Diagnostic>, Option<string>) {
    if l.Err? then (Done(Err(l.error)), [], None)
    else if l.value.errors != [] then (ExitWith(1), Text.Reverse(l.value.errors), None)
    else (Done(Ok(())), [], Some(Printed(Text.SortStrings(l.value.lines))))
  }

  /** `list` once the config is loaded. */
  method ListPlugins(fs: Entries, config: Config.ReaperPluginConfig,
                     parseManifest: string -> Result<Util.Manifest, string>)
    returns (r: ListResult, stderr: seq<Diagnostic>, stdout: Option<string>)
    ensures (r, stderr, stdout) == ListOutcome(ListAll(fs, config, config.extensionPlugins, parseManifest, 0))
  {
    var emitter := new TomlErrorEmitter();
    var lines := ListLoop(emitter, fs, config, config.extensionPlugins, parseManifest);
    if lines.Err? {
      return Done(Err(lines.error)), [], None;
    }
    ghost var errors := ListAll(fs, config, config.extensionPlugins, parseManifest, 0).value.errors;
    assert emitter.errors == errors by { assert [] + errors == errors; }
    var emitted := emitter.Emit(None);
    if emitted.Exited? {
      Text.ReverseUnique(emitted.rendered, errors);
      return ExitWith(emitted.code), emitted.rendered, None;
    }
    var sorted := Text.SortStrings(lines.value);
    return Done(Ok(())), [], Some(Printed(sorted));
  }

  /**
   * `list` prints exactly when every plugin's manifest is read, accepted by
   * `validate_plugin`, passes its checks and has a package; it then prints
   * one line per plugin, sorted. It exits with code 1 exactly when every
   * manifest is accepted but some check fails or some package is missing.
   */
  lemma ListPrintsIffAllClean(fs: Entries, config: Config.ReaperPluginConfig, plugins: seq<Config.PluginEntry>,
                              parseManifest: string -> Result<Util.Manifest, string>)
    ensures var out := ListOutcome(ListAll(fs, config, plugins, parseManifest, 0));
      && (out.2.Some? <==> forall j :: 0 <= j < |plugins| ==>
            Inspect(fs, config, plugins[j], parseManifest).Ok? && ItemClean(Inspect(fs, config, plugins[j], parseManifest).value))
      && (out.0.ExitWith? <==> (InspectAll(fs, config, plugins, parseManifest).Ok? &&
            exists j :: 0 <= j < |plugins| && !ItemClean(InspectAll(fs, config, plugins, parseManifest).value[j])))
      && (out.2.Some? ==> exists sorted :: out.2 == Some(Printed(sorted)) && |sorted| == |plugins|
                                           && Text.SortedStrings(sorted))
  {
    InspectAllOkIffAll(fs, config, plugins, parseManifest);
    var all := InspectAll(fs, config, plugins, parseManifest);
    if all.Ok? {
      InspectAllElements(fs, config, plugins, parseManifest);
      GatherErrors(all.value, 0);
      GatherLines(all.value, 0);
      if Gather(all.value, 0).errors == [] {
        PackageLinesAll(all.value);
      }
      var lines := Gather(all.value, 0).lines;
      assert |multiset(Text.SortStrings(lines))| == |multiset(lines)|;
    }
  }

  /**
   * `list`: the project root and the config come first, and a failure there
   * ends the command before any manifest is read.
   */
  method ListCommand(fs: Entries, cwd: Result<Path, IoError>,
                     parseConfig: string -> Result<seq<Config.PluginEntry>, string>,
                     parseManifest: string -> Result<Util.Manifest, string>)
    returns (r: ListResult, stderr: seq<Diagnostic>, stdout: Option<string>)
    ensures cwd.Err? ==> r == Done(Err(Error(cwd.error.message))) && stdout.None?
    ensures stdout.Some? ==> r == Done(Ok(())) && stderr == []
  {
    var root := Project.FindProjectRoot(fs, cwd);
    if root.Err? {
      return Done(Err(Error(root.error))), [], None;
    }
    var config := Config.Load(fs, root.value, cwd.value, parseConfig);
    if config.Err? {
      return Done(Err(config.error)), [], None;
    }
    r, stderr, stdout := ListPlugins(fs, config.value, parseManifest);
  }
}
