/**
 * `src/util.rs`: the abstract Cargo manifest, the `PluginManifest` summary
 * that `list` prints (its `Display` and its derived order) and
 * `validate_plugin`, which records diagnostics for a plugin whose config key
 * or manifest is unusable.
 */
module Util {
  import opened Wrappers
  import opened Text
  import opened Diagnostics

  /** The part of `cargo_toml::Package` the commands read. */
  datatype Package = Package(name: string, version: string, authors: seq<string>, description: Option<string>)

  /** The part of `cargo_toml::Product` (the `[lib]` table) the commands read. */
  datatype Lib = Lib(name: Option<string>, crateType: seq<string>)

  /** A parsed `Cargo.toml`. */
  datatype Manifest = Manifest(package: Option<Package>, lib: Option<Lib>)

  // ---------------------------------------------------------------- PluginManifest

  /** `PluginManifest`: field order is the order of the derived `Ord`. */
  datatype PluginManifest = PluginManifest(name: string, version: string, authors: seq<string>, description: Option<string>)

  /** `Display for PluginManifest`, without terminal colours. */
  function Display(m: PluginManifest): (r: string)
    ensures StartsWith(r, m.name + " v" + m.version)
    ensures m.description.Some? ==> StartsWith(r, m.name + " v" + m.version + " -- " + m.description.value)
    ensures m.authors != [] ==> EndsWith(r, "\n\nAuthored by: " + Join(m.authors, ", "))
    ensures m.description.None? && m.authors == [] ==> r == m.name + " v" + m.version
    ensures |r| == |m.name| + 2 + |m.version| + (if m.description.Some? then 4 + |m.description.value| else 0)
                   + (if m.authors != [] then 15 + |Join(m.authors, ", ")| else 0)
  {
    var head := m.name + " v" + m.version;
    var withDesc := if m.description.Some? then head + " -- " + m.description.value else head;
    StartsWithAppend(head, " -- " + m.description.GetOr(""));
    assert m.description.Some? ==> withDesc == head + (" -- " + m.description.value);
    if m.authors != [] then
      var tail := "\n\nAuthored by: " + Join(m.authors, ", ");
      StartsWithAppend(withDesc, tail);
      StartsWithTransitive(withDesc + tail, withDesc, head);
      EndsWithAppend(withDesc, tail);
      withDesc + tail
    else
      withDesc
  }

  predicate StrLt(a: string, b: string) {
    StrLe(a, b) && a != b
  }

  /** The derived order of `Vec<String>`: lexicographic on elements. */
  predicate SeqLe(a: seq<string>, b: seq<string>)
    decreases |a|
  {
    if |a| == 0 then true
    else if |b| == 0 then false
    else if a[0] != b[0] then StrLt(a[0], b[0])
    else SeqLe(a[1..], b[1..])
  }

  /** The derived order of `Option<String>`: `None` first. */
  predicate OptLe(a: Option<string>, b: Option<string>) {
    match (a, b)
    case (None, _) => true
    case (Some(_), None) => false
    case (Some(x), Some(y)) => StrLe(x, y)
  }

  /** The derived `Ord` of `PluginManifest`: lexicographic on (name, version, authors, description). */
  predicate ManifestLe(a: PluginManifest, b: PluginManifest) {
    if a.name != b.name then StrLt(a.name, b.name)
    else if a.version != b.version then StrLt(a.version, b.version)
    else if a.authors != b.authors then SeqLe(a.authors, b.authors)
    else OptLe(a.description, b.description)
  }

  lemma StrLtTransitive(a: string, b: string, c: string)
    requires StrLt(a, b) && StrLt(b, c)
    ensures StrLt(a, c)
  {
    StrLeTransitive(a, b, c);
    if a == c { StrLeAntisymmetric(a, b); }
  }

  lemma StrLtTotal(a: string, b: string)
    requires a != b
    ensures StrLt(a, b) != StrLt(b, a)
  {
    StrLeTotal(a, b);
    if StrLt(a, b) && StrLt(b, a) { StrLeAntisymmetric(a, b); }
  }

  lemma {:induction false} SeqLeTotal(a: seq<string>, b: seq<string>)
    ensures SeqLe(a, b) || SeqLe(b, a)
    decreases |a|
  {
    if |a| > 0 && |b| > 0 {
      if a[0] != b[0] { StrLtTotal(a[0], b[0]); } else { SeqLeTotal(a[1..], b[1..]); }
    }
  }

  lemma {:induction false} SeqLeAntisymmetric(a: seq<string>, b: seq<string>)
    requires SeqLe(a, b) && SeqLe(b, a)
    ensures a == b
    decreases |a|
  {
    if |a| > 0 && |b| > 0 {
      if a[0] != b[0] { StrLtTotal(a[0], b[0]); }
      SeqLeAntisymmetric(a[1..], b[1..]);
      assert a == [a[0]] + a[1..];
      assert b == [b[0]] + b[1..];
    }
  }

  lemma {:induction false} SeqLeTransitive(a: seq<string>, b: seq<string>, c: seq<string>)
    requires SeqLe(a, b) && SeqLe(b, c)
    ensures SeqLe(a, c)
    decreases |a|
  {
    if |a| > 0 && |b| > 0 && |c| > 0 {
      if a[0] == b[0] && b[0] == c[0] {
        SeqLeTransitive(a[1..], b[1..], c[1..]);
      } else if a[0] != b[0] && b[0] != c[0] {
        StrLtTransitive(a[0], b[0], c[0]);
      }
    }
  }

  /** Any two manifests are ordered one way or the other. */
  lemma ManifestLeTotal(a: PluginManifest, b: PluginManifest)
    ensures ManifestLe(a, b) || ManifestLe(b, a)
  {
    if a.name != b.name { StrLtTotal(a.name, b.name); }
    else if a.version != b.version { StrLtTotal(a.version, b.version); }
    else if a.authors != b.authors { SeqLeTotal(a.authors, b.authors); }
    else if a.description.Some? && b.description.Some? {
      StrLeTotal(a.description.value, b.description.value);
    }
  }

  /** Manifests ordered both ways are equal (the order agrees with the derived `Eq`). */
  lemma ManifestLeAntisymmetric(a: PluginManifest, b: PluginManifest)
    requires ManifestLe(a, b) && ManifestLe(b, a)
    ensures a == b
  {
    if a.name != b.name { StrLtTotal(a.name, b.name); }
    else if a.version != b.version { StrLtTotal(a.version, b.version); }
    else if a.authors != b.authors { SeqLeAntisymmetric(a.authors, b.authors); }
    else if a.description.Some? && b.description.Some? {
      StrLeAntisymmetric(a.description.value, b.description.value);
    }
  }

  lemma ManifestLeTransitive(a: PluginManifest, b: PluginManifest, c: PluginManifest)
    requires ManifestLe(a, b) && ManifestLe(b, c)
    ensures ManifestLe(a, c)
  {
    if a.name != b.name && b.name != c.name {
      StrLtTransitive(a.name, b.name, c.name);
    } else if a.name == b.name && b.name == c.name {
      if a.version != b.version && b.version != c.version {
        StrLtTransitive(a.version, b.version, c.version);
      } else if a.version == b.version && b.version == c.version {
        if a.authors != b.authors && b.authors != c.authors {
          SeqLeTransitive(a.authors, b.authors, c.authors);
          if a.authors == c.authors { SeqLeAntisymmetric(a.authors, b.authors); }
        } else if a.authors == b.authors && b.authors == c.authors {
          if a.description.Some? && b.description.Some? && c.description.Some? {
            StrLeTransitive(a.description.value, b.description.value, c.description.value);
          }
        }
      }
    }
  }

  // ---------------------------------------------------------------- validate_plugin

  /** The checks of `validate_plugin`, in the order it performs them. */
  datatype Check = BadPrefix | NoLib | UnnamedLib | NotCdylib

  const PLUGIN_PREFIX: string := "reaper_"
  const LIB_MARKER: string := "[lib]"

  /** The checks on the config key. */
  function KeyChecks(key: string): seq<Check> {
    if StartsWith(key, PLUGIN_PREFIX) then [] else [BadPrefix]
  }

  /** The checks on a parsed manifest's library target. */
  function LibChecks(lib: Option<Lib>): seq<Check> {
    match lib
    case None => [NoLib]
    case Some(l) =>
      (if l.name.None? then [UnnamedLib] else []) + (if "cdylib" !in l.crateType then [NotCdylib] else [])
  }

  /** The checks that fail for config key `key` and the manifest parse result `parsed`, in order. */
  function FailedChecks(key: string, parsed: Result<Manifest, string>): seq<Check> {
    KeyChecks(key) + (if parsed.Ok? then LibChecks(parsed.value.lib) else [])
  }

  /** Each check fails exactly under its own condition; at most three fail, none twice. */
  lemma FailedChecksCharacterised(key: string, parsed: Result<Manifest, string>)
    ensures var r := FailedChecks(key, parsed);
      && (BadPrefix in r <==> !StartsWith(key, PLUGIN_PREFIX))
      && (NoLib in r <==> parsed.Ok? && parsed.value.lib.None?)
      && (UnnamedLib in r <==> parsed.Ok? && parsed.value.lib.Some? && parsed.value.lib.value.name.None?)
      && (NotCdylib in r <==> parsed.Ok? && parsed.value.lib.Some? && "cdylib" !in parsed.value.lib.value.crateType)
      && |r| <= 3
      && (forall i, j :: 0 <= i < j < |r| ==> r[i] != r[j])
  {
  }

  /** Everything `validate_plugin` is given, with paths already rendered as strings. */
  datatype ValidationInput = ValidationInput(
    configFile: string, configContents: string, key: Spanned<string>,
    manifestFile: string, manifestContent: string)

  /** The span of the first `[lib]` in the manifest text (only used when it occurs). */
  function LibSpan(content: string): Span {
    match Find(content, LIB_MARKER)
    case Some(i) => Span(i, i + |LIB_MARKER|)
    case None => Span(0, 0)
  }

  /** The error `validate_plugin` returns when the manifest does not parse. */
  function ParseFailure(file: string, error: string): string {
    "Failed to parse plugin manifest '" + file + "':\n" + error
  }

  /** What `validate_plugin` reports for a failed check: the file, the message, the primary label and the help text. */
  datatype CheckReport = CheckReport(file: SimpleFile, message: string, span: Span, note: Option<string>, help: string)

  // The texts of the diagnostics `validate_plugin` records; a `_MESSAGE` that
  // starts with a backquote follows the plugin name.
  const BAD_PREFIX_MESSAGE: string := "Invalid extension plugin name"
  const BAD_PREFIX_NOTE: string := "extension plugins must be prefixed by `reaper_` to be recognized"
  const BAD_PREFIX_HELP: string := "help: consider changing this to `reaper_"
  const NO_LIB_MESSAGE: string := "` does not contain a library target"
  const NO_LIB_HELP: string := "help: add the `[lib]` target attribute"
  const UNNAMED_LIB_MESSAGE: string := "` library is unnamed"
  const UNNAMED_LIB_NOTE: string := "a name is required in order for plugin path resolution during renaming"
  const UNNAMED_LIB_HELP: string := "help: add `name = \"<...>\"`"
  const NOT_CDYLIB_MESSAGE: string := "` is not a dynamic library"
  const NOT_CDYLIB_NOTE: string := "extension plugins must be dynamic libraries to be recognized"
  const NOT_CDYLIB_HELP: string := "help: add `crate-type = [\"cdylib\"]`"

  /** The report of check `c`, with the key's span and the manifest's `[lib]` span filled in. */
  function Report(c: Check, v: ValidationInput): CheckReport {
    var name := v.key.value;
    var config := SimpleFile(v.configFile, v.configContents);
    var manifest := SimpleFile(v.manifestFile, v.manifestContent);
    match c
    case BadPrefix =>
      CheckReport(config, BAD_PREFIX_MESSAGE, v.key.span, Some(BAD_PREFIX_NOTE), BAD_PREFIX_HELP + name + "`")
    case NoLib =>
      CheckReport(manifest, "`" + name + NO_LIB_MESSAGE, Span(0, |v.manifestContent|), None, NO_LIB_HELP)
    case UnnamedLib =>
      CheckReport(manifest, "`" + name + UNNAMED_LIB_MESSAGE, LibSpan(v.manifestContent), Some(UNNAMED_LIB_NOTE), UNNAMED_LIB_HELP)
    case NotCdylib =>
      CheckReport(manifest, "`" + name + NOT_CDYLIB_MESSAGE, LibSpan(v.manifestContent), Some(NOT_CDYLIB_NOTE), NOT_CDYLIB_HELP)
  }

  /** The file a check's diagnostic is recorded against. */
  function CheckFile(c: Check, v: ValidationInput): SimpleFile {
    Report(c, v).file
  }

  /** The diagnostic a failed check records when the database holds `firstId` files. */
  function CheckDiagnostic(c: Check, firstId: nat, v: ValidationInput): Diagnostic {
    var p := Report(c, v);
    ErrorFor(firstId, p.message, p.span, p.note, None, Some(p.help))
  }

  /**
   * The diagnostics recorded for `checks` when the database held `firstId`
   * files: every check records a diagnostic with a help message, hence two
   * files, so the i-th one starts at id `firstId + 2 * i`.
   */
  function CheckDiagnostics(checks: seq<Check>, firstId: nat, v: ValidationInput): (r: seq<Diagnostic>)
    ensures |r| == |checks|
    decreases |checks|
  {
    if |checks| == 0 then []
    else [CheckDiagnostic(checks[0], firstId, v)] + CheckDiagnostics(checks[1..], firstId + 2, v)
  }

  /** The files recorded for `checks`: two per check. */
  function CheckFiles(checks: seq<Check>, v: ValidationInput): (r: seq<SimpleFile>)
    ensures |r| == 2 * |checks|
    decreases |checks|
  {
    if |checks| == 0 then []
    else [CheckFile(checks[0], v), CheckFile(checks[0], v)] + CheckFiles(checks[1..], v)
  }

  /** Recording two runs of checks, the second numbered after the first, records their concatenation. */
  lemma {:induction false} CheckDiagnosticsAppend(a: seq<Check>, b: seq<Check>, firstId: nat, v: ValidationInput)
    ensures CheckDiagnostics(a + b, firstId, v) == CheckDiagnostics(a, firstId, v) + CheckDiagnostics(b, firstId + 2 * |a|, v)
    decreases |a|
  {
    if |a| == 0 {
      assert a + b == b;
    } else {
      assert (a + b)[0] == a[0];
      assert (a + b)[1..] == a[1..] + b;
      CheckDiagnosticsAppend(a[1..], b, firstId + 2, v);
      var head := [CheckDiagnostic(a[0], firstId, v)];
      var restA := CheckDiagnostics(a[1..], firstId + 2, v);
      var restB := CheckDiagnostics(b, firstId + 2 * |a|, v);
      assert CheckDiagnostics(a + b, firstId, v) == head + (restA + restB);
      assert head + (restA + restB) == (head + restA) + restB;
    }
  }

  lemma {:induction false} CheckFilesAppend(a: seq<Check>, b: seq<Check>, v: ValidationInput)
    ensures CheckFiles(a + b, v) == CheckFiles(a, v) + CheckFiles(b, v)
    decreases |a|
  {
    if |a| == 0 {
      assert a + b == b;
    } else {
      assert (a + b)[1..] == a[1..] + b;
      CheckFilesAppend(a[1..], b, v);
    }
  }

  /** Recording one more check appends its diagnostic after those of the earlier checks... */
  lemma DiagnosticsSnoc(checks: seq<Check>, c: Check, firstId: nat, v: ValidationInput)
    ensures CheckDiagnostics(checks + [c], firstId, v) == CheckDiagnostics(checks, firstId, v) + [CheckDiagnostic(c, firstId + 2 * |checks|, v)]
  {
    CheckDiagnosticsAppend(checks, [c], firstId, v);
    assert CheckDiagnostics([c], firstId + 2 * |checks|, v) == [CheckDiagnostic(c, firstId + 2 * |checks|, v)];
  }

  /** ... and its two files after theirs. */
  lemma FilesSnoc(checks: seq<Check>, c: Check, v: ValidationInput)
    ensures CheckFiles(checks + [c], v) == CheckFiles(checks, v) + [CheckFile(c, v), CheckFile(c, v)]
  {
    CheckFilesAppend(checks, [c], v);
    assert CheckFiles([c], v) == [CheckFile(c, v), CheckFile(c, v)];
  }

  /** Two rounds of recording, the second after the first, record the concatenated checks. */
  lemma RecordedThen(log0: seq<Diagnostic>, log1: seq<Diagnostic>, log2: seq<Diagnostic>,
                     a: seq<Check>, b: seq<Check>, firstId: nat, v: ValidationInput)
    requires log1 == log0 + CheckDiagnostics(a, firstId, v)
    requires log2 == log1 + CheckDiagnostics(b, firstId + 2 * |a|, v)
    ensures log2 == log0 + CheckDiagnostics(a + b, firstId, v)
  {
    CheckDiagnosticsAppend(a, b, firstId, v);
  }

  /** `validate_plugin` panics exactly when a lib problem is found but the text lacks `[lib]`. */
  predicate PanicsOnLibMarker(parsed: Result<Manifest, string>, content: string) {
    parsed.Ok? && LibPanics(parsed.value.lib, content)
  }

  /** The library target has a problem whose label needs the span of `[lib]`, and there is no `[lib]`. */
  predicate LibPanics(lib: Option<Lib>, content: string) {
    lib.Some? && (lib.value.name.None? || "cdylib" !in lib.value.crateType) && !Contains(content, LIB_MARKER)
  }

  /** What `validate_plugin` returns for manifest text `v.manifestContent` that parses to `parsed`. */
  function ValidationResult(v: ValidationInput, parsed: Result<Manifest, string>): Result<Spanned<Manifest>, Failure> {
    if parsed.Err? then Err(Error(ParseFailure(v.manifestFile, parsed.error)))
    else if LibPanics(parsed.value.lib, v.manifestContent) then Err(Panic(UNWRAP_NONE))
    else Ok(Spanned(parsed.value, Span(0, |v.manifestContent|)))
  }

  /**
   * Only a manifest that does not parse is an error; the lib checks panic
   * exactly when the `[lib]` span is needed and missing; otherwise the whole
   * manifest text is the span of the result, whatever the checks found.
   */
  lemma ValidationResultCases(v: ValidationInput, parsed: Result<Manifest, string>)
    ensures var r := ValidationResult(v, parsed);
      && (r.Err? && r.error.Error? <==> parsed.Err?)
      && (parsed.Err? ==> r.error.message == ParseFailure(v.manifestFile, parsed.error))
      && (r.Err? && r.error.Panic? <==> PanicsOnLibMarker(parsed, v.manifestContent))
      && (r.Ok? ==> r.value == Spanned(parsed.value, Span(0, |v.manifestContent|)))
  {
  }

  /** Records the diagnostic of one failed check, as `validate_plugin` does at each check. */
  method RecordCheck(emitter: TomlErrorEmitter, c: Check, v: ValidationInput)
    requires emitter.Valid()
    modifies emitter
    ensures emitter.Valid()
    ensures emitter.errors == old(emitter.errors) + [CheckDiagnostic(c, |old(emitter.db)|, v)]
    ensures emitter.db == old(emitter.db) + [CheckFile(c, v), CheckFile(c, v)]
  {
    var p := Report(c, v);
    emitter.InsertErr(p.file.name, p.file.source, p.message, p.span, p.note, None, Some(p.help));
  }

  /** The config-key check of `validate_plugin`. */
  method CheckKey(emitter: TomlErrorEmitter, v: ValidationInput)
    requires emitter.Valid()
    modifies emitter
    ensures emitter.Valid()
    ensures emitter.errors == old(emitter.errors) + CheckDiagnostics(KeyChecks(v.key.value), |old(emitter.db)|, v)
    ensures emitter.db == old(emitter.db) + CheckFiles(KeyChecks(v.key.value), v)
  {
    if !StartsWith(v.key.value, PLUGIN_PREFIX) {
      DiagnosticsSnoc([], BadPrefix, |emitter.db|, v);
      FilesSnoc([], BadPrefix, v);
      RecordCheck(emitter, BadPrefix, v);
      assert [] + [BadPrefix] == KeyChecks(v.key.value);
    }
  }

  /**
   * The library-target checks of `validate_plugin`. A lib problem in a
   * manifest whose text has no `[lib]` reaches the `unwrap` on a `None` and
   * panics; the result says whether it did.
   */
  method CheckLib(emitter: TomlErrorEmitter, v: ValidationInput, lib: Option<Lib>) returns (panicked: bool)
    requires emitter.Valid()
    modifies emitter
    ensures emitter.Valid()
    ensures panicked <==> LibPanics(lib, v.manifestContent)
    ensures !panicked ==> emitter.errors == old(emitter.errors) + CheckDiagnostics(LibChecks(lib), |old(emitter.db)|, v)
    ensures !panicked ==> emitter.db == old(emitter.db) + CheckFiles(LibChecks(lib), v)
  {
    if lib.None? {
      DiagnosticsSnoc([], NoLib, |emitter.db|, v);
      FilesSnoc([], NoLib, v);
      RecordCheck(emitter, NoLib, v);
      assert [] + [NoLib] == LibChecks(lib);
      return false;
    }
    ghost var db0, errors0 := emitter.db, emitter.errors;
    var unnamed := lib.value.name.None?;
    panicked := CheckLibSpan(emitter, v, UnnamedLib, unnamed);
    if panicked {
      return;
    }
    ghost var errors1 := emitter.errors;
    ghost var first := if unnamed then [UnnamedLib] else [];
    var notCdylib := "cdylib" !in lib.value.crateType;
    panicked := CheckLibSpan(emitter, v, NotCdylib, notCdylib);
    if panicked {
      return;
    }
    ghost var second := if notCdylib then [NotCdylib] else [];
    RecordedThen(errors0, errors1, emitter.errors, first, second, |db0|, v);
    CheckFilesAppend(first, second, v);
    assert first + second == LibChecks(lib);
  }

  /**
   * One check of the library target whose label is the span of `[lib]`:
   * when `failed`, finding that span either panics (no `[lib]` in the text)
   * or records the check's diagnostic.
   */
  method CheckLibSpan(emitter: TomlErrorEmitter, v: ValidationInput, c: Check, failed: bool) returns (panicked: bool)
    requires emitter.Valid()
    modifies emitter
    ensures emitter.Valid()
    ensures panicked <==> failed && !Contains(v.manifestContent, LIB_MARKER)
    ensures !panicked ==> emitter.errors == old(emitter.errors) + CheckDiagnostics(if failed then [c] else [], |old(emitter.db)|, v)
    ensures !panicked ==> emitter.db == old(emitter.db) + CheckFiles(if failed then [c] else [], v)
  {
    if !failed {
      return false;
    }
    if Find(v.manifestContent, LIB_MARKER).None? {
      return true;
    }
    DiagnosticsSnoc([], c, |emitter.db|, v);
    FilesSnoc([], c, v);
    RecordCheck(emitter, c, v);
    assert [] + [c] == [c];
    return false;
  }

  /**
   * `validate_plugin`. `parsed` is what `cargo_toml::Manifest::from_str` gives
   * for `v.manifestContent`. Each failed check appends one diagnostic; only a
   * parse failure is returned as an error, and `CheckLib` may panic.
   */
  method ValidatePlugin(emitter: TomlErrorEmitter, v: ValidationInput, parsed: Result<Manifest, string>)
    returns (r: Result<Spanned<Manifest>, Failure>)
    requires emitter.Valid()
    modifies emitter
    ensures emitter.Valid()
    ensures r == ValidationResult(v, parsed)
    ensures !(r.Err? && r.error.Panic?) ==>
      emitter.errors == old(emitter.errors) + CheckDiagnostics(FailedChecks(v.key.value, parsed), |old(emitter.db)|, v)
    ensures !(r.Err? && r.error.Panic?) ==>
      emitter.db == old(emitter.db) + CheckFiles(FailedChecks(v.key.value, parsed), v)
  {
    ghost var db0, errors0 := emitter.db, emitter.errors;
    CheckKey(emitter, v);
    ghost var db1, errors1 := emitter.db, emitter.errors;
    if parsed.Err? {
      assert FailedChecks(v.key.value, parsed) == KeyChecks(v.key.value) + [];
      return Err(Error(ParseFailure(v.manifestFile, parsed.error)));
    }
    var manifest := Spanned(parsed.value, Span(0, |v.manifestContent|));
    var panicked := CheckLib(emitter, v, manifest.value.lib);
    if panicked {
      return Err(Panic(UNWRAP_NONE));
    }
    ghost var keyChecks, libChecks := KeyChecks(v.key.value), LibChecks(parsed.value.lib);
    RecordedThen(errors0, errors1, emitter.errors, keyChecks, libChecks, |db0|, v);
    CheckFilesAppend(keyChecks, libChecks, v);
    return Ok(manifest);
  }

  // ---------------------------------------------------------------- shared by the commands

  /** The error `build`, `clean` and `list` return when a plugin's `Cargo.toml` cannot be read. */
  function ManifestReadFailure(file: string, key: string, error: string): string {
    "Failed to read manifest '" + file + "' for plugin '" + key + "':\n" + error
  }

  /** The diagnostic `clean` and `list` record for a manifest without a `[package]`. */
  function NotPackageMessage(key: string): string {
    "`" + key + "` is not a package"
  }

  const NOT_PACKAGE_NOTE: string := "expected manifest path to a package containing a dynamic library target"
  const NOT_PACKAGE_HELP: string := "help: is this a workspace? try adding the `[workspace.package]` attribute"

  /** The diagnostic for plugin `key` whose manifest `file` has no `[package]`; its label spans the whole text. */
  function NotPackageDiagnostic(firstId: nat, file: string, content: string, key: string): (d: Diagnostic)
    ensures d.message == NotPackageMessage(key) && |d.labels| == 2
    ensures d.labels[0] == Label(Primary, firstId, Span(0, |content|), Some(NOT_PACKAGE_NOTE))
  {
    ErrorFor(firstId, NotPackageMessage(key), Span(0, |content|), Some(NOT_PACKAGE_NOTE), None, Some(NOT_PACKAGE_HELP))
  }
}
