# cargo-reaper, modelled in Dafny

`cargo-reaper` is a Cargo plugin for building REAPER extension plugins. Its
subcommands are `new`, `list`, `build`, `run` and `clean`. Most of it is glue
around `cargo`, the file system and REAPER itself. This project models the
decision logic inside that glue and proves what the code promises about it:

- **run supervisor** (`Run`). The executable is resolved in a fixed
  order: an explicit override, then a `PATH` lookup, then the global
  default. The foreground and headless polling loops run over a sequence of
  per-tick observations. Each tick records whether the window locator found
  the window, what `try_wait` gave, and the elapsed time.
- **plugin validation and diagnostics** (`Util`, `Diagnostics`).
  `validate_plugin` checks the key prefix, the library target, its name and
  the `cdylib` crate type. `TomlErrorEmitter` is an append-only store of
  diagnostics that emits them newest first. `PluginManifest` has a display
  text and a derived order.
- **naming and path rules** (`Platform`, `Build`, `New`, `Config`,
  `Project`, `Cli`). These cover per-platform artifact names, profile
  selection, the `reaper_` plugin key, the config-file preference, the
  project-root walk and the removal of the argument Cargo inserts.
- **symlinks and the commands** (`Links`, `Build`, `Clean`, `List`, `New`).
  These work over a map-based file system (`Fs`). Paths are sequences of
  components from the root, and entries are files, directories or
  symlinks. Rust's `HashMap` of plugins is a sequence with distinct keys in
  one fixed iteration order.

The repository holds two copies of much of this code. `src/main.rs` is an
older monolithic copy, and `src/util.rs`, `src/error.rs`, `src/config.rs` and
`src/command/*.rs` are the current modules. Each piece is modelled once and
both locations are cited. Where the two copies differ, the difference is
modelled: the old `new_from_template` is a separate member (see Findings),
and so is the old `_run` (`Run.LegacyRun`).

Everything outside the program is a parameter of the model:

- the parsers of TOML and `Cargo.toml` (`parseConfig`, `parseManifest`,
  `parseDoc`, `renderDoc`);
- what a spawned process does (`Child`, `Tick`, `cargo`, `status`);
- `which` and `dirs` lookups (`which`, `globalDefault`, `userPluginsBase`);
- the downloaded template (`template`) and the repository `gix::init`
  creates, or its error (`gitInit`);
- the target OS (`Platform.Os`);
- the working directory (`cwd`), and whether the temporary directory the
  template is unpacked in lies on the destination's file system
  (`sameDevice`).

Output to the terminal is returned as values: `stdout`, `stderr`, warnings
and the trace of actions.

Two consequences of the code as written are stated as lemmas, not
corrected. A relative plugin directory, such as the `./.` that `new`
writes, is resolved from the working directory, not from the project root
(`Config.GeneratedDirIsWorkingDir`). So `build`, `list` and `clean
--remove-artifacts`, run from a subdirectory of the project, read some
other `Cargo.toml`. And `new` fails whenever the temporary directory lies
on another file system than the destination, because `fs::rename` cannot
cross file systems (`New.CrossDeviceMoveFails`).

## Model

| member | source | states |
|---|---|---|
| Platform.AddPluginExt | src/main.rs:786-788 | the result is the library name followed by the OS's extension: `.dll` on Windows, `.so` on Linux (src/main.rs:872-874), `.dylib` on macOS (src/main.rs:938-940) |
| Platform.FromPluginFileName | src/main.rs:782-784 | on Windows the artifact name is the library file name itself; on Linux (src/main.rs:868-870) and macOS (src/main.rs:934-936) it is `lib` followed by it |
| Platform.AddPluginExtInjective | src/main.rs:786-788 | distinct plugin names give distinct file names, so two plugins never share a symlink |
| Platform.ArtifactNameShape | src/command/build.rs:54-58 | the artifact cargo leaves is `lib`(Unix only) + name + the OS extension |
| Platform.ArtifactHasRenamedName | src/command/build.rs:54-62 | the artifact already has the name it is renamed to exactly when the config key is the library name, with `lib` in front on Unix |
| Platform.UnixArtifactDiffersFromRenamed | src/command/build.rs:54-62 | on Unix a key with the `reaper_` prefix never names the artifact cargo built, whatever the library name, so the rename always moves it |
| Process.FailureExitCode | src/command/build.rs:76-78 | a failed status exits with its own code, or with 1 when a signal ended it (the same code also at src/main.rs:499-501) |
| Cli.StripCargoArg | src/main.rs:250-252 | when `args[1]` is `reaper`, exactly that argument is gone and putting it back at index 1 gives the original list; any other list is unchanged |
| Fs.FileSystem.RemoveFile | src/main.rs:682 | `fs::remove_file` succeeds iff the path exists and is not a directory, and then drops only that entry |
| Fs.FileSystem.CreateSymlink | src/main.rs:892 | `symlink` succeeds iff the link path is new and its parent is a directory, and then adds only the link; a failure is `CreateSymlinkError` |
| Fs.CreateSymlinkError | src/main.rs:892 | `symlink` fails with `AlreadyExists` exactly on an existing entry; with `NotADirectory` exactly when the parent exists but is no directory (a `UserPlugins` that is a file passes the `exists()` test of src/main.rs:662 and fails here); with `NotFound` when the parent is missing |
| Fs.FileSystem.RenameEntry | src/main.rs:634 | `fs::rename` succeeds iff the source exists, the target's parent is a directory and the target is no other directory, and then moves the entry; a failure is `RenameError` |
| Fs.RenameError | src/main.rs:634 | `fs::rename` fails with `NotFound` for a missing source or parent and `IsADirectory` for a directory in the way |
| Fs.FileSystem.AddTree | src/command/new.rs:94 | the tree a library call writes (the repository of `gix::init`) appears at the destination, over what was there, and nothing else changes |
| Fs.FileSystem.MoveIn | src/command/new.rs:64 | moving the unpacked template in succeeds iff the destination's parent is a directory, the temporary directory is on the destination's file system and the destination is new; across file systems it fails with `CrossesDevices` (`EXDEV`); on success the tree appears under the destination (the same call also at src/main.rs:1049) |
| Fs.FileSystem.RemoveDirAll | src/command/new.rs:68 | `fs::remove_dir_all` removes a directory and everything below it, and nothing else |
| Fs.FileSystem.WriteFile | src/command/new.rs:90-92 | `fs::write` succeeds iff the parent is a directory and the path is not a directory, and then sets only that file |
| Fs.RemoveTree | src/command/new.rs:68 | the entries left are exactly those not at or below the path, with their contents kept |
| Fs.Graft | src/command/new.rs:64 | the entries placed are exactly the tree's entries, at the destination plus their relative path |
| Fs.ApplyAllAppend | src/main.rs:674-694 | applying two runs of changes one after the other is applying their concatenation |
| Fs.ReadToString | src/config.rs:45-46 | reading succeeds exactly for a path that is a file |
| Fs.ReadLink | src/main.rs:675 | `fs::read_link` succeeds exactly for a symlink and gives its target |
| Diagnostics.TomlErrorEmitter.constructor | src/error.rs:32-34 | `new()` starts with no files and no errors (the same code also at src/main.rs:107-109) |
| Diagnostics.TomlErrorEmitter.AddFile | src/error.rs:54 | adding a file appends it to the database and returns its index as its id |
| Diagnostics.TomlErrorEmitter.InsertErr | src/error.rs:41-71 | appends exactly one diagnostic after the earlier ones; the database grows by `FilesFor` (1 file, or 2 with a secondary message) (the same code also at src/main.rs:115-145) |
| Diagnostics.FilesFor | src/error.rs:52-69 | one file without a secondary message, two with one, each holding the given path and contents |
| Diagnostics.ErrorFor | src/error.rs:51-69 | one label without a secondary message and two with one; the primary label has the primary span, with a message iff one was given; the secondary label uses the secondary span or falls back to the primary span |
| Diagnostics.SecondarySpanNeedsMessage | src/error.rs:61-68 | a secondary span without a secondary message has no effect on the diagnostic |
| Diagnostics.LabelsWithinMonotonic | src/error.rs:41-71 | labels that point into the database keep doing so as the database grows |
| Diagnostics.TomlErrorEmitter.Emit | src/error.rs:74-87 | with no errors nothing is written and the result is `Ok`; otherwise every error is written newest first and the process exits with 1; a failed write stops after the errors already written (the same code also at src/main.rs:148-161) |
| Text.Reverse | src/error.rs:76 | the element at k is the input's element at `len - 1 - k` |
| Text.ReverseUnique | src/error.rs:76 | any sequence holding the input back to front is its reverse |
| Text.Find | src/util.rs:150 | `find` gives the first index where the pattern occurs, and `None` iff it does not occur |
| Text.FindFrom | src/util.rs:150 | the first occurrence at or after the start index |
| Text.JoinContainsParts | src/command/clean.rs:21-26 | every name occurs in the joined text |
| Text.StrLeTotal | src/command/list.rs:58 | Rust's string order is total |
| Text.StrLeTransitive | src/command/list.rs:58 | Rust's string order is transitive |
| Text.StrLeAntisymmetric | src/command/list.rs:58 | strings ordered both ways are equal |
| Text.InsertSorted | src/command/list.rs:58 | inserting into a sorted list keeps it sorted and adds exactly that element |
| Text.SortedUnique | src/command/list.rs:58 | two sorted permutations of the same strings are equal, so any stable or unstable sort prints the same |
| Text.SortStrings | src/command/list.rs:58 | `sort()` gives an ascending permutation of its input |
| Util.Display | src/util.rs:85-96 | `<name> v<version>`, then ` -- <description>` iff there is one, then `\n\nAuthored by: ` with the authors joined by `, ` iff any; the length is that of exactly these parts, so together with the prefix and suffix the text is fixed in all four cases (the same code also at src/main.rs:232-243) |
| Util.ManifestLe | src/util.rs:62-69 | the derived `Ord` of `PluginManifest`: by name, then version, then authors, then description; its properties are the lemmas below |
| Util.StrLtTransitive | src/util.rs:62-69 | the strict string order is transitive |
| Util.StrLtTotal | src/util.rs:62-69 | of two different strings exactly one is less |
| Util.SeqLeTotal | src/util.rs:62-69 | the derived order on author lists is total |
| Util.SeqLeAntisymmetric | src/util.rs:62-69 | author lists ordered both ways are equal |
| Util.SeqLeTransitive | src/util.rs:62-69 | the derived order on author lists is transitive |
| Util.ManifestLeTotal | src/util.rs:62-69 | the derived order on (name, version, authors, description) is total |
| Util.ManifestLeAntisymmetric | src/util.rs:62-69 | manifests ordered both ways are equal, so the order agrees with `Eq` |
| Util.ManifestLeTransitive | src/util.rs:62-69 | the derived order is transitive |
| Util.KeyChecks | src/util.rs:108-121 | the key check fails iff the key lacks the `reaper_` prefix |
| Util.LibChecks | src/util.rs:135-178 | no lib fails the lib check; a lib fails the name check without a name and the `cdylib` check without that crate type |
| Util.FailedChecks | src/util.rs:99-180 | the key check, then the lib checks of a parsed manifest, in `validate_plugin`'s order |
| Util.FailedChecksCharacterised | src/util.rs:99-180 | each check fails exactly under its own condition; with no lib neither the unnamed nor the `cdylib` check fails; at most three fail, none twice |
| Util.CheckDiagnostics | src/util.rs:108-178 | one diagnostic per failed check |
| Util.CheckFiles | src/util.rs:108-178 | two files per failed check |
| Util.CheckDiagnosticsAppend | src/util.rs:108-178 | recording two runs of checks one after the other records their concatenation |
| Util.CheckFilesAppend | src/util.rs:108-178 | the files of two runs of checks are those of their concatenation |
| Util.DiagnosticsSnoc | src/util.rs:108-178 | one more check appends its diagnostic after the earlier ones |
| Util.FilesSnoc | src/util.rs:108-178 | one more check appends its two files after the earlier ones |
| Util.RecordedThen | src/util.rs:108-178 | two rounds of recording, the second numbered after the first, record the concatenated checks |
| Util.ValidationResult | src/util.rs:123-131 | what `validate_plugin` returns: the parse error, the `[lib]` panic, or the manifest spanned over its text |
| Util.ValidationResultCases | src/util.rs:123-131 | only an unparsable manifest is an `Err`; the lib checks panic exactly when the `[lib]` span is needed and absent; otherwise the result is the manifest spanned over the whole text |
| Util.RecordCheck | src/util.rs:108-121 | one failed check appends exactly its diagnostic and its two files |
| Util.CheckKey | src/util.rs:108-121 | a key without the `reaper_` prefix records exactly one "Invalid extension plugin name" diagnostic against the config file at the key's span; a prefixed key records nothing (the same code also at src/main.rs:357-370) |
| Util.CheckLib | src/util.rs:135-178 | a missing lib records the "does not contain a library target" diagnostic spanning the whole text; an unnamed lib and a lib without `cdylib` each record one diagnostic at the `[lib]` span; it panics exactly when such a span is needed and `[lib]` is absent (the same code also at src/main.rs:384-427) |
| Util.CheckLibSpan | src/util.rs:149-178 | a check that needs the `[lib]` span panics iff it failed and the text has no `[lib]`, and otherwise records its diagnostic iff it failed |
| Util.ValidatePlugin | src/util.rs:99-180 | returns `ValidationResult`; unless it panics it appends one diagnostic (and two files) per failed check, in check order, and failed checks never make it return `Err` (the same code also at src/main.rs:348-429) |
| Util.NotPackageDiagnostic | src/command/list.rs:44-54 | the "is not a package" diagnostic has two labels, the primary one spanning the whole manifest text |
| Config.FirstExisting | src/config.rs:40-44 | the first candidate that exists, and `None` iff none exists |
| Config.ConfigFilePreference | src/config.rs:40-44 | `.reaper.toml` wins over `reaper.toml`, and there is no config file iff neither exists (the names are at src/config.rs:4, and the same code also at src/main.rs:13) |
| Config.Load | src/config.rs:39-55 | panics iff no candidate exists; succeeds iff the chosen file is read and parsed; `file` is the chosen path, `contents` the text read and `extension_plugins` the parsed table with each directory resolved from the working directory (`ResolveAll`); read and parse failures are returned with their messages (the same code also at src/main.rs:190-206, src/util.rs:43-59) |
| Config.Descend | src/command/build.rs:30 | the directory the OS reaches from a base by path components: plain names are appended, and `.` components leave the base as it is |
| Config.Resolved | src/command/build.rs:30 | a relative plugin directory is taken from the working directory and an absolute one from the root, keeping the key and spans (the same join at src/command/list.rs:15 and src/command/clean.rs:59) |
| Config.ResolveAll | src/config.rs:18 | one resolved entry per parsed entry, in order, and distinct keys stay distinct |
| Config.GeneratedDirIsWorkingDir | src/command/new.rs:45 | the directory `new` writes, `./.`, is the working directory: its manifest is `cwd/Cargo.toml`, which is the project's manifest iff the command runs in the project root |
| Config.ManifestFile | src/command/build.rs:30 | the manifest is the file `Cargo.toml` directly inside the plugin's (resolved) directory (also src/command/list.rs:15, src/command/clean.rs:59) |
| Project.IsProjectRoot | src/main.rs:1003-1006 | the loop's test: `Cargo.toml` and `.reaper.toml`, or `reaper.toml` alone |
| Project.FindProjectRoot | src/main.rs:998-1016 | the result is the deepest ancestor of the working directory (itself included) holding `Cargo.toml` and `.reaper.toml`, or `reaper.toml`; with none it is the "could not find project root" error |
| Project.RootHasConfig | src/main.rs:998-1016 | a directory the walk accepts always has a config file, so `load`'s `unwrap` holds after it |
| Links.UserPluginsDir | src/main.rs:799-816 | the `UserPlugins` directory lies below the base directory `dirs` gives, and is an error naming that directory when there is none |
| Links.CanRename | src/main.rs:634 | the condition under which `fs::rename` of the artifact succeeds |
| Links.RenamePlugin | src/main.rs:623-645 | `_rename_plugin` succeeds iff `CanRename`; it then moves the artifact to `root/target/<profile>/<name>` and returns that path; a failure is "failed to rename plugin: " with the rename error and changes nothing |
| Links.LinkPath | src/main.rs:668 | a plugin path without a file name has no link; otherwise the link is directly inside the given directory and has the plugin's file name |
| Links.SymlinkOutcome | src/main.rs:654-705 | a missing `UserPlugins` directory or a path without a file name is an error and nothing changes; a link already pointing at the plugin is kept and the callback is not called; an existing non-link is the `read_link` error; another existing link is removed before the new one is made and stays removed if linking fails; a failed link is "failed to link extension plugin: " with the `symlink` error; on success exactly the link is added, pointing at the plugin |
| Links.SymlinkPlugin | src/main.rs:654-705 | `_symlink_plugin` with the `symlink` callback gives the result and state of `SymlinkOutcome` |
| Links.RemovePluginSymlink | src/main.rs:714-736 | `Ok` iff the symlink exists; it is removed unless `dry_run`; otherwise the error names the directory and the plugin and nothing changes |
| Run.IterationStep | src/command/run.rs:101-131 | one iteration of the polling loop: the window search only with a title, then `try_wait`, then the deadline; its properties are the lemmas below |
| Run.Loop | src/command/run.rs:38-52 | the polling loop over the observations, stopping at the first iteration that decides |
| Run.Supervised | src/command/run.rs:37-52 | spawn, then wait without a timeout, or start the clock and run `Loop` with one |
| Run.SuperviseTick | src/command/run.rs:101-131 | one pass of the polling body does what `IterationStep` says: the window search first and only with a title, then the poll, then the deadline check |
| Run.PollLoop | src/command/run.rs:38-52 | the polling loop over the observations gives `Loop`'s outcome and trace |
| Run.Supervise | src/command/run.rs:37-52 | supervising a command gives `Supervised`'s outcome and trace |
| Run.QuietContinues | src/command/run.rs:42-51 | an iteration goes on exactly when it is quiet, and then it only polls and sleeps one second |
| Run.QuietRun | src/command/run.rs:42-51 | quiet iterations ahead of the rest only repeat their actions, and the rest decides the loop |
| Run.QuietPrefix | src/command/run.rs:42-51 | the first k quiet iterations only repeat their actions, and the iterations after them decide the loop |
| Run.LoopActions | src/command/run.rs:38-52 | a polling loop never spawns, never starts the clock, sleeps only one-second intervals and searches for a window only when given a title |
| Run.RepeatQuietHasNoKill | src/command/run.rs:42-51 | quiet iterations never kill |
| Run.NoTimeoutOnlyWaits | src/command/run.rs:37 | with no timeout the child is spawned and waited on only: no kill, no clock and no window search, even headless |
| Run.ClockStartsAfterSpawn | src/command/run.rs:39-40 | the clock starts right after the spawn, and only when the spawn succeeded |
| Run.ExitBeforeDeadline | src/command/run.rs:42-46 | in the foreground a child that exits before the deadline yields its status with no kill |
| Run.DeadlineKillsThenReaps | src/command/run.rs:47-50 | in the foreground, once the deadline is reached, the child is killed and then reaped, and the reaped status ends the loop |
| Run.IdealClockKillsAtTimeout | src/command/run.rs:42-51 | with a clock that advances one second per iteration and a child that never exits, the kill comes at poll `timeout + 1` |
| Run.WindowFoundExitsZero | src/command/run.rs:102-116 | headless with a title, the iteration that finds the window kills, reaps and exits 0, whatever that iteration's poll gives |
| Run.WindowMissingExitsOne | src/command/run.rs:118-128 | headless with a title never found, a natural exit exits 1, and so does the deadline after a kill and a reap |
| Run.PollFailureEnds | src/command/run.rs:118-130 | a failed poll ends the loop with its error |
| Run.LocatorFailureIsMissing | src/command/run.rs:111 | a search that fails to run counts as not finding the window |
| Run.LaunchCommand | src/command/run.rs:230-260 | `run_reaper` runs the executable with the project argument and no extra environment; `run_reaper_headless` runs exactly `xvfb-run -a <exe> [project]` with only `DISPLAY` set |
| Run.HeadlessWrapsForeground | src/command/run.rs:230-260 | the headless command is the foreground command handed to `xvfb-run -a`, with `DISPLAY` added |
| Run.OverrideWarning | src/command/run.rs:18-22 | an override is announced with a warning that says "overridng REAPER executable path" right after `warning: ` and ends with the executable in parentheses |
| Run.RunningMessage | src/command/run.rs:30-34 | an indented "Running REAPER executable" line, not a warning, ending with the executable in parentheses |
| Run.RunningDefaultMessage | src/command/run.rs:142-172 | an indented "Running global default REAPER executable" line, not a warning, ending with the executable in parentheses |
| Run.RunningMessagesDiffer | src/command/run.rs:30-34 | the running line never reads as the global-default line (src/command/run.rs:146-150), whatever the executables |
| Run.Report | src/command/run.rs:56-58 | any status of REAPER becomes `Ok(())`; an I/O error becomes an error starting with "While attempting to run REAPER executable"; a forced exit keeps its code |
| Run.RunReaper | src/command/run.rs:13-139 | `which` is consulted iff there is no override, and the global default iff there is neither; a warning is printed iff there is an override; the command run is that of the first executable found; the result is `Report` of the supervision |
| Run.AnyStatusIsOk | src/command/run.rs:56-58 | whatever status REAPER ends with, a run that reaps it returns `Ok(())` |
| Run.WindowsDefaultPath | src/main.rs:836-846 | the Windows default install path per architecture |
| Run.GlobalDefaultCommand | src/main.rs:846-863 | the Windows default exists or is a `NotFound` error with the `--exec` tip; Linux uses `which_global`; macOS runs `open -a REAPER` |
| Run.LegacyRun | src/main.rs:746-779 | `_run`: the same resolution order; the chosen command is run to completion, any status is `Ok(())` and an I/O error is wrapped |
| Build.CargoBuild | src/command/build.rs:14-15 | `cargo build` followed by the user's arguments unchanged, with no extra environment |
| Build.ArtifactPath | src/command/build.rs:54-58 | the artifact lies in `target/<profile>` directly under the project root, under the platform's file name for the library |
| Build.Profile | src/command/build.rs:24-27 | `release` iff some argument is exactly `--release`, else `debug` (the same code also at src/main.rs:447-450) |
| Build.LibName | src/command/build.rs:31-53 | an unreadable manifest is the "Failed to read manifest" error; an unparsable one is an error; a parsed one gives its library name iff it has a lib with a name and the `[lib]` checks do not panic, and otherwise panics at an `unwrap` |
| Build.PluginOutcome | src/command/build.rs:29-73 | one plugin's result and new state; a result other than a skip has the key's file name as its path and is `NotLinked` iff `no_symlink` |
| Build.PluginOutcomeCases | src/command/build.rs:29-73 | a manifest failure changes nothing; the plugin is skipped, with nothing changed, iff its artifact is missing; a failed rename is its error and changes nothing; after a rename, `no_symlink` gives the warning, a missing `dirs` base is its error, and otherwise the result and state are `SymlinkOutcome`'s over the renamed state, a success adding exactly the link |
| Build.BuildPlugin | src/command/build.rs:29-73 | one iteration gives the result and state of `PluginOutcome` (the same code also at src/main.rs:452-496) |
| Build.RunSteps | src/command/build.rs:29-73 | a loop over the plugins that stops at the first failure gives at most one result per plugin, and one for every plugin iff nothing failed |
| Build.RunStepsAppend | src/command/build.rs:29-73 | the loop over two runs of plugins is the loop over the first, then, unless it failed, over the second |
| Build.RunStepsAt | src/command/build.rs:29-73 | the result for plugin j is the step's on the state the plugins before it left |
| Build.BuildAll | src/command/build.rs:29-73 | `build`'s loop: `PluginOutcome` for each configured plugin in order, up to the first failure |
| Build.BuildAllStep | src/command/build.rs:29-73 | each plugin the loop got past was built as promised, on the state the earlier plugins left, and was skipped iff its artifact was absent there |
| Build.BuildAllAsExpected | src/command/build.rs:29-73 | every plugin the loop got past has the key's file name as its path and is `NotLinked` iff `no_symlink`, unless skipped |
| Build.BuildProject | src/command/build.rs:14-80 | a spawn error is returned; a failed status exits with its code or 1 and nothing changes; a success runs `BuildAll` from the starting state: the results, the final state and the first plugin failure are its (the same code also at src/main.rs:432-504) |
| Build.BuildCommand | src/command/build.rs:9-12 | a project-root or config failure ends the command before cargo runs and changes nothing; otherwise cargo runs `build` with the forwarded arguments |
| Clean.Retained | src/command/clean.rs:19-20 | `retain` keeps exactly the configured plugins whose key is named in the filter, in order |
| Clean.RetainedDistinct | src/command/clean.rs:19-20 | the retained table still has distinct keys |
| Clean.SelectPlugins | src/command/clean.rs:18-36 | an empty filter selects every plugin; a filter that keeps nothing is the "were not found" error listing the names joined by `, `; otherwise the retained plugins |
| Clean.Missing | src/command/clean.rs:37-45 | the failure count is at most the number of plugins |
| Clean.Present | src/command/clean.rs:37-45 | the links removed are symlinks of the selected plugins |
| Clean.LinkOfDistinct | src/command/clean.rs:37-45 | distinct keys give distinct links |
| Clean.LaterLinkUntouched | src/command/clean.rs:37-45 | removing earlier plugins' links leaves a later plugin's link alone |
| Clean.RemovalStep | src/command/clean.rs:37-45 | one removal attempt keeps the count and the state in step with `Missing` and `Present` |
| Clean.MinusUnion | src/command/clean.rs:37-45 | removing a growing set of links one at a time removes their union |
| Clean.RemoveSymlinks | src/command/clean.rs:37-45 | each plugin gets one attempt; the failures are exactly the missing links; the present links are removed unless `dry_run`; with no `UserPlugins` every attempt fails and nothing changes |
| Clean.ScanOne | src/command/clean.rs:60-75 | a manifest is read and parsed or the command fails with the read or parse error; otherwise its package is taken |
| Clean.Scan | src/command/clean.rs:56-93 | one scan result per plugin |
| Clean.ScanElements | src/command/clean.rs:56-93 | each scan result is that plugin's `ScanOne` |
| Clean.ScanOkIffAll | src/command/clean.rs:56-93 | the scan succeeds iff every manifest is read and parsed |
| Clean.ScanErrIsFirst | src/command/clean.rs:56-93 | a failing scan fails with the first failing manifest's error |
| Clean.PackageArgs | src/command/clean.rs:79-80 | the package arguments come in pairs, at most one pair per manifest |
| Clean.PackageArgsArePairs | src/command/clean.rs:79-80 | the package arguments are a `-p <name>` pair for each manifest with a package, in order |
| Clean.NonPackages | src/command/clean.rs:81-93 | at most one manifest without a package per plugin |
| Clean.NonPackageDiagnostics | src/command/clean.rs:81-93 | one "is not a package" diagnostic per manifest without a package |
| Clean.ScannedSnoc | src/command/clean.rs:56-93 | one more scanned manifest appends its arguments, its count and its diagnostic |
| Clean.ScanPlugin | src/command/clean.rs:60-93 | one iteration gives `ScanOne` and records the "is not a package" diagnostic iff there is no package |
| Clean.CollectPackageArgs | src/command/clean.rs:56-93 | the loop gives the scan's package arguments and records one diagnostic per manifest without a package |
| Clean.RecordedStep | src/command/clean.rs:81-93 | the diagnostics recorded so far, and one more, are those of the longer scan |
| Wrappers.AfterNothing | src/command/clean.rs:56-93 | a loop whose known part is empty has the rest's result (the same loop shape at src/command/list.rs:14-55) |
| Wrappers.AfterSnoc | src/command/clean.rs:56-93 | moving one item from the rest into the known part keeps the loop's result (the same loop shape at src/command/list.rs:14-55) |
| Clean.NoNonPackagesIffAllPackages | src/command/clean.rs:81-95 | no manifest lacks a package iff every manifest has one |
| Clean.CargoRunsIffAllPackages | src/command/clean.rs:95-107 | `cargo clean` runs iff every manifest is read and parsed and has a package, and then gets a `-p` pair per plugin and `--dry-run` iff `dry_run` |
| Clean.PackagesAreAll | src/command/clean.rs:79-80 | when every manifest has a package, the packages are exactly theirs, in order |
| Clean.CargoClean | src/command/clean.rs:97-105 | `cargo clean`, then the package arguments unchanged, then `--dry-run` exactly when `dry_run` is set |
| Clean.ArtifactsOutcome | src/command/clean.rs:56-107 | the `--remove-artifacts` branch: the first read or parse error, exit 1 for a manifest without a package before cargo runs, else cargo with the package arguments; its properties are the lemmas above |
| Clean.RemoveArtifacts | src/command/clean.rs:56-107 | the `--remove-artifacts` branch does what `ArtifactsOutcome` says: a failure is returned, a missing package exits 1 before cargo, otherwise cargo runs |
| Clean.SelectAndRemove | src/command/clean.rs:18-54 | selection as `SelectPlugins`; the reported count is the selected count minus the missing links, and the links present are removed unless `dry_run` |
| Clean.CleanProject | src/command/clean.rs:14-113 | an unmatched filter is an error and nothing changes; without `--remove-artifacts` the result is `Ok`, with the dry-run warning iff `dry_run`; with it the result is `ArtifactsOutcome` over the state after removal (the same code also at src/main.rs:507-614) |
| Clean.CleanCommand | src/command/clean.rs:14-15 | a project-root or config failure ends the command before any removal and changes nothing |
| List.Inspect | src/command/list.rs:16-30 | an unreadable manifest and a `validate_plugin` failure end the command; otherwise the item has the key, the text read, the failed checks and the package |
| List.ItemErrorsEmpty | src/command/list.rs:23-54 | an item records no diagnostic iff its checks pass and it has a package, and two files per diagnostic |
| List.InspectAll | src/command/list.rs:14-55 | one item per plugin |
| List.InspectAllOkIffAll | src/command/list.rs:14-55 | the loop succeeds iff every manifest is read and accepted |
| List.InspectAllErrIsFirst | src/command/list.rs:16-30 | a failing loop fails with the first failing plugin's error |
| List.InspectAllElements | src/command/list.rs:14-55 | each item is that plugin's `Inspect` |
| List.GatherErrors | src/command/list.rs:23-54 | the diagnostics gathered are those of the items, in order |
| List.GatherLines | src/command/list.rs:34-43 | the lines gathered are one per item with a package |
| List.PackageLinesAll | src/command/list.rs:34-43 | when every item has a package there is exactly one line per plugin |
| List.ThenAssoc | src/command/list.rs:14-55 | gathering regroups freely |
| List.GatherBySnoc | src/command/list.rs:14-55 | gathering one more item appends its listing |
| List.GatherSnoc | src/command/list.rs:14-55 | the same for inspected manifests |
| List.InspectPlugin | src/command/list.rs:16-30 | one iteration's read and validation give `Inspect`, recording that item's check diagnostics |
| List.ListPlugin | src/command/list.rs:16-54 | one iteration pushes the item's line or records its "is not a package" diagnostic |
| List.RecordedStep | src/command/list.rs:23-54 | the diagnostics recorded so far, and one more item's, are those of the longer gathering |
| List.ListAll | src/command/list.rs:14-55 | the loop fails iff some manifest is unreadable or rejected, with that error; otherwise its lines are those of the manifests with a package, it has no diagnostic iff every manifest is clean, and it adds two files per diagnostic |
| List.ListLoop | src/command/list.rs:14-55 | the loop gives `ListAll`'s lines and records its diagnostics |
| List.Printed | src/command/list.rs:60-64 | the printed text starts with the header and ends with a newline |
| List.PrintedHasEveryPart | src/command/list.rs:60-64 | every line joined with the separator occurs in the printed text |
| List.PrintedHasEveryLine | src/command/list.rs:58-64 | every plugin's line occurs in the sorted printed text |
| List.ListOutcome | src/command/list.rs:56-64 | how `list` ends after its loop: the loop's error, the recorded diagnostics newest first with exit 1, or the sorted lines printed |
| List.ListPlugins | src/command/list.rs:14-64 | the loop's failure is returned; recorded diagnostics are written newest first and exit 1 before anything is printed; otherwise the sorted lines are printed |
| List.ListPrintsIffAllClean | src/command/list.rs:14-64 | `list` prints iff every manifest is read, accepted, passes its checks and has a package, and then prints one sorted line per plugin; it exits 1 iff all are accepted but one is not clean |
| List.ListCommand | src/command/list.rs:10-13 | a project-root or config failure ends the command before anything is printed (the same code also at src/main.rs:279-336) |
| New.PluginKey | src/command/new.rs:35-39 | the key starts with `reaper_` and ends with the package name, and equals the package name iff that already has the prefix |
| New.PluginKeyIdempotent | src/command/new.rs:35-39 | deriving the key twice is deriving it once |
| New.DeclaredKey | src/command/new.rs:40-47 | the key read back has the length the fixed header and tail leave |
| New.DeclaredKeyRoundTrip | src/command/new.rs:40-47 | the `reaper.toml` text declares exactly the key it was made with, and only that text declares it |
| New.GeneratedKeyAccepted | src/command/new.rs:35-47 | the key `new` writes is the plugin key and passes `validate_plugin`'s prefix check |
| New.LegacyKeyRejected | src/main.rs:1019-1086 | the older copy writes the package name `hello` as the key, which `validate_plugin` rejects with the prefix check |
| New.RenameNames | src/command/new.rs:79-88 | tables and keys are unchanged; only existing `package.name` and `lib.name` become the package name |
| New.RenameNamesIdempotent | src/command/new.rs:79-88 | renaming twice is renaming once |
| New.InstallOutcome | src/command/new.rs:49-73 | the template fetched, moved in (which fails when the temporary directory is on another file system than the destination), and cleaned of `.git` and `.gitignore`, stopping at the first failed stage |
| New.CrossDeviceMoveFails | src/command/new.rs:52-64 | a template extracted on another file system than the destination is never installed: `new` stops at the move with the file system unchanged |
| New.RewriteOutcome | src/command/new.rs:75-90 | `Cargo.toml` read, parsed, renamed and written, stopping at the first failed stage |
| New.FilesOutcome | src/command/new.rs:90-98 | `reaper.toml` and `.gitignore` written, then the repository `gix::init` made placed at `.git`, stopping at the first failed stage |
| New.ScaffoldOutcome | src/command/new.rs:49-98 | the three phases in order, stopping at the first failure |
| New.Install | src/command/new.rs:49-73 | moving the template in and removing `.git` and `.gitignore` leave the state and the failed stage of `InstallOutcome` |
| New.RewriteManifest | src/command/new.rs:75-90 | reading, parsing, renaming and writing `Cargo.toml` leave the state and the failed stage of `RewriteOutcome` |
| New.WriteProjectFiles | src/command/new.rs:91-98 | writing `reaper.toml` and `.gitignore` and running `gix::init` leave the state and failed stage of `FilesOutcome`, and a `gix` failure has the "failed to initialize" message |
| New.FilesWritten | src/command/new.rs:91-98 | a finished run of that phase leaves `reaper.toml` and `.gitignore` with their texts and the repository at `.git`, and touches nothing else |
| New.ConfigureOutcome | src/command/new.rs:75-98 | configuring fails only at one of its own stages (reading, parsing or writing `Cargo.toml`, writing `reaper.toml` or `.gitignore`, `gix::init`), and never succeeds when `gix::init` fails |
| New.Configure | src/command/new.rs:75-98 | the two phases together give `ConfigureOutcome` |
| New.Scaffold | src/command/new.rs:49-98 | all of `new_from_template` gives `ScaffoldOutcome` |
| New.Installed | src/command/new.rs:64-73 | a complete install implies the move stayed on one file system; nothing outside the destination changed, and the template's files are in place except `.git` and `.gitignore` |
| New.Configured | src/command/new.rs:75-98 | after complete configuration the three project files hold their contents, the repository `gix::init` created is at `.git`, and nothing else changed |
| New.RepoFilesUnder | src/command/new.rs:94 | the repository lies in the destination |
| New.ProjectFilesUnder | src/command/new.rs:90-92 | the project files lie in the destination |
| New.ScaffoldedProject | src/command/new.rs:49-98 | a finished run implies the template and the repository were had and the move stayed on one file system, and leaves `Cargo.toml` renamed, `reaper.toml` declaring the key, `.gitignore` holding exactly `/target`, the repository `gix::init` created at `.git`, the rest of the template in place and nothing outside the destination changed |
| New.NewFromTemplate | src/command/new.rs:28-101 | `new_from_template` with the `reaper_` key in `reaper.toml` |
| New.LegacyNewFromTemplate | src/main.rs:1019-1086 | the older copy, with the package name as the key |
| New.PackageName | src/command/new.rs:10-15 | the package name is the path's last component, and a path without one is an error |
| New.NewCommand | src/command/new.rs:5-26 | an existing path is an error before anything else; an empty path has no package name; otherwise the "Creating" line is printed, the project is scaffolded, and a failure is wrapped in "failed to create new REAPER extension plugin project" |

## Left out

- Real process control: `spawn`, `try_wait`, `kill`, `wait`, `sleep`, `Instant` and `process::exit` are observations (`Child`, `Tick`) and outcomes (`Exit`). Time is whole seconds in each tick. Supervision over a finite sequence of ticks that runs out without a decision ends in `OutOfTicks`, which the Rust loop never reaches.
- Running `xdotool` and `xvfb-run`: only their command lines and the locator's three possible answers are modelled.
- TOML, `cargo_toml` and `toml_edit` parsing and rendering: these are the function parameters `parseConfig`, `parseManifest`, `parseDoc` and `renderDoc`. The `Cargo.toml` document is a map of tables of string values.
- `codespan_reporting` rendering and `colored` styling: diagnostics keep their message, labels and files, and the order in which they are emitted. `Emit`'s write failure is the `failAt` parameter, and the commands always pass `None`.
- Spans count characters of `seq<char>`; the Rust spans count UTF-8 bytes. The two agree on ASCII text.
- Downloading and unpacking the template (reqwest, zip, tempfile, `read_dir`): the unpacked tree is the `template` parameter. `gix::init` is the `gitInit` parameter: the tree it creates in `.git`, or its error; what that tree holds is not modelled.
- The `new` path argument is a sequence of components below the working directory. Absolute paths and `.`/`..` components are not modelled.
- src/cli.rs, build.rs and the shell-completion generation: declarative clap definitions.
- src/command/link.rs: its `symlink_plugin` is not part of this model.
- The templates under templates/: REAPER and VST bindings.
- Platform `cfg` selection: the OS is a parameter, and so is the Windows architecture of the default install path.
- The Windows privilege-error message that `symlink_plugin` maps a permission error to. Permission errors are not modelled at all.
- The `tokio` runtime, and the rendering of errors: `anyhow`'s `Debug` rendering of error chains, `io::Error`'s `Debug` rendering (`{err:?}`, `{err:#?}`: a struct with code, kind and message) and its `Display` suffix ` (os error N)`. Only the message text is kept, so Fs.CreateSymlinkError, Fs.RenameError and the other I/O errors carry the bare OS message.
- The per-plugin progress lines of `build` and `clean` (`Removing`, the `Built` notes) and the `Removed N symlink(s)` summary. The count itself is modelled (`CleanReport.removed`).
- Symlinks are resolved one level deep by `Exists`, `IsFile` and `IsDir`.
- Fs.FileSystem.WriteFile: a write to a symlink replaces the link rather than writing through it.
- Fs.FileSystem.RenameEntry: renaming a directory moves only its own entry, not the entries below it. Its one caller renames a build artifact, which is a file.
- Config.Resolved: `..` is resolved by name, as if no symlink lay on the way. A relative directory's messages show the resolved path, where Rust displays the path as written (`././Cargo.toml`).
- `HashMap` iteration order is one fixed order of distinct keys, the same on every walk over one unchanged map. `clean` collects the selected plugins into a new `HashMap<String, PathBuf>` (src/command/clean.rs:27-35), whose order need not be the config map's. The model walks the config's order, so "the first failing manifest" and the order of the `-p` arguments are those of one possible order.
- `cargo_toml`'s `complete_from_path_and_workspace` (src/command/list.rs:31-33, src/command/clean.rs:76-78), which reads the workspace's files to fill in inherited package fields and targets: it is taken to be part of `parseManifest` and is not modelled.
- Text.SortStrings: the in-place `sort()` is modelled as a function on values. By `Text.SortedUnique` any sort gives the same sequence.
- Config.Load: the Rust code deserialises into a struct and then sets `file` and `contents` in place. The model builds the finished value at once.
- List.ListCommand: its own contract only covers the project-root and config failures and the printed case. The full outcome once the config is loaded is `List.ListPlugins`'s contract.
- Clean.CleanCommand: its own contract only covers the failures before the config is loaded and the shape of the result. The full outcome is `Clean.CleanProject`'s contract.
- Build.BuildCommand: its own contract only covers the failures before cargo runs and the command run. The full outcome is `Build.BuildProject`'s contract.
- The `main.rs` `New` branch is `New.NewCommand` with `New.LegacyNewFromTemplate` in place of `New.NewFromTemplate`. The branch itself has no member of its own.
- The `main.rs` `List` branch creates its emitter before loading the config. This has no observable effect and is not modelled separately.
- The diagnostics `build` records while validating are never emitted. Build.BuildPlugin does not state what the emitter holds, only that it stays valid.

## Findings

| source | as written | input that shows it | evidently intended | confidence | as-written member | corrected member |
|---|---|---|---|---|---|---|
| src/main.rs:1019-1086 | the older `new_from_template` writes the package name itself as the key under `[extension_plugins]` in `reaper.toml` | package name `hello`: the key written is `hello`, and `validate_plugin` then rejects it for lacking the `reaper_` prefix | write the plugin key, with `reaper_` put in front when it is missing, as src/command/new.rs:35-47 does | not executed | New.LegacyKeyRejected | New.GeneratedKeyAccepted |
