/**
 * `src/command/run.rs`: choosing the REAPER executable and supervising the
 * spawned child. The child is an oracle: what spawning it, polling it,
 * killing it and waiting for it give, and one observation per iteration of
 * the polling loop (what the window locator reported, what the poll gave and
 * how many seconds had elapsed since the clock started). Every side effect
 * is recorded as an `Action`, so the order of locate, poll, kill, wait and
 * sleep can be stated.
 */
module Run {
  import opened Wrappers
  import opened Process
  import Text
  import Platform
  import opened Fs

  /** The binary name `which` looks up on `PATH`. */
  const BINARY_NAME: string := "reaper"

  /** The seconds each non-terminal iteration of a polling loop sleeps. */
  const POLL_INTERVAL: nat := 1

  const RUN_FAILED: string := "While attempting to run REAPER executable: "

  /** What `xdotool search --name <title>` reported: success, no match, or a failure to run it. */
  datatype Locate = WindowFound | WindowMissing | LocatorFailed

  /** What `try_wait` gave. */
  datatype Poll = Exited(status: ExitStatus) | StillRunning | PollFailed(error: string)

  /** One iteration's observations. */
  datatype Tick = Tick(locate: Locate, poll: Poll, elapsed: nat)

  /** The spawned child, as far as its supervisor can see it. */
  datatype Child = Child(spawn: Result<(), string>, ticks: seq<Tick>, kill: Result<(), string>, wait: Result<ExitStatus, string>)

  datatype Action = Spawn(cmd: Cmd) | StartClock | LocateWindow(title: string) | TryWait | Kill | Wait | Sleep(seconds: nat)

  /**
   * How supervision ends: the status the closure returns (an I/O error
   * included), a `process::exit` with a code, or, in the model only, the
   * observations ran out before the loop decided.
   */
  datatype Outcome = Finished(status: Result<ExitStatus, string>) | Exit(code: int) | OutOfTicks

  datatype Supervision = Supervision(outcome: Outcome, trace: seq<Action>)

  /** One iteration either decides the outcome or goes on to the next. */
  datatype Step = Stop(outcome: Outcome, actions: seq<Action>) | Continue(actions: seq<Action>)

  /** Killing the child once the window was found: kill, reap, then exit with 0. */
  function WindowFoundStop(kill: Result<(), string>, wait: Result<ExitStatus, string>): Step {
    if kill.Err? then Stop(Finished(Err(kill.error)), [Kill])
    else if wait.Err? then Stop(Finished(Err(wait.error)), [Kill, Wait])
    else Stop(Exit(0), [Kill, Wait])
  }

  /** Killing the child at the deadline: kill, reap, then exit with 1 when a title was watched, else return the reaped status. */
  function DeadlineStop(watching: bool, kill: Result<(), string>, wait: Result<ExitStatus, string>): Step {
    if kill.Err? then Stop(Finished(Err(kill.error)), [Kill])
    else if watching then Stop(Exit(1), [Kill, Wait])
    else Stop(Finished(wait), [Kill, Wait])
  }

  /** What an iteration does after the window check. */
  function PollStep(watching: bool, timeout: nat, tick: Tick, kill: Result<(), string>, wait: Result<ExitStatus, string>): Step {
    match tick.poll
    case PollFailed(e) => Stop(Finished(Err(e)), [TryWait])
    case Exited(status) => Stop(if watching then Exit(1) else Finished(Ok(status)), [TryWait])
    case StillRunning =>
      if tick.elapsed >= timeout then
        var s := DeadlineStop(watching, kill, wait);
        Stop(s.outcome, [TryWait] + s.actions)
      else Continue([TryWait, Sleep(POLL_INTERVAL)])
  }

  /** One iteration of the polling loop; the window is looked for first, and only when a title is given. */
  function IterationStep(title: Option<string>, timeout: nat, tick: Tick, kill: Result<(), string>, wait: Result<ExitStatus, string>): Step {
    if title.None? then PollStep(false, timeout, tick, kill, wait)
    else if tick.locate == WindowFound then
      var s := WindowFoundStop(kill, wait);
      Stop(s.outcome, [LocateWindow(title.value)] + s.actions)
    else
      match PollStep(true, timeout, tick, kill, wait)
      case Stop(o, acts) => Stop(o, [LocateWindow(title.value)] + acts)
      case Continue(acts) => Continue([LocateWindow(title.value)] + acts)
  }

  /** The polling loop over the remaining observations. */
  function Loop(title: Option<string>, timeout: nat, ticks: seq<Tick>, kill: Result<(), string>, wait: Result<ExitStatus, string>): Supervision
    decreases |ticks|
  {
    if |ticks| == 0 then Supervision(OutOfTicks, [])
    else
      var step := IterationStep(title, timeout, ticks[0], kill, wait);
      if step.Stop? then Supervision(step.outcome, step.actions)
      else
        var rest := Loop(title, timeout, ticks[1..], kill, wait);
        Supervision(rest.outcome, step.actions + rest.trace)
  }

  /**
   * The body of the `map_or_else` arm that runs a resolved executable:
   * without a timeout the child is spawned and waited on; with one the clock
   * starts once the spawn succeeded and the polling loop runs. `title` is the
   * window title of headless mode and is `None` in the foreground, whose loop
   * is the headless loop without a title.
   */
  function Supervised(cmd: Cmd, title: Option<string>, timeout: Option<nat>, child: Child): Supervision {
    if child.spawn.Err? then Supervision(Finished(Err(child.spawn.error)), [Spawn(cmd)])
    else if timeout.None? then Supervision(Finished(child.wait), [Spawn(cmd), Wait])
    else
      var l := Loop(title, timeout.value, child.ticks, child.kill, child.wait);
      Supervision(l.outcome, [Spawn(cmd), StartClock] + l.trace)
  }

  /** One pass of a polling loop's body: the window check when a title is given, then the poll. */
  method SuperviseTick(title: Option<string>, timeout: nat, tick: Tick, kill: Result<(), string>, wait: Result<ExitStatus, string>)
    returns (step: Step)
    ensures step == IterationStep(title, timeout, tick, kill, wait)
  {
    var actions: seq<Action> := [];
    if title.Some? {
      actions := [LocateWindow(title.value)];
      if tick.locate == WindowFound {
        var stop := WindowFoundStop(kill, wait);
        return Stop(stop.outcome, actions + stop.actions);
      }
    }
    actions := actions + [TryWait];
    match tick.poll {
      case PollFailed(e) =>
        return Stop(Finished(Err(e)), actions);
      case Exited(status) =>
        if title.Some? {
          return Stop(Exit(1), actions);
        }
        return Stop(Finished(Ok(status)), actions);
      case StillRunning =>
        if tick.elapsed >= timeout {
          var stop := DeadlineStop(title.Some?, kill, wait);
          return Stop(stop.outcome, actions + stop.actions);
        }
    }
    return Continue(actions + [Sleep(POLL_INTERVAL)]);
  }

  /** The polling loop: one `SuperviseTick` per observation until one stops it. */
  method PollLoop(title: Option<string>, timeout: nat, ticks: seq<Tick>, kill: Result<(), string>, wait: Result<ExitStatus, string>)
    returns (outcome: Outcome, trace: seq<Action>)
    ensures Supervision(outcome, trace) == Loop(title, timeout, ticks, kill, wait)
  {
    ghost var whole := Loop(title, timeout, ticks, kill, wait);
    trace := [];
    var rest := ticks;
    while rest != []
      invariant whole == Supervision(Loop(title, timeout, rest, kill, wait).outcome, trace + Loop(title, timeout, rest, kill, wait).trace)
      decreases |rest|
    {
      var step := SuperviseTick(title, timeout, rest[0], kill, wait);
      if step.Stop? {
        return step.outcome, trace + step.actions;
      }
      Text.ConcatAssoc(trace, step.actions, Loop(title, timeout, rest[1..], kill, wait).trace);
      trace := trace + step.actions;
      rest := rest[1..];
    }
    return OutOfTicks, trace;
  }

  /** The supervision loops of `run`, `run_headless`, `run_global_default` and `run_global_default_headless`. */
  method Supervise(cmd: Cmd, title: Option<string>, timeout: Option<nat>, child: Child) returns (outcome: Outcome, trace: seq<Action>)
    ensures Supervision(outcome, trace) == Supervised(cmd, title, timeout, child)
  {
    trace := [Spawn(cmd)];
    if child.spawn.Err? {
      return Finished(Err(child.spawn.error)), trace;
    }
    if timeout.None? {
      return Finished(child.wait), trace + [Wait];
    }
    var loopTrace;
    outcome, loopTrace := PollLoop(title, timeout.value, child.ticks, child.kill, child.wait);
    trace := [Spawn(cmd), StartClock] + loopTrace;
  }

  /** An iteration that neither finds the window, nor sees an exit or a poll error, nor reaches the deadline. */
  predicate Quiet(title: Option<string>, timeout: nat, tick: Tick) {
    (title.None? || tick.locate != WindowFound) && tick.poll == StillRunning && tick.elapsed < timeout
  }

  /** What a quiet iteration does. */
  function QuietActions(title: Option<string>): seq<Action> {
    (if title.Some? then [LocateWindow(title.value)] else []) + [TryWait, Sleep(POLL_INTERVAL)]
  }

  function Repeat(acts: seq<Action>, n: nat): seq<Action> {
    if n == 0 then [] else acts + Repeat(acts, n - 1)
  }

  /** A quiet iteration goes on to the next one, after polling once and sleeping one interval. */
  lemma QuietContinues(title: Option<string>, timeout: nat, tick: Tick, kill: Result<(), string>, wait: Result<ExitStatus, string>)
    ensures IterationStep(title, timeout, tick, kill, wait).Continue? <==> Quiet(title, timeout, tick)
    ensures Quiet(title, timeout, tick) ==> IterationStep(title, timeout, tick, kill, wait) == Continue(QuietActions(title))
  {
  }

  /** Quiet iterations ahead of `rest` only repeat their actions; the loop is then decided by `rest`. */
  lemma {:induction false} QuietRun(title: Option<string>, timeout: nat, quiet: seq<Tick>, rest: seq<Tick>,
                                    kill: Result<(), string>, wait: Result<ExitStatus, string>)
    requires forall i :: 0 <= i < |quiet| ==> Quiet(title, timeout, quiet[i])
    ensures var l := Loop(title, timeout, rest, kill, wait);
      Loop(title, timeout, quiet + rest, kill, wait) == Supervision(l.outcome, Repeat(QuietActions(title), |quiet|) + l.trace)
    decreases |quiet|
  {
    if |quiet| == 0 {
      assert quiet + rest == rest;
    } else {
      var all := quiet + rest;
      assert all[0] == quiet[0] && all[1..] == quiet[1..] + rest;
      QuietContinues(title, timeout, quiet[0], kill, wait);
      QuietRun(title, timeout, quiet[1..], rest, kill, wait);
      Text.ConcatAssoc(QuietActions(title), Repeat(QuietActions(title), |quiet| - 1), Loop(title, timeout, rest, kill, wait).trace);
    }
  }

  /** `k` quiet iterations only repeat their actions; the loop is then decided by what follows. */
  lemma QuietPrefix(title: Option<string>, timeout: nat, ticks: seq<Tick>, k: nat, kill: Result<(), string>, wait: Result<ExitStatus, string>)
    requires k <= |ticks|
    requires forall i :: 0 <= i < k ==> Quiet(title, timeout, ticks[i])
    ensures var rest := Loop(title, timeout, ticks[k..], kill, wait);
      Loop(title, timeout, ticks, kill, wait) == Supervision(rest.outcome, Repeat(QuietActions(title), k) + rest.trace)
  {
    assert ticks == ticks[..k] + ticks[k..];
    QuietRun(title, timeout, ticks[..k], ticks[k..], kill, wait);
  }

  /** What a polling loop never does: spawn, start the clock, or sleep anything but one interval; it looks for a window only when given a title. */
  lemma {:induction false} LoopActions(title: Option<string>, timeout: nat, ticks: seq<Tick>, kill: Result<(), string>, wait: Result<ExitStatus, string>)
    ensures forall a :: a in Loop(title, timeout, ticks, kill, wait).trace ==>
      !a.Spawn? && a != StartClock && (a.Sleep? ==> a.seconds == POLL_INTERVAL)
      && (a.LocateWindow? ==> title == Some(a.title))
    decreases |ticks|
  {
    if |ticks| > 0 {
      LoopActions(title, timeout, ticks[1..], kill, wait);
    }
  }

  /**
   * With no timeout the child is spawned and only waited on: never killed,
   * no clock, no window search even in headless mode, and its wait result is
   * the outcome.
   */
  lemma NoTimeoutOnlyWaits(cmd: Cmd, title: Option<string>, child: Child)
    ensures var s := Supervised(cmd, title, None, child);
      && s.trace == (if child.spawn.Ok? then [Spawn(cmd), Wait] else [Spawn(cmd)])
      && s.outcome == (if child.spawn.Ok? then Finished(child.wait) else Finished(Err(child.spawn.error)))
      && Kill !in s.trace
  {
  }

  /** With a timeout, the clock starts right after the spawn and only when the spawn succeeded. */
  lemma ClockStartsAfterSpawn(cmd: Cmd, title: Option<string>, timeout: nat, child: Child)
    ensures var s := Supervised(cmd, title, Some(timeout), child);
      && s.trace[0] == Spawn(cmd)
      && (StartClock in s.trace <==> child.spawn.Ok?)
      && (child.spawn.Ok? ==> s.trace[1] == StartClock && forall i :: 2 <= i < |s.trace| ==> s.trace[i] != StartClock)
  {
    LoopActions(title, timeout, child.ticks, child.kill, child.wait);
    var s := Supervised(cmd, title, Some(timeout), child);
    if child.spawn.Ok? {
      var l := Loop(title, timeout, child.ticks, child.kill, child.wait);
      assert forall i :: 2 <= i < |s.trace| ==> s.trace[i] == l.trace[i - 2];
    }
  }

  /** Foreground (no title): a child that exits while the deadline is not yet reached yields its status, with no kill. */
  lemma ExitBeforeDeadline(timeout: nat, ticks: seq<Tick>, k: nat, kill: Result<(), string>, wait: Result<ExitStatus, string>)
    requires k < |ticks| && forall i :: 0 <= i < k ==> Quiet(None, timeout, ticks[i])
    requires ticks[k].poll.Exited?
    ensures var l := Loop(None, timeout, ticks, kill, wait);
      l.outcome == Finished(Ok(ticks[k].poll.status))
      && l.trace == Repeat(QuietActions(None), k) + [TryWait]
      && Kill !in l.trace
  {
    QuietPrefix(None, timeout, ticks, k, kill, wait);
    RepeatQuietHasNoKill(None, k);
  }

  /**
   * Foreground: once a poll finds the child still running at or after the
   * deadline, it is killed and then reaped, and the reaped status ends the
   * loop (a failed kill ends it with that error, before any wait).
   */
  lemma DeadlineKillsThenReaps(timeout: nat, ticks: seq<Tick>, k: nat, kill: Result<(), string>, wait: Result<ExitStatus, string>)
    requires k < |ticks| && forall i :: 0 <= i < k ==> Quiet(None, timeout, ticks[i])
    requires ticks[k].poll == StillRunning && ticks[k].elapsed >= timeout
    ensures var l := Loop(None, timeout, ticks, kill, wait);
      && (kill.Ok? ==> l.outcome == Finished(wait) && l.trace == Repeat(QuietActions(None), k) + [TryWait, Kill, Wait])
      && (kill.Err? ==> l.outcome == Finished(Err(kill.error)) && l.trace == Repeat(QuietActions(None), k) + [TryWait, Kill])
  {
    QuietPrefix(None, timeout, ticks, k, kill, wait);
  }

  /**
   * Headless with a title: the iteration whose search finds the window kills
   * and reaps the child and exits with 0. The window check comes before the
   * poll, so this holds whatever the poll of that iteration would have given,
   * an exit included.
   */
  lemma WindowFoundExitsZero(title: string, timeout: nat, ticks: seq<Tick>, k: nat, kill: Result<(), string>, wait: Result<ExitStatus, string>)
    requires k < |ticks| && forall i :: 0 <= i < k ==> Quiet(Some(title), timeout, ticks[i])
    requires ticks[k].locate == WindowFound && kill.Ok? && wait.Ok?
    ensures var l := Loop(Some(title), timeout, ticks, kill, wait);
      l.outcome == Exit(0) && l.trace == Repeat(QuietActions(Some(title)), k) + [LocateWindow(title), Kill, Wait]
  {
    QuietPrefix(Some(title), timeout, ticks, k, kill, wait);
  }

  /**
   * Headless with a title that the search does not find: a natural exit
   * exits with 1, and so does reaching the deadline, after a kill and a reap
   * whatever the reap gave.
   */
  lemma WindowMissingExitsOne(title: string, timeout: nat, ticks: seq<Tick>, k: nat, kill: Result<(), string>, wait: Result<ExitStatus, string>)
    requires k < |ticks| && forall i :: 0 <= i < k ==> Quiet(Some(title), timeout, ticks[i])
    requires ticks[k].locate != WindowFound
    ensures var l := Loop(Some(title), timeout, ticks, kill, wait);
      var before := Repeat(QuietActions(Some(title)), k) + [LocateWindow(title), TryWait];
      && (ticks[k].poll.Exited? ==> l.outcome == Exit(1) && l.trace == before)
      && (ticks[k].poll == StillRunning && ticks[k].elapsed >= timeout && kill.Ok?
          ==> l.outcome == Exit(1) && l.trace == before + [Kill, Wait])
  {
    QuietPrefix(Some(title), timeout, ticks, k, kill, wait);
  }

  /** A poll that fails ends the loop with its error, wrapped later by the caller. */
  lemma PollFailureEnds(title: Option<string>, timeout: nat, ticks: seq<Tick>, k: nat, kill: Result<(), string>, wait: Result<ExitStatus, string>)
    requires k < |ticks| && forall i :: 0 <= i < k ==> Quiet(title, timeout, ticks[i])
    requires (title.None? || ticks[k].locate != WindowFound) && ticks[k].poll.PollFailed?
    ensures Loop(title, timeout, ticks, kill, wait).outcome == Finished(Err(ticks[k].poll.error))
  {
    QuietPrefix(title, timeout, ticks, k, kill, wait);
  }

  function TreatFailedAsMissing(tick: Tick): Tick {
    if tick.locate == LocatorFailed then tick.(locate := WindowMissing) else tick
  }

  function TreatAllFailedAsMissing(ticks: seq<Tick>): (r: seq<Tick>)
    ensures |r| == |ticks| && forall i :: 0 <= i < |ticks| ==> r[i] == TreatFailedAsMissing(ticks[i])
  {
    if |ticks| == 0 then [] else [TreatFailedAsMissing(ticks[0])] + TreatAllFailedAsMissing(ticks[1..])
  }

  /** A search that fails to run counts as not finding the window: the loop cannot tell the two apart. */
  lemma {:induction false} LocatorFailureIsMissing(title: Option<string>, timeout: nat, ticks: seq<Tick>, kill: Result<(), string>, wait: Result<ExitStatus, string>)
    ensures Loop(title, timeout, ticks, kill, wait) == Loop(title, timeout, TreatAllFailedAsMissing(ticks), kill, wait)
    decreases |ticks|
  {
    if |ticks| > 0 {
      var n := TreatAllFailedAsMissing(ticks);
      assert n[1..] == TreatAllFailedAsMissing(ticks[1..]);
      LocatorFailureIsMissing(title, timeout, ticks[1..], kill, wait);
    }
  }

  /**
   * With a clock that advances exactly one interval per iteration and a
   * child that never exits, the foreground loop polls `timeout + 1` times and
   * kills at the poll where the elapsed time first reaches the timeout.
   */
  lemma IdealClockKillsAtTimeout(timeout: nat, ticks: seq<Tick>, kill: Result<(), string>, wait: Result<ExitStatus, string>)
    requires timeout < |ticks|
    requires forall i :: 0 <= i < |ticks| ==> ticks[i].poll == StillRunning && ticks[i].elapsed == i * POLL_INTERVAL
    requires kill.Ok?
    ensures var l := Loop(None, timeout, ticks, kill, wait);
      l.outcome == Finished(wait) && l.trace == Repeat([TryWait, Sleep(POLL_INTERVAL)], timeout) + [TryWait, Kill, Wait]
  {
    assert forall i :: 0 <= i < timeout ==> Quiet(None, timeout, ticks[i]);
    assert QuietActions(None) == [TryWait, Sleep(POLL_INTERVAL)];
    DeadlineKillsThenReaps(timeout, ticks, timeout, kill, wait);
  }

  lemma {:induction false} RepeatQuietHasNoKill(title: Option<string>, n: nat)
    ensures Kill !in Repeat(QuietActions(title), n)
    decreases n
  {
    if n > 0 {
      RepeatQuietHasNoKill(title, n - 1);
    }
  }

  // ---- Choosing the executable and reporting ----

  /** `run` in the foreground, or `run_headless` with its display and window title. */
  datatype Mode = Foreground | Headless(display: string, windowTitle: Option<string>)

  /** A lookup the resolver made: `which(BINARY_NAME)`, then `locate_global_default`. */
  datatype Lookup = WhichLookup | GlobalDefaultLookup

  /** What the command returns: its `Result`, a `process::exit`, or (in the model) undecided once the observations ran out. */
  datatype RunResult = Returned(result: Result<(), string>) | ProcessExit(code: int) | Pending

  datatype Launch = Launch(lookups: seq<Lookup>, messages: seq<string>, supervision: Supervision, result: RunResult)

  function ProjectArgs(project: Option<string>): seq<string> {
    if project.Some? then [project.value] else []
  }

  /** `run_reaper` runs the executable itself; `run_reaper_headless` wraps it in `xvfb-run -a` under `DISPLAY`. */
  function LaunchCommand(mode: Mode, exe: string, project: Option<string>): (c: Cmd)
    ensures |c.args| >= |ProjectArgs(project)| && c.args[|c.args| - |ProjectArgs(project)|..] == ProjectArgs(project)
    ensures mode.Foreground? ==> c.program == exe && c.args == ProjectArgs(project) && c.env == []
    ensures mode.Headless? ==> c.program == "xvfb-run" && c.args == ["-a", exe] + ProjectArgs(project) && c.env == [("DISPLAY", mode.display)]
  {
    match mode
    case Foreground => Cmd(exe, ProjectArgs(project), [])
    case Headless(display, _) => Cmd("xvfb-run", ["-a", exe] + ProjectArgs(project), [("DISPLAY", display)])
  }

  /**
   * The headless command is the foreground one handed to `xvfb-run -a`:
   * the foreground program and its arguments follow `-a` unchanged, and
   * only `DISPLAY` is added to the environment.
   */
  lemma HeadlessWrapsForeground(display: string, title: Option<string>, exe: string, project: Option<string>)
    ensures var fg := LaunchCommand(Foreground, exe, project);
      var hl := LaunchCommand(Headless(display, title), exe, project);
      && hl.args == ["-a", fg.program] + fg.args
      && hl.program == "xvfb-run" && hl.env == fg.env + [("DISPLAY", display)]
  {
    var fg := LaunchCommand(Foreground, exe, project);
    assert fg.env == [];
  }

  function WindowTitle(mode: Mode): Option<string> {
    if mode.Headless? then mode.windowTitle else None
  }

  const WARNING: string := "warning: "
  const INDENT: string := "     "

  predicate IsWarning(message: string) {
    Text.StartsWith(message, WARNING)
  }

  /** A status line: `pre`, then `phrase`, then the executable in parentheses at the end. */
  predicate Names(m: string, pre: string, phrase: string, exe: string) {
    && Text.StartsWith(m, pre) && Text.OccursAt(m, phrase, |pre|)
    && Text.EndsWith(m, "(" + exe + ")") && Text.Contains(m, exe)
    && |m| == |pre| + |phrase| + |exe| + 2
  }

  lemma StatusLine(pre: string, phrase: string, exe: string)
    ensures Names(pre + (phrase + "(" + exe + ")"), pre, phrase, exe)
  {
    var m := pre + (phrase + "(" + exe + ")");
    assert m[..|pre|] == pre;
    assert m[|pre|..|pre| + |phrase|] == phrase;
    assert m[|m| - |"(" + exe + ")"|..] == "(" + exe + ")";
    assert Text.OccursAt(m, exe, |pre| + |phrase| + 1) by {
      assert m[|pre| + |phrase| + 1..|pre| + |phrase| + 1 + |exe|] == exe;
    }
  }

  const OVERRIDE_PHRASE: string := "overridng REAPER executable path "
  const RUNNING_PHRASE: string := "Running REAPER executable "
  const RUNNING_DEFAULT_PHRASE: string := "Running global default REAPER executable "

  /** The warning for an executable given on the command line. */
  function OverrideWarning(exe: string): (m: string)
    ensures IsWarning(m) && Names(m, WARNING, OVERRIDE_PHRASE, exe)
  {
    StatusLine(WARNING, OVERRIDE_PHRASE, exe);
    WARNING + (OVERRIDE_PHRASE + "(" + exe + ")")
  }

  /** The status line for a configured or overriding executable. */
  function RunningMessage(exe: string): (m: string)
    ensures !IsWarning(m) && Names(m, INDENT, RUNNING_PHRASE, exe)
  {
    var m := INDENT + (RUNNING_PHRASE + "(" + exe + ")");
    StatusLine(INDENT, RUNNING_PHRASE, exe);
    assert m[0] == INDENT[0] == ' ' && WARNING[0] == 'w';
    m
  }

  /** The status line for the platform's default executable. */
  function RunningDefaultMessage(exe: string): (m: string)
    ensures !IsWarning(m) && Names(m, INDENT, RUNNING_DEFAULT_PHRASE, exe)
  {
    var m := INDENT + (RUNNING_DEFAULT_PHRASE + "(" + exe + ")");
    StatusLine(INDENT, RUNNING_DEFAULT_PHRASE, exe);
    assert m[0] == INDENT[0] == ' ' && WARNING[0] == 'w';
    m
  }

  /** The two status lines never coincide, whatever the executables. */
  lemma RunningMessagesDiffer(a: string, b: string)
    ensures RunningMessage(a) != RunningDefaultMessage(b)
  {
    var k := |INDENT| + 8;
    assert RunningMessage(a)[k] == RUNNING_PHRASE[8] == 'R';
    assert RunningDefaultMessage(b)[k] == RUNNING_DEFAULT_PHRASE[8] == 'g';
  }

  /** The closure's `io::Result` becomes the command's `anyhow::Result`; the exit status itself is dropped. */
  function Report(outcome: Outcome): (r: RunResult)
    ensures r == Returned(Ok(())) <==> outcome.Finished? && outcome.status.Ok?
    ensures r.Returned? && r.result.Err? <==> outcome.Finished? && outcome.status.Err?
    ensures outcome.Finished? && outcome.status.Err? ==> r.result.error == RUN_FAILED + outcome.status.error
    ensures r.ProcessExit? <==> outcome.Exit?
    ensures r.ProcessExit? ==> r.code == outcome.code
  {
    match outcome
    case Finished(Ok(_)) => Returned(Ok(()))
    case Finished(Err(e)) => Returned(Err(RUN_FAILED + e))
    case Exit(code) => ProcessExit(code)
    case OutOfTicks => Pending
  }

  /**
   * `run` and `run_headless`. `which` is what `which::which(BINARY_NAME)`
   * gives and `globalDefault` what `util::os::locate_global_default` gives;
   * each is consulted only when everything before it in the chain is absent.
   */
  function RunReaper(mode: Mode, override: Option<string>, which: Option<string>, globalDefault: Result<string, string>,
                     project: Option<string>, timeout: Option<nat>, child: Child): (r: Launch)
    ensures WhichLookup in r.lookups <==> override.None?
    ensures GlobalDefaultLookup in r.lookups <==> override.None? && which.None?
    ensures (exists i :: 0 <= i < |r.messages| && IsWarning(r.messages[i])) <==> override.Some?
    ensures override.Some? ==> r.messages[0] == OverrideWarning(override.value)
    ensures override.Some? ==> r.supervision == Supervised(LaunchCommand(mode, override.value, project), WindowTitle(mode), timeout, child)
    ensures override.None? && which.Some? ==> r.supervision == Supervised(LaunchCommand(mode, which.value, project), WindowTitle(mode), timeout, child)
    ensures override.None? && which.None? && globalDefault.Ok? ==>
      r.supervision == Supervised(LaunchCommand(mode, globalDefault.value, project), WindowTitle(mode), timeout, child)
    ensures override.None? && which.None? && globalDefault.Err? ==>
      r.supervision.trace == [] && r.result == Returned(Err(RUN_FAILED + globalDefault.error))
    ensures r.result == Report(r.supervision.outcome)
  {
    if override.Some? then
      var s := Supervised(LaunchCommand(mode, override.value, project), WindowTitle(mode), timeout, child);
      var messages := [OverrideWarning(override.value), RunningMessage(override.value)];
      assert IsWarning(messages[0]);
      Launch([], messages, s, Report(s.outcome))
    else if which.Some? then
      var s := Supervised(LaunchCommand(mode, which.value, project), WindowTitle(mode), timeout, child);
      Launch([WhichLookup], [RunningMessage(which.value)], s, Report(s.outcome))
    else if globalDefault.Err? then
      var s := Supervision(Finished(Err(globalDefault.error)), []);
      Launch([WhichLookup, GlobalDefaultLookup], [], s, Report(s.outcome))
    else
      var s := Supervised(LaunchCommand(mode, globalDefault.value, project), WindowTitle(mode), timeout, child);
      Launch([WhichLookup, GlobalDefaultLookup], [RunningDefaultMessage(globalDefault.value)], s, Report(s.outcome))
  }

  /** Whatever status REAPER ends with, a run that reaps it returns `Ok(())`. */
  lemma AnyStatusIsOk(mode: Mode, override: Option<string>, which: Option<string>, globalDefault: Result<string, string>,
                      project: Option<string>, child: Child)
    requires child.spawn.Ok? && child.wait.Ok?
    requires override.Some? || which.Some? || globalDefault.Ok?
    ensures RunReaper(mode, override, which, globalDefault, project, None, child).result == Returned(Ok(()))
  {
    var r := RunReaper(mode, override, which, globalDefault, project, None, child);
    assert r.supervision.outcome == Finished(child.wait);
  }

  // ---- The older `_run` of `src/main.rs` ----

  /** The Windows architectures `cfg(target_arch)` picks a default install path for. */
  datatype Arch = X86_64 | X86 | Aarch64

  function WindowsDefaultPath(arch: Arch): string {
    match arch
    case X86_64 => "C:\\Program Files\\REAPER (x64)\\reaper.exe"
    case X86 => "C:\\Program Files (x86)\\REAPER\\reaper.exe"
    case Aarch64 => "C:\\Program Files\\REAPER (ARM64)\\reaper.exe"
  }

  const NOT_INSTALLED: string := "Unable to locate REAPER executable. Is REAPER installed?\n\nTip: Try overriding the default executable path with `--exec <PATH>`."

  /**
   * The global-default closure each OS's `run` hands to `_run`, up to the
   * command it launches: Windows' install path when it exists, Linux's
   * `which_global` result (its error becomes a `NotFound`), and
   * `open -a REAPER` on macOS.
   */
  function GlobalDefaultCommand(os: Platform.Os, arch: Arch, defaultExists: bool, whichGlobal: Result<string, string>): (r: Result<Cmd, IoError>)
    ensures r.Err? ==> r.error.kind == NotFound
    ensures os == Platform.Windows ==> (r.Ok? <==> defaultExists)
    ensures os == Platform.Windows && !defaultExists ==> r.error.message == NOT_INSTALLED
    ensures os == Platform.Linux ==> (r.Ok? <==> whichGlobal.Ok?)
    ensures os == Platform.MacOS ==> r == Ok(Cmd("open", ["-a", "REAPER"], []))
  {
    match os
    case Windows => if defaultExists then Ok(Cmd(WindowsDefaultPath(arch), [], [])) else Err(IoError(NotFound, NOT_INSTALLED))
    case Linux => if whichGlobal.Ok? then Ok(Cmd(whichGlobal.value, [], [])) else Err(IoError(NotFound, whichGlobal.error))
    case MacOS => Ok(Cmd("open", ["-a", "REAPER"], []))
  }

  datatype LegacyLaunch = LegacyLaunch(lookups: seq<Lookup>, launched: Option<Cmd>, result: Result<(), string>)

  /**
   * `_run` with each OS's `run`: the same resolution order as `run`, then
   * the chosen command is run to completion (`status` is what that gives,
   * or on macOS what spawning and waiting on `open` gives); any status is
   * `Ok(())`, and an I/O error is wrapped.
   */
  function LegacyRun(os: Platform.Os, arch: Arch, override: Option<string>, which: Option<string>,
                     defaultExists: bool, whichGlobal: Result<string, string>, status: Result<ExitStatus, string>): (r: LegacyLaunch)
    ensures WhichLookup in r.lookups <==> override.None?
    ensures GlobalDefaultLookup in r.lookups <==> override.None? && which.None?
    ensures override.Some? ==> r.launched == Some(Cmd(override.value, [], []))
    ensures override.None? && which.Some? ==> r.launched == Some(Cmd(which.value, [], []))
    ensures override.None? && which.None? ==>
      var d := GlobalDefaultCommand(os, arch, defaultExists, whichGlobal);
      (r.launched.Some? <==> d.Ok?) && (d.Ok? ==> r.launched.value == d.value)
      && (d.Err? ==> r.result == Err(RUN_FAILED + d.error.message))
    ensures r.result.Ok? <==> r.launched.Some? && status.Ok?
    ensures r.result.Err? ==> Text.StartsWith(r.result.error, RUN_FAILED)
  {
    var lookups: seq<Lookup> :=
      if override.Some? then [] else if which.Some? then [WhichLookup] else [WhichLookup, GlobalDefaultLookup];
    var command: Result<Cmd, IoError> :=
      if override.Some? then Ok(Cmd(override.value, [], []))
      else if which.Some? then Ok(Cmd(which.value, [], []))
      else GlobalDefaultCommand(os, arch, defaultExists, whichGlobal);
    if command.Err? then
      Text.StartsWithAppend(RUN_FAILED, command.error.message);
      LegacyLaunch(lookups, None, Err(RUN_FAILED + command.error.message))
    else if status.Err? then
      Text.StartsWithAppend(RUN_FAILED, status.error);
      LegacyLaunch(lookups, Some(command.value), Err(RUN_FAILED + status.error))
    else LegacyLaunch(lookups, Some(command.value), Ok(()))
  }
}
