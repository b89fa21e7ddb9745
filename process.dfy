/** What the model keeps of `std::process`: the commands spawned and the statuses they end with. */
module Process {
  import opened Wrappers

  /** `ExitStatus`: the exit code, or none when a signal ended the process. */
  datatype ExitStatus = ExitStatus(code: Option<int>) {
    predicate Success() { code == Some(0) }
  }

  /** A `process::Command` as built: program, arguments in order, and extra environment. */
  datatype Cmd = Cmd(program: string, args: seq<string>, env: seq<(string, string)>)

  /**
   * The status `process::exit` is given when the command's own status was
   * not a success: its code, or 1 when a signal ended it.
   */
  function FailureExitCode(status: ExitStatus): (code: int)
    ensures status.code.Some? ==> code == status.code.value
    ensures status.code.None? ==> code == 1
  {
    status.code.GetOr(1)
  }
}
