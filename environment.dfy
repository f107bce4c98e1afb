/**
 * The world the real driver acts on, reduced to what it can observe: the
 * directories that exist, the ordered record of filesystem and client calls,
 * and the outcome of each call, which the caller supplies.
 */
module Environment {
  import opened Results
  import opened SealfsTypes

  const Client := "sealfs-client"

  /** The error text `CombinedOutput` can report for a child that was already reaped. */
  const NoChildProcesses := "wait: no child processes"

  /** The permission bits `Mount` asks `MkdirAll` for: octal 0750. */
  const MountDirMode := 488

  /** What `os.MkdirAll` or `os.RemoveAll` returned. */
  datatype FsResult = FsOk | FsErr(reason: string)

  /**
   * What `command.CombinedOutput()` returned: the captured output, the error
   * (by its `Error()` text) if any, and what `command.ProcessState.Success()`
   * would answer afterwards.
   */
  datatype ExecResult = ExecResult(output: string, err: Option<string>, processSuccess: bool)

  /** The three ways the driver can read a client run. */
  datatype Verdict =
    | Clean                 // no error at all
    | QuirkSuccess          // "no child processes", yet the process succeeded
    | Failed(cause: Cause)  // anything else, with the error the driver reports

  function ClassifyExec(r: ExecResult): (v: Verdict)
    ensures v.Clean? <==> r.err.None?
    ensures v.QuirkSuccess? <==> r.err == Some(NoChildProcesses) && r.processSuccess
    ensures v.Failed? ==>
      v.cause == (if r.err == Some(NoChildProcesses) then ExitStatus else ErrorText(r.err.value))
  {
    match r.err
    case None => Clean
    case Some(text) =>
      if text != NoChildProcesses then Failed(ErrorText(text))
      else if r.processSuccess then QuirkSuccess
      else Failed(ExitStatus)
  }

  /** One call the driver makes into the operating system. */
  datatype Event =
    | MkdirAll(path: string, mode: int)
    | Exec(command: string, args: seq<string>)
    | RemoveAll(path: string)

  /** Existing directories and every call made so far, oldest first. */
  datatype Host = Host(dirs: set<string>, trace: seq<Event>)

  /** The value an operation returns and the host it leaves behind. */
  datatype Step<+R> = Step(result: R, host: Host)
}
