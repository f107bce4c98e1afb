/**
 * The real driver, `SealfsCli`: it validates a request, runs `sealfs-client`
 * with a fixed argument list, reads the outcome, and keeps the mount
 * directory in step (created before a mount, removed after an unmount).
 *
 * The functions `MountStep` … `ProbeStep` say what each operation returns and
 * how it changes the host; the methods of class `SealfsCli` follow the Go
 * code branch by branch and are proved to agree with them.
 */
module SealfsCli {
  import opened Results
  import opened SealfsTypes
  import opened ClientArgs
  import opened Environment

  function MountStep(h: Host, volumeName: string, mountPath: string, mkdir: FsResult, exec: ExecResult)
    : (s: Step<Outcome<Error>>)
    // validation runs first, the volume name before the path, and touches nothing
    ensures volumeName == "" ==> s == Step(Fail(InvalidArgument(VolumeIdMissing)), h)
    ensures volumeName != "" && mountPath == "" ==> s == Step(Fail(InvalidArgument(TargetPathMissing)), h)
    // the directory is asked for first; a failure there stops before the client
    ensures volumeName != "" && mountPath != "" && mkdir.FsErr? ==>
      s == Step(Fail(FsFailure(CreateMountPath, mountPath, mkdir.reason)),
                Host(h.dirs, h.trace + [MkdirAll(mountPath, MountDirMode)]))
    // the client runs once the directory exists, and the directory stays whatever the client does
    ensures volumeName != "" && mountPath != "" && mkdir.FsOk? ==>
      s.host == Host(h.dirs + {mountPath},
                     h.trace + [MkdirAll(mountPath, MountDirMode), Exec(Client, MountArgs(mountPath, volumeName))])
    ensures s.result.Pass? <==>
      volumeName != "" && mountPath != "" && mkdir.FsOk? && !ClassifyExec(exec).Failed?
    ensures s.result.Pass? ==> mountPath in s.host.dirs
    ensures volumeName != "" && mountPath != "" && mkdir.FsOk? && ClassifyExec(exec).Failed? ==>
      s.result == Fail(ExecFailure("mount", Client, LogStr(MountArgs(mountPath, volumeName)),
                                   ClassifyExec(exec).cause, exec.output))
  {
    if volumeName == "" then Step(Fail(InvalidArgument(VolumeIdMissing)), h)
    else if mountPath == "" then Step(Fail(InvalidArgument(TargetPathMissing)), h)
    else
      var afterMkdir := h.(trace := h.trace + [MkdirAll(mountPath, MountDirMode)]);
      match mkdir
      case FsErr(reason) => Step(Fail(FsFailure(CreateMountPath, mountPath, reason)), afterMkdir)
      case FsOk =>
        var args := MountArgs(mountPath, volumeName);
        var afterExec := Host(afterMkdir.dirs + {mountPath}, afterMkdir.trace + [Exec(Client, args)]);
        match ClassifyExec(exec)
        case Failed(cause) => Step(Fail(ExecFailure("mount", Client, LogStr(args), cause, exec.output)), afterExec)
        case _ => Step(Pass, afterExec)
  }

  function UmountStep(h: Host, mountPath: string, exec: ExecResult, remove: FsResult)
    : (s: Step<Outcome<Error>>)
    ensures mountPath == "" ==> s == Step(Fail(InvalidArgument(TargetPathMissing)), h)
    // the client runs first; only a clean run goes on to remove the directory
    ensures mountPath != "" ==>
      s.host.trace == h.trace + [Exec(Client, UmountArgs(mountPath))]
                              + (if ClassifyExec(exec).Clean? then [RemoveAll(mountPath)] else [])
    ensures s.host.dirs ==
      if mountPath != "" && ClassifyExec(exec).Clean? && remove.FsOk? then h.dirs - {mountPath} else h.dirs
    ensures s.result.Pass? <==>
      mountPath != "" && (ClassifyExec(exec).QuirkSuccess? || (ClassifyExec(exec).Clean? && remove.FsOk?))
    ensures mountPath != "" && s.result.Fail? ==>
      s.result.error == if ClassifyExec(exec).Failed?
                        then ExecFailure("Umount", Client, LogStr(UmountArgs(mountPath)),
                                         ClassifyExec(exec).cause, exec.output)
                        else FsFailure(RemoveMountPath, mountPath, remove.reason)
  {
    if mountPath == "" then Step(Fail(InvalidArgument(TargetPathMissing)), h)
    else
      var args := UmountArgs(mountPath);
      var afterExec := h.(trace := h.trace + [Exec(Client, args)]);
      match ClassifyExec(exec)
      case Failed(cause) => Step(Fail(ExecFailure("Umount", Client, LogStr(args), cause, exec.output)), afterExec)
      case QuirkSuccess => Step(Pass, afterExec)
      case Clean =>
        var afterRemove := afterExec.(trace := afterExec.trace + [RemoveAll(mountPath)]);
        match remove
        case FsOk => Step(Pass, afterRemove.(dirs := h.dirs - {mountPath}))
        case FsErr(reason) => Step(Fail(FsFailure(RemoveMountPath, mountPath, reason)), afterRemove)
  }

  function CreateStep(h: Host, volumeName: string, server: string, size: Int64, onDeletePolicy: string,
                      exec: ExecResult)
    : (s: Step<Result<Volume, Error>>)
    // no guard: the client always runs, and the requested size does not reach it
    ensures s.host == Host(h.dirs, h.trace + [Exec(Client, CreateArgs(server, volumeName))])
    // only a run without any error yields a volume, named after the request
    ensures s.result.Success? <==> exec.err.None?
    ensures s.result.Success? ==>
      s.result.value.id == volumeName && s.result.value.uuid == volumeName &&
      s.result.value.size == size && s.result.value.onDelete == onDeletePolicy
    ensures ClassifyExec(exec).QuirkSuccess? ==>
      s.result == Failure(Generic("failed to create volume " + volumeName + ": " + NoChildProcesses))
    ensures ClassifyExec(exec).Failed? ==>
      s.result == Failure(ExecFailure("mount", Client, LogStr(CreateArgs(server, volumeName)),
                                      ClassifyExec(exec).cause, exec.output))
  {
    var args := CreateArgs(server, volumeName);
    var afterExec := h.(trace := h.trace + [Exec(Client, args)]);
    match ClassifyExec(exec)
    case Failed(cause) => Step(Failure(ExecFailure("mount", Client, LogStr(args), cause, exec.output)), afterExec)
    case QuirkSuccess =>
      Step(Failure(Generic("failed to create volume " + volumeName + ": " + NoChildProcesses)), afterExec)
    case Clean => Step(Success(Volume(volumeName, size, volumeName, onDeletePolicy)), afterExec)
  }

  function DeleteResult(name: string): (r: Outcome<Error>)
    ensures r.Fail? <==> name == ""
    ensures r.Fail? ==> r.error == Generic(VolumeNameMissing) && !r.error.InvalidArgument?
  {
    if name == "" then Fail(Generic(VolumeNameMissing)) else Pass
  }

  function ProbeStep(h: Host, exec: ExecResult): (s: Step<Outcome<Error>>)
    ensures s.host == Host(h.dirs, h.trace + [Exec(Client, ProbeArgs())])
    ensures s.result.Pass? <==> !ClassifyExec(exec).Failed?
    ensures s.result.Fail? ==> s.result.error == ProcessError(ClassifyExec(exec).cause)
  {
    var afterExec := h.(trace := h.trace + [Exec(Client, ProbeArgs())]);
    match ClassifyExec(exec)
    case Failed(cause) => Step(Fail(ProcessError(cause)), afterExec)
    case _ => Step(Pass, afterExec)
  }

  /**
   * The driver object. Go's `SealfsCli` has no fields; the two ghost fields
   * stand for the host it changes through the operating system.
   */
  class SealfsCli {
    ghost var dirs: set<string>
    ghost var trace: seq<Event>

    ghost function State(): Host
      reads this
    {
      Host(dirs, trace)
    }

    constructor (ghost initial: Host)
      ensures State() == initial
    {
      dirs := initial.dirs;
      trace := initial.trace;
    }

    /** `os.MkdirAll(path, mode)`, whose outcome the environment decides. */
    method MakeDirs(path: string, mode: int, outcome: FsResult) returns (err: Option<string>)
      modifies this
      ensures trace == old(trace) + [MkdirAll(path, mode)]
      ensures dirs == if outcome.FsOk? then old(dirs) + {path} else old(dirs)
      ensures err == if outcome.FsOk? then None else Some(outcome.reason)
    {
      trace := trace + [MkdirAll(path, mode)];
      if outcome.FsOk? {
        dirs := dirs + {path};
        err := None;
      } else {
        err := Some(outcome.reason);
      }
    }

    /** `os.RemoveAll(path)`, whose outcome the environment decides. */
    method RemoveTree(path: string, outcome: FsResult) returns (err: Option<string>)
      modifies this
      ensures trace == old(trace) + [RemoveAll(path)]
      ensures dirs == if outcome.FsOk? then old(dirs) - {path} else old(dirs)
      ensures err == if outcome.FsOk? then None else Some(outcome.reason)
    {
      trace := trace + [RemoveAll(path)];
      if outcome.FsOk? {
        dirs := dirs - {path};
        err := None;
      } else {
        err := Some(outcome.reason);
      }
    }

    /** `exec.Command(command, args...).CombinedOutput()` and the process state after it. */
    method CombinedOutput(command: string, args: seq<string>, outcome: ExecResult)
      returns (output: string, err: Option<string>, processSuccess: bool)
      modifies this
      ensures trace == old(trace) + [Exec(command, args)] && dirs == old(dirs)
      ensures output == outcome.output && err == outcome.err && processSuccess == outcome.processSuccess
    {
      trace := trace + [Exec(command, args)];
      output, err, processSuccess := outcome.output, outcome.err, outcome.processSuccess;
    }

    method Mount(volumeName: string, mountPath: string, options: seq<string>, mkdir: FsResult, exec: ExecResult)
      returns (result: Outcome<Error>)
      modifies this
      ensures Step(result, State()) == MountStep(old(State()), volumeName, mountPath, mkdir, exec)
    {
      if volumeName == "" {
        return Fail(InvalidArgument(VolumeIdMissing));
      }
      if mountPath == "" {
        return Fail(InvalidArgument(TargetPathMissing));
      }
      var mkdirErr := MakeDirs(mountPath, MountDirMode, mkdir);
      if mkdirErr.Some? {
        return Fail(FsFailure(CreateMountPath, mountPath, mkdirErr.value));
      }
      var args := MountArgs(mountPath, volumeName);
      var argsLog := BuildLogStr(args);
      var output, err, processSuccess := CombinedOutput(Client, args, exec);
      if err.Some? {
        var cause := ErrorText(err.value);
        if err.value == NoChildProcesses {
          if processSuccess {
            return Pass;
          }
          cause := ExitStatus;
        }
        return Fail(ExecFailure("mount", Client, argsLog, cause, output));
      }
      return Pass;
    }

    method Umount(mountPath: string, exec: ExecResult, remove: FsResult) returns (result: Outcome<Error>)
      modifies this
      ensures Step(result, State()) == UmountStep(old(State()), mountPath, exec, remove)
    {
      if mountPath == "" {
        return Fail(InvalidArgument(TargetPathMissing));
      }
      var args := UmountArgs(mountPath);
      var argsLog := BuildLogStr(args);
      var output, err, processSuccess := CombinedOutput(Client, args, exec);
      if err.Some? {
        var cause := ErrorText(err.value);
        if err.value == NoChildProcesses {
          if processSuccess {
            return Pass;
          }
          cause := ExitStatus;
        }
        return Fail(ExecFailure("Umount", Client, argsLog, cause, output));
      }
      var removeErr := RemoveTree(mountPath, remove);
      if removeErr.Some? {
        return Fail(FsFailure(RemoveMountPath, mountPath, removeErr.value));
      }
      return Pass;
    }

    method Create(volumeName: string, server: string, size: Int64, onDeletePolicy: string, exec: ExecResult)
      returns (result: Result<Volume, Error>)
      modifies this
      ensures Step(result, State()) == CreateStep(old(State()), volumeName, server, size, onDeletePolicy, exec)
    {
      var args := CreateArgs(server, volumeName);
      var argsLog := BuildLogStr(args);
      var output, err, processSuccess := CombinedOutput(Client, args, exec);
      if err.Some? {
        if err.value != NoChildProcesses || !processSuccess {
          var cause := ErrorText(err.value);
          if err.value == NoChildProcesses {
            cause := ExitStatus;
          }
          return Failure(ExecFailure("mount", Client, argsLog, cause, output));
        }
      }
      if err.Some? {
        return Failure(Generic("failed to create volume " + volumeName + ": " + err.value));
      }
      return Success(Volume(volumeName, size, volumeName, onDeletePolicy));
    }

    /** Never reaches the client or the filesystem: it has no `modifies` clause. */
    method Delete(name: string) returns (result: Outcome<Error>)
      ensures result == DeleteResult(name)
    {
      if name == "" {
        return Fail(Generic(VolumeNameMissing));
      }
      return Pass;
    }

    method Probe(exec: ExecResult) returns (result: Outcome<Error>)
      modifies this
      ensures Step(result, State()) == ProbeStep(old(State()), exec)
    {
      var args := ProbeArgs();
      var argsLog := BuildLogStr(args);
      var output, err, processSuccess := CombinedOutput(Client, args, exec);
      if err.Some? {
        if err.value != NoChildProcesses || !processSuccess {
          var cause := ErrorText(err.value);
          if err.value == NoChildProcesses {
            cause := ExitStatus;
          }
          return Fail(ProcessError(cause));
        }
      }
      return Pass;
    }
  }
}
