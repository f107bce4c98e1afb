/**
 * How the two implementations of the driver's five operations relate, and
 * what a caller sees across several calls to the actual one.
 */
module Conformance {
  import opened Results
  import opened SealfsTypes
  import opened ClientArgs
  import opened Environment
  import SealfsCli
  import FakeCli

  predicate IsInvalidArgument(r: Outcome<Error>)
  {
    r.Fail? && r.error.InvalidArgument?
  }

  /** The fake fails exactly where the actual `Mount` stops at validation, with the same error. */
  lemma MountRejectsAlike(h: Host, volumeName: string, mountPath: string, options: seq<string>,
                          mkdir: FsResult, exec: ExecResult)
    ensures var actual := SealfsCli.MountStep(h, volumeName, mountPath, mkdir, exec);
      (FakeCli.Mount(volumeName, mountPath, options).Fail? <==> IsInvalidArgument(actual.result)) &&
      (IsInvalidArgument(actual.result) ==>
         FakeCli.Mount(volumeName, mountPath, options) == actual.result && actual.host == h)
  {
  }

  lemma UmountRejectsAlike(h: Host, mountPath: string, exec: ExecResult, remove: FsResult)
    ensures var actual := SealfsCli.UmountStep(h, mountPath, exec, remove);
      (FakeCli.Umount(mountPath).Fail? <==> IsInvalidArgument(actual.result)) &&
      (IsInvalidArgument(actual.result) ==> FakeCli.Umount(mountPath) == actual.result && actual.host == h)
  {
  }

  lemma DeleteAlike(name: string)
    ensures FakeCli.Delete(name) == SealfsCli.DeleteResult(name)
  {
  }

  /** On a host where every call succeeds cleanly, the actual driver answers as the fake does. */
  lemma FakeIsRealOnHealthyHost(h: Host, volumeName: string, mountPath: string, options: seq<string>,
                                server: string, size: Int64, onDeletePolicy: string, exec: ExecResult)
    requires exec.err.None?
    ensures FakeCli.Mount(volumeName, mountPath, options)
         == SealfsCli.MountStep(h, volumeName, mountPath, FsOk, exec).result
    ensures FakeCli.Umount(mountPath) == SealfsCli.UmountStep(h, mountPath, exec, FsOk).result
    ensures FakeCli.Create(volumeName, server, size, onDeletePolicy)
         == SealfsCli.CreateStep(h, volumeName, server, size, onDeletePolicy, exec).result
    ensures FakeCli.Delete(volumeName) == SealfsCli.DeleteResult(volumeName)
    ensures FakeCli.Probe() == SealfsCli.ProbeStep(h, exec).result
  {
  }

  /**
   * The "no child processes" signature with a successful process counts as
   * success for `Mount`, `Umount` and `Probe`, but `Create` still fails.
   */
  lemma QuirkReadInconsistently(h: Host, volumeName: string, mountPath: string, server: string,
                                size: Int64, onDeletePolicy: string, remove: FsResult, exec: ExecResult)
    requires volumeName != "" && mountPath != ""
    requires ClassifyExec(exec).QuirkSuccess?
    ensures SealfsCli.MountStep(h, volumeName, mountPath, FsOk, exec).result == Pass
    ensures SealfsCli.UmountStep(h, mountPath, exec, remove).result == Pass
    ensures SealfsCli.ProbeStep(h, exec).result == Pass
    ensures SealfsCli.CreateStep(h, volumeName, server, size, onDeletePolicy, exec).result
         == Failure(Generic("failed to create volume " + volumeName + ": " + NoChildProcesses))
  {
  }

  /** After a quirk-success unmount the mount directory is still there: `RemoveAll` never runs. */
  lemma UmountQuirkKeepsDirectory(h: Host, mountPath: string, remove: FsResult, exec: ExecResult)
    requires mountPath != "" && mountPath in h.dirs
    requires ClassifyExec(exec).QuirkSuccess?
    ensures var s := SealfsCli.UmountStep(h, mountPath, exec, remove);
      s.result == Pass && mountPath in s.host.dirs && RemoveAll(mountPath) !in s.host.trace[|h.trace|..]
  {
    var s := SealfsCli.UmountStep(h, mountPath, exec, remove);
    assert s.host.trace[|h.trace|..] == [Exec(Client, UmountArgs(mountPath))];
  }

  /** A failing client leaves the directory `Mount` made in place. */
  lemma MountDirectoryOutlivesClientFailure(h: Host, volumeName: string, mountPath: string, exec: ExecResult)
    requires volumeName != "" && mountPath != ""
    requires ClassifyExec(exec).Failed?
    ensures var s := SealfsCli.MountStep(h, volumeName, mountPath, FsOk, exec);
      s.result.Fail? && s.result.error.ExecFailure? && mountPath in s.host.dirs
  {
  }

  /**
   * A clean mount followed by a clean unmount of the same path: the client
   * sees the two argument lists in order, the directory is made before the
   * first and removed after the second, and the path no longer exists.
   */
  lemma MountThenUmount(h: Host, volumeName: string, mountPath: string, mountRun: ExecResult,
                        umountRun: ExecResult)
    requires volumeName != "" && mountPath != ""
    requires mountRun.err.None? && umountRun.err.None?
    ensures var m := SealfsCli.MountStep(h, volumeName, mountPath, FsOk, mountRun);
      var u := SealfsCli.UmountStep(m.host, mountPath, umountRun, FsOk);
      m.result == Pass && u.result == Pass &&
      u.host.dirs == h.dirs - {mountPath} &&
      u.host.trace == h.trace + [MkdirAll(mountPath, MountDirMode), Exec(Client, MountArgs(mountPath, volumeName)),
                                 Exec(Client, UmountArgs(mountPath)), RemoveAll(mountPath)]
  {
    var m := SealfsCli.MountStep(h, volumeName, mountPath, FsOk, mountRun);
    assert (h.dirs + {mountPath}) - {mountPath} == h.dirs - {mountPath};
  }
}
