# sealfs CSI driver: the volume lifecycle command layer

This project models, in Dafny, the command layer of the sealfs CSI driver
(package `sealfs`). Two implementations of the driver's `Cli` interface
(`pkg/sealfs/sealfscli.go:29-35`) offer `Mount`, `Umount`, `Create`, `Delete` and `Probe`:

- `SealfsCli`, the real driver. It checks the request's identifiers and builds a fixed
  argument list for the external `sealfs-client` binary. It reads the outcome of the
  client run as one of three cases: clean, the "wait: no child processes" signature
  with a successful process, or failed. It also creates the mount directory (mode 0750)
  before a mount and removes it after an unmount.
- `fakeCli`, the test double. It makes the same checks, returns success otherwise
  and touches nothing.

Files and modules:

- `results.dfy` (`Results`): `Option`, `Outcome` (a Go `error` return), `Result` (a `(*T, error)` return).
- `types.dfy` (`SealfsTypes`): `Int64`, the `Volume` record, and the error taxonomy.
  Errors are invalid-argument (a gRPC status), a wrapped client failure, the client's
  raw error, a mount-path failure and a plain `fmt.Errorf` message.
- `client_args.dfy` (`ClientArgs`): the four argument lists and the space-joined log
  string the driver's loops build (`BuildLogStr`, proved against `LogStr`). A parser
  `Unjoin` shows that the string gives back the list exactly when no argument contains a space
  (`UnjoinLogStrIff`).
- `environment.dfy` (`Environment`): the host as the driver sees it (`Host`: the set of
  existing directories and the ordered trace of `MkdirAll`/`Exec`/`RemoveAll` calls),
  the outcome of a client run (`ExecResult`), and its classification `ClassifyExec`.
- `sealfs_cli.dfy` (`SealfsCli`): a pure step function per operation (result and
  new host). The class `SealfsCli` holds ghost fields for the host. Its methods follow
  the Go code branch by branch and are proved equal to the step functions.
- `fake_cli.dfy` (`FakeCli`): the test double as functions.
- `conformance.dfy` (`Conformance`): lemmas that relate the fake and the real
  driver and describe multi-call behaviour.

The subprocess and the operating system are parameters. Each method receives the
outcome of its `MkdirAll`, client run and `RemoveAll` as inputs (`FsResult`,
`ExecResult`) and records each call in the trace.

Behaviour the model keeps exactly as the code has it, although the code's own
structure suggests something else was meant:

- `Mount` treats a run that reports "wait: no child processes" with a successful
  process as success (`sealfscli.go:64-68`). `Create` has a guard for the same case at
  line 129 that lets it through, but `err` is still non-nil at line 140, so `Create`
  fails on that run. `Mount`, `Umount` and `Probe` treat the run as success
  (`Conformance.QuirkReadInconsistently`).
- `Umount` removes the mount directory after a clean run (the `// rm -rf mountPath`
  step at `sealfscli.go:107-111`). In the quirk case it returns success early at
  lines 95-98 and skips that step, so the directory stays
  (`Conformance.UmountQuirkKeepsDirectory`).
- `Delete("")` returns a plain error, not an invalid-argument status (`sealfscli.go:156`).
- `Create` always passes the capacity token `"100000"`, whatever `size` is requested.
  It has no empty-name guard.
- A wrapped `Create` failure is labelled "mount failed", as the code prints it.
- `Probe` returns the client's error unwrapped.

## Model

| member | source | states |
|---|---|---|
| `Environment.ClassifyExec` | pkg/sealfs/sealfscli.go:63-71 | clean iff no error; quirk-success iff the error text is exactly "wait: no child processes" and the process state succeeded; otherwise failed, with the error rebuilt from the exit status for the quirk text and kept as is otherwise |
| `ClientArgs.BuildLogStr` | pkg/sealfs/sealfscli.go:56-59 | the accumulating loop yields every argument preceded by one space, in order |
| `ClientArgs.LogStrSnoc` | pkg/sealfs/sealfscli.go:57-59 | appending one argument to the list appends a space and that argument to the joined string (the loop step) |
| `ClientArgs.UnjoinLogStr` | pkg/sealfs/sealfscli.go:56-59 | when no argument contains a space, the joined string in an error message determines the argument list exactly |
| `ClientArgs.UnjoinWordsSpaceFree` | pkg/sealfs/sealfscli.go:56-59 | no argument read back from a joined string contains a space |
| `ClientArgs.UnjoinLogStrIff` | pkg/sealfs/sealfscli.go:56-59 | reading the joined string back gives the argument list if and only if no argument contains a space |
| `ClientArgs.LogStrAmbiguous` | pkg/sealfs/sealfscli.go:56-59 | an argument with a space (for example a mount path) can make two different lists log the same string |
| `ClientArgs.MountLogText` | pkg/sealfs/sealfscli.go:55-59 | the mount arguments log as " --log-level warn mount <path> <volume>", path before volume |
| `SealfsCli.MountStep` | pkg/sealfs/sealfscli.go:40-77 | empty volume name gives InvalidArgument "Volume ID missing in request" before the path check; both failures leave the host untouched; MkdirAll(path, 0750) comes before the client; a mkdir failure stops before the client; success iff valid, mkdir ok and the run not failed; success leaves the path present; a client failure keeps the directory and carries command, joined args and output |
| `SealfsCli.UmountStep` | pkg/sealfs/sealfscli.go:79-114 | empty path gives InvalidArgument and no call; the client gets the umount arguments; only a clean run is followed by RemoveAll; a failed run leaves the directories unchanged; success iff quirk-success or clean run with removal ok; the quirk case returns early and keeps the directory; a removal failure is reported as such |
| `SealfsCli.CreateStep` | pkg/sealfs/sealfscli.go:116-152 | no guard; the client always gets the create arguments with the fixed capacity token and no size; a volume with id = uuid = name, the given size and policy is returned iff the run had no error; quirk-success fails with "failed to create volume <name>: wait: no child processes"; other failures are wrapped |
| `SealfsCli.DeleteResult` | pkg/sealfs/sealfscli.go:154-160 | fails iff the name is empty, with the plain "missing required volume name" error, not InvalidArgument |
| `SealfsCli.ProbeStep` | pkg/sealfs/sealfscli.go:162-185 | the client gets the probe arguments; success iff the run is not failed (quirk-success included); a failure returns the client's error unwrapped |
| `SealfsCli.SealfsCli.MakeDirs` | pkg/sealfs/sealfscli.go:49-52 | the MkdirAll call is recorded with its mode; the path is added to the directories iff the call succeeded, and the directories are otherwise unchanged |
| `SealfsCli.SealfsCli.RemoveTree` | pkg/sealfs/sealfscli.go:107-111 | the RemoveAll call is recorded; the path is removed from the directories iff the call succeeded, and the directories are otherwise unchanged |
| `SealfsCli.SealfsCli.CombinedOutput` | pkg/sealfs/sealfscli.go:62-63 | one client call with the given arguments is recorded; directories unchanged; the run's output, error and process state are returned |
| `SealfsCli.SealfsCli.Mount` | pkg/sealfs/sealfscli.go:40-77 | result and new host equal `MountStep` of the old host |
| `SealfsCli.SealfsCli.Umount` | pkg/sealfs/sealfscli.go:79-114 | result and new host equal `UmountStep` of the old host |
| `SealfsCli.SealfsCli.Create` | pkg/sealfs/sealfscli.go:116-152 | result and new host equal `CreateStep`; the two-stage check at lines 128-142 is proved to match the classification |
| `SealfsCli.SealfsCli.Delete` | pkg/sealfs/sealfscli.go:154-160 | result equals `DeleteResult`; it modifies nothing |
| `SealfsCli.SealfsCli.Probe` | pkg/sealfs/sealfscli.go:162-185 | result and new host equal `ProbeStep` |
| `FakeCli.Mount` | pkg/sealfs/fakecli.go:29-39 | success iff both identifiers are non-empty; otherwise InvalidArgument, the volume-ID message taking precedence |
| `FakeCli.Umount` | pkg/sealfs/fakecli.go:41-47 | success iff the path is non-empty; otherwise InvalidArgument "Target path not provided" |
| `FakeCli.Create` | pkg/sealfs/fakecli.go:49-59 | always succeeds, even for an empty name, with id = uuid = name and the size and policy echoed |
| `FakeCli.Delete` | pkg/sealfs/fakecli.go:61-67 | fails iff the name is empty, with the plain "missing required volume name" error |
| `FakeCli.Probe` | pkg/sealfs/fakecli.go:69-71 | always succeeds |
| `Conformance.MountRejectsAlike` | pkg/sealfs/fakecli.go:30-36 | for every host and outcome, the fake `Mount` fails exactly when the real one stops at validation, with the same error, and the real one then leaves the host untouched |
| `Conformance.UmountRejectsAlike` | pkg/sealfs/fakecli.go:42-44 | the same for `Umount` (real side: pkg/sealfs/sealfscli.go:80-82) |
| `Conformance.DeleteAlike` | pkg/sealfs/fakecli.go:61-67 | fake and real `Delete` agree on every name (real side: pkg/sealfs/sealfscli.go:154-160) |
| `Conformance.FakeIsRealOnHealthyHost` | pkg/sealfs/fakecli.go:29-71 | for every client run without an error and a successful mkdir/remove, the real driver's results equal the fake's for all five operations (Delete needs no host) |
| `Conformance.QuirkReadInconsistently` | pkg/sealfs/sealfscli.go:128-142 | every quirk-success run counts as success for Mount, Umount and Probe but makes Create fail with the line-141 error |
| `Conformance.UmountQuirkKeepsDirectory` | pkg/sealfs/sealfscli.go:95-98 | after any quirk-success unmount the directory still exists and no RemoveAll was issued |
| `Conformance.MountDirectoryOutlivesClientFailure` | pkg/sealfs/sealfscli.go:49-76 | a failing client after a successful mkdir leaves the mount directory in place |
| `Conformance.MountThenUmount` | pkg/sealfs/sealfscli.go:40-114 | a mount then an unmount of one path, both client runs without error and the filesystem calls succeeding, issue MkdirAll, mount, umount, RemoveAll in that order and leave the path absent |

## Left out

- Process execution (`exec.Command`, `CombinedOutput`) and the OS calls `os.MkdirAll`
  and `os.RemoveAll` are not modelled internally. Their outcomes are method parameters.
- `SealfsCli.SealfsCli.MakeDirs`: the parent directories that `MkdirAll` also creates
  are not modelled. A failing `MkdirAll` is modelled as creating nothing.
- `SealfsCli.SealfsCli.RemoveTree`: the sub-directories that `RemoveAll` also deletes
  are not modelled. A failing `RemoveAll` is modelled as deleting nothing.
- Paths are not normalised: the directories are a set of literal strings, so `/mnt/x`
  and `/mnt/x/` count as different directories.
- `SealfsCli.SealfsCli.MakeDirs` and `SealfsCli.SealfsCli.RemoveTree`: the outcome is a
  free input, so a failure may be supplied even where Go's `MkdirAll` (existing
  directory) or `RemoveAll` (missing path) would return nil.
- Permission bits: the mode 0750 is recorded in the trace and has no further effect.
- The exact `fmt.Errorf` text is not modelled. Errors keep their kind and what they
  carry (prefix, command, joined arguments, cause, output, path).
- The text of an `exec.ExitError` is reduced to the tag `ExitStatus`.
- Logging through klog is left out because it is diagnostics only. This includes
  the `Infof` line that logs the argument list.
- `Mount` takes `options` and ignores it, as the code does.
- The `Cli` interface has no Dafny counterpart. The correspondence between the two
  implementations is stated by the `Conformance` lemmas.
- The declaration of `sealfsVolume` (another file of the package) is not part of this model.
  Only the four fields the two `Create` methods set are modelled.
- `cmd/sealfsplugin/main.go` (flag parsing, `NewDriver`, `Run`) is left out.
  It is bootstrap around code that is not part of this model.
- Concurrency is left out: no state is shared between calls and nothing is locked.
