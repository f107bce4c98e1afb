/** Values shared by the real and the fake driver of package sealfs. */
module SealfsTypes {

  /** Go's `int64`, the type of a volume's requested size. */
  newtype Int64 = x: int | -0x8000_0000_0000_0000 <= x < 0x8000_0000_0000_0000

  /** The four fields of `sealfsVolume` that `Create` fills in. */
  datatype Volume = Volume(id: string, size: Int64, uuid: string, onDelete: string)

  /** Which filesystem housekeeping step failed. */
  datatype FsOp = CreateMountPath | RemoveMountPath

  /** The underlying error a failed client run reports. */
  datatype Cause =
    | ExitStatus               // rebuilt from the process state, as `exec.ExitError{ProcessState: …}`
    | ErrorText(text: string)  // the error `CombinedOutput` returned, unchanged

  /** The kinds of error the driver returns; gRPC status codes become the `InvalidArgument` tag. */
  datatype Error =
    | InvalidArgument(msg: string)
      /** "<prefix> failed: <cause> / command / space-joined arguments / output" */
    | ExecFailure(prefix: string, command: string, args: string, cause: Cause, output: string)
      /** the client's error returned without wrapping */
    | ProcessError(cause: Cause)
      /** "failed to create/remove mount path <path>: <reason>" */
    | FsFailure(op: FsOp, path: string, reason: string)
      /** a plain `fmt.Errorf` message that is not a gRPC status */
    | Generic(msg: string)

  const VolumeIdMissing := "Volume ID missing in request"
  const TargetPathMissing := "Target path not provided"
  const VolumeNameMissing := "missing required volume name"
}
