/**
 * The test double `fakeCli`: the same request checks as the real driver,
 * success in every other case, and no effect on any host.
 */
module FakeCli {
  import opened Results
  import opened SealfsTypes

  function Mount(volumeName: string, mountPath: string, options: seq<string>): (r: Outcome<Error>)
    ensures r.Pass? <==> volumeName != "" && mountPath != ""
    ensures r.Fail? ==>
      r.error == InvalidArgument(if volumeName == "" then VolumeIdMissing else TargetPathMissing)
  {
    if volumeName == "" then Fail(InvalidArgument(VolumeIdMissing))
    else if mountPath == "" then Fail(InvalidArgument(TargetPathMissing))
    else Pass
  }

  function Umount(mountPath: string): (r: Outcome<Error>)
    ensures r.Pass? <==> mountPath != ""
    ensures r.Fail? ==> r.error == InvalidArgument(TargetPathMissing)
  {
    if mountPath == "" then Fail(InvalidArgument(TargetPathMissing)) else Pass
  }

  /** Succeeds even for an empty name; `server` is not used. */
  function Create(volumeName: string, server: string, size: Int64, onDeletePolicy: string)
    : (r: Result<Volume, Error>)
    ensures r.Success?
    ensures r.value.id == volumeName && r.value.uuid == volumeName
    ensures r.value.size == size && r.value.onDelete == onDeletePolicy
  {
    Success(Volume(volumeName, size, volumeName, onDeletePolicy))
  }

  function Delete(name: string): (r: Outcome<Error>)
    ensures r.Fail? <==> name == ""
    ensures r.Fail? ==> r.error == Generic(VolumeNameMissing)
  {
    if name == "" then Fail(Generic(VolumeNameMissing)) else Pass
  }

  function Probe(): (r: Outcome<Error>)
    ensures r.Pass?
  {
    Pass
  }
}
