/** What every approval flow shares: identifiers, the live-device test and the typed confirmation. */
module ApprovalUtils {
  import opened Texts
  import opened Wrappers

  const APPROVAL_TTL_MS := 600000

  datatype OpsError =
    | TargetNotFound
    | TargetDisabled
    | CapabilityDenied
    | InvalidArgument
    | RemoteCommandFailed
    | Internal

  /** The successive clock readings of one operation. */
  datatype Clock = Clock(purgeAt: int, liveAt: int, stampAt: int)

  datatype Device = Device(revoked: bool, lastSeenAt: Option<int>, capabilities: seq<Text>)

  function RequireLiveDevice(devices: map<Text, Device>, deviceId: Text, staleMs: int, now: int)
    : Result<Device, OpsError>
  {
    if deviceId !in devices || devices[deviceId].revoked then Err(InvalidArgument)
    else
      var d := devices[deviceId];
      if d.lastSeenAt.None? || now - d.lastSeenAt.value > staleMs then Err(RemoteCommandFailed) else Ok(d)
  }

  predicate Confirms(id: Text, confirmation: Text) {
    Trim(confirmation) == Ascii("APPROVE ") + id
  }
}
