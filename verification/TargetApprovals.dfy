/** Creating and changing dynamic targets: prepared from a preset, applied once on a typed confirmation. */
module TargetApprovals {
  import opened ApprovalUtils
  import opened CapabilityBaseline
  import opened ManagedAdminPolicy
  import opened Targets
  import opened Texts
  import opened Wrappers

  /** What the operations read besides their own state: environment and devices. */
  datatype Site = Site(oauth: bool, secret: Option<Text>, devices: map<Text, Device>, staleMs: int)

  datatype Approval = Approval(actor: Text, expiresAt: int, target: Target)

  type Approvals = map<Text, Approval>

  datatype ApplyRequest = ApplyRequest(actor: Text, approvalId: Text, confirmation: Text)

  function Purge(approvals: Approvals, now: int): Approvals {
    map id | id in approvals && approvals[id].expiresAt >= now :: approvals[id]
  }

  predicate StrongAuth(site: Site) {
    site.oauth && site.secret.Some? && Units(site.secret.value) >= 32
  }

  predicate Privileged(preset: Preset) {
    preset.ManagedAdmin? || preset.OpenHandsExecute? || preset.DeepHarnessLab?
  }

  /** The target a request is granted, if it is. */
  function Grant(req: BuildRequest, site: Site, liveAt: int): Result<Target, OpsError> {
    if Privileged(req.preset) && !StrongAuth(site) then Err(CapabilityDenied)
    else if LabElsewhere(req) then Err(CapabilityDenied)
    else
      var device :- RequireLiveDevice(site.devices, req.deviceId, site.staleMs, liveAt);
      if req.preset.DeepHarnessLab? && Ascii(LAB_CAPABILITY) !in device.capabilities then Err(CapabilityDenied)
      else if req.preset.ManagedAdmin? && Ascii(CAPABILITY) !in device.capabilities then Err(CapabilityDenied)
      else Ok(Build(req).value)
  }

  function PrepareStep(approvals: Approvals, actor: Text, req: BuildRequest, id: Text, site: Site, at: Clock)
    : (Approvals, Result<Text, OpsError>)
  {
    var kept := Purge(approvals, at.purgeAt);
    match Grant(req, site, at.liveAt)
    case Err(e) => (kept, Err(e))
    case Ok(target) => (kept[id := Approval(actor, at.stampAt + APPROVAL_TTL_MS, target)], Ok(id))
  }

  /** The checks repeated on the stored target when it is applied. */
  function Recheck(t: Target, site: Site, liveAt: int): Result<Device, OpsError> {
    var device :- RequireLiveDevice(site.devices, t.deviceId.GetOr([]), site.staleMs, liveAt);
    if t.id == Ascii(LAB_TARGET) && t.authority.semanticCapabilities == [Ascii(LAB_CAPABILITY)]
       && Ascii(LAB_CAPABILITY) !in device.capabilities
    then Err(CapabilityDenied)
    else if Ascii(CAPABILITY) in t.authority.semanticCapabilities && Ascii(CAPABILITY) !in device.capabilities
    then Err(CapabilityDenied)
    else Ok(device)
  }

  function Failure(e: UpsertError): OpsError {
    match e
    case SchemaRefused => Internal
    case NotAnAgent => InvalidArgument
    case StaticTarget => CapabilityDenied
    case LoadFailed(_) => Internal
  }

  function ApplyStep(
    approvals: Approvals, r: Registry, req: ApplyRequest, site: Site, at: Clock, order: seq<Target> -> seq<Target>)
    : (Approvals, Registry, Result<Target, OpsError>)
  {
    var kept := Purge(approvals, at.purgeAt);
    if req.approvalId !in kept then (kept, r, Err(InvalidArgument)) else
    var approval := kept[req.approvalId];
    if approval.actor != req.actor then (kept, r, Err(CapabilityDenied))
    else if !Confirms(req.approvalId, req.confirmation) then (kept, r, Err(CapabilityDenied))
    else if Recheck(approval.target, site, at.liveAt).Err? then
      (kept, r, Err(Recheck(approval.target, site, at.liveAt).error))
    else
      var (next, written) := UpsertStep(r, approval.target, order);
      if written.Err? then (kept, next, Err(Failure(written.error)))
      else (kept - {req.approvalId}, next, if written.value.Some? then Ok(written.value.value) else Err(Internal))
  }

  /** Applying repeats every check of preparing except that of the deployment's authentication mode. */
  lemma RecheckIsRegrant(req: BuildRequest, site: Site, liveAt: int)
    requires Build(req).Some? && StrongAuth(site)
    ensures Recheck(Build(req).value, site, liveAt).Ok? <==> Grant(req, site, liveAt) == Ok(Build(req).value)
  {
    PresetMarks(req.preset);
    CapabilitiesDiffer();
    var caps := PresetAuthority(req.preset).semanticCapabilities;
    assert req.preset.DeepHarnessLab? <==> caps == [Ascii(LAB_CAPABILITY)];
    assert req.preset.OpenHandsExecute? ==> |caps[0]| == 14 && |caps[1]| == 17;
    assert req.preset.ManagedAdmin? <==> Ascii(CAPABILITY) in caps;
  }

  /**
    * An approval is applied exactly when it is pending and unexpired, its own actor confirms it in the typed sentence,
    * the device still qualifies and the target is not static. The target written is the one prepared, and the approval
    * is gone; otherwise the registry is as before and the approval, unless expired, stays.
    */
  lemma ApplyExactly(
    approvals: Approvals, r: Registry, req: ApplyRequest, site: Site, at: Clock, order: seq<Target> -> seq<Target>)
    requires Consistent(r) && Sorting(order)
    ensures var (left, next, result) := ApplyStep(approvals, r, req, site, at, order);
            && Consistent(next)
            && (result.Ok? <==>
                && req.approvalId in approvals
                && var a := approvals[req.approvalId];
                   && a.expiresAt >= at.purgeAt && a.actor == req.actor && Confirms(req.approvalId, req.confirmation)
                   && Recheck(a.target, site, at.liveAt).Ok?
                   && WellShaped(a.target) && a.target.transport.Agent? && a.target.deviceId.Some?
                   && !HasId(r.staticTargets, a.target.id))
            && (result.Ok? ==>
                && result.value == approvals[req.approvalId].target
                && next == UpsertStep(r, result.value, order).0
                && left == Purge(approvals, at.purgeAt) - {req.approvalId})
            && (result.Err? ==> next == r && left == Purge(approvals, at.purgeAt))
  {
    if req.approvalId in approvals {
      UpsertExactly(r, approvals[req.approvalId].target, order);
    }
  }

  /** The module's pending approvals, over the registry they are applied to. */
  class Desk {
    const registry: TargetRegistry
    var approvals: Approvals

    constructor (registry: TargetRegistry)
      ensures this.registry == registry && approvals == map[]
    {
      this.registry := registry;
      approvals := map[];
    }

    method PurgeExpired(now: int)
      modifies this
      ensures approvals == Purge(old(approvals), now)
    {
      var ids := approvals.Keys;
      while ids != {}
        invariant ids <= old(approvals).Keys
        invariant approvals ==
                  map id |
                    id in old(approvals) && (id in ids || old(approvals)[id].expiresAt >= now) :: old(approvals)[id]
        decreases ids
      {
        var id :| id in ids;
        if approvals[id].expiresAt < now {
          approvals := approvals - {id};
        }
        ids := ids - {id};
      }
    }

    method PrepareAgentTarget(actor: Text, req: BuildRequest, id: Text, site: Site, at: Clock)
      returns (r: Result<Text, OpsError>)
      modifies this
      ensures (approvals, r) == PrepareStep(old(approvals), actor, req, id, site, at)
    {
      PurgeExpired(at.purgeAt);
      var granted := Grant(req, site, at.liveAt);
      if granted.Err? {
        return Err(granted.error);
      }
      approvals := approvals[id := Approval(actor, at.stampAt + APPROVAL_TTL_MS, granted.value)];
      r := Ok(id);
    }

    method ApplyAgentTargetApproval(req: ApplyRequest, site: Site, at: Clock) returns (r: Result<Target, OpsError>)
      modifies this, registry
      ensures (approvals, registry.Contents(), r)
              == ApplyStep(old(approvals), old(registry.Contents()), req, site, at, registry.order)
    {
      PurgeExpired(at.purgeAt);
      if req.approvalId !in approvals {
        return Err(InvalidArgument);
      }
      var approval := approvals[req.approvalId];
      if approval.actor != req.actor {
        return Err(CapabilityDenied);
      }
      if !Confirms(req.approvalId, req.confirmation) {
        return Err(CapabilityDenied);
      }
      var rechecked := Recheck(approval.target, site, at.liveAt);
      if rechecked.Err? {
        return Err(rechecked.error);
      }
      var written := registry.UpsertDynamicAgentTarget(approval.target);
      if written.Err? {
        return Err(Failure(written.error));
      }
      approvals := approvals - {req.approvalId};
      r := if written.value.Some? then Ok(written.value.value) else Err(Internal);
    }
  }
}
