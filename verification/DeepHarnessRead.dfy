/** Adding two fixed containers to the read-only DeepHarness target, prepared and confirmed like other approvals. */
module DeepHarnessRead {
  import opened ApprovalUtils
  import opened CapabilityBaseline
  import opened TargetApprovals
  import opened Targets
  import opened Texts
  import opened Wrappers

  const READ_TARGET := "deepharness-read"
  const CONTAINERS := ["deepharness-web-1", "deepharness-mcp-grants-db-1"]

  datatype ReadApproval = ReadApproval(actor: Text, expires: int, deviceId: Text)

  type ReadApprovals = map<Text, ReadApproval>

  predicate Untouched(a: Authority) {
    && a.dockerExecContainers == [] && a.dockerExecPrograms == [] && a.dockerActions == [] && a.writePaths == []
    && a.processPrograms == [] && a.adminPrograms == [] && a.semanticCapabilities == []
  }

  /** The target both operations start from. */
  function Baseline(loaded: Option<Table>, site: Site, liveAt: int): Result<Target, OpsError> {
    if loaded.None? then Err(Internal)
    else if Ascii(READ_TARGET) !in loaded.value then Err(CapabilityDenied)
    else
      var t := loaded.value[Ascii(READ_TARGET)];
      if !t.transport.Agent? || !t.authority.profile.ReadOnly? || !t.enabled || t.deviceId.None?
         || !t.environment.Production?
      then Err(CapabilityDenied)
      else if !Untouched(t.authority) then Err(CapabilityDenied)
      else if exists i | 0 <= i < |t.authority.dockerContainers| ::
                t.authority.dockerContainers[i] !in AsciiAll(CONTAINERS)
      then Err(CapabilityDenied)
      else
        var _ :- RequireLiveDevice(site.devices, t.deviceId.value, site.staleMs, liveAt);
        Ok(t)
  }

  function Expire(pending: ReadApprovals, now: int): ReadApprovals {
    map id | id in pending && pending[id].expires >= now :: pending[id]
  }

  /** `at.stampAt` serves expiry and stamping alike. */
  function PrepareReadStep(pending: ReadApprovals, loaded: Option<Table>, actor: Text, id: Text, site: Site, at: Clock)
    : (ReadApprovals, Result<Text, OpsError>)
  {
    match Baseline(loaded, site, at.liveAt)
    case Err(e) => (pending, Err(e))
    case Ok(t) =>
      (Expire(pending, at.stampAt)[id := ReadApproval(actor, at.stampAt + APPROVAL_TTL_MS, t.deviceId.GetOr([]))],
       Ok(id))
  }

  function WithContainers(t: Target): Target {
    t.(authority := t.authority.(dockerContainers := AsciiAll(CONTAINERS)))
  }

  function ApplyReadStep(
    pending: ReadApprovals, r: Registry, req: ApplyRequest, site: Site, at: Clock, order: seq<Target> -> seq<Target>)
    : (ReadApprovals, Registry, Result<Target, OpsError>)
  {
    if req.approvalId !in pending || pending[req.approvalId].expires < at.purgeAt then
      (pending - {req.approvalId}, r, Err(InvalidArgument))
    else if pending[req.approvalId].actor != req.actor then (pending, r, Err(CapabilityDenied))
    else if !Confirms(req.approvalId, req.confirmation) then (pending, r, Err(CapabilityDenied))
    else
      match Baseline(r.loaded, site, at.liveAt)
      case Err(e) => (pending, r, Err(e))
      case Ok(t) =>
        if t.deviceId != Some(pending[req.approvalId].deviceId) then (pending, r, Err(CapabilityDenied))
        else
          var (next, written) := UpsertStep(r, WithContainers(t), order);
          if written.Err? then (pending, next, Err(Failure(written.error)))
          else (pending - {req.approvalId}, next, Ok(WithContainers(t)))
  }

  lemma BaselineIsStored(r: Registry, site: Site, liveAt: int)
    requires Consistent(r) && Baseline(r.loaded, site, liveAt).Ok?
    ensures var t := Baseline(r.loaded, site, liveAt).value;
            && t.id == Ascii(READ_TARGET) && t.authority.profile.ReadOnly? && Untouched(t.authority)
            && (t in r.overlay || HasId(r.staticTargets, t.id))
  {
    var t := Baseline(r.loaded, site, liveAt).value;
    LookupExactly(r, Ascii(READ_TARGET), t);
    if t in r.staticTargets {
      var i :| 0 <= i < |r.staticTargets| && r.staticTargets[i] == t;
    }
  }

  lemma ExtensionUpserts(r: Registry, t: Target, order: seq<Target> -> seq<Target>)
    requires Consistent(r) && Sorting(order) && (t in r.overlay || HasId(r.staticTargets, t.id))
    ensures var (next, written) := UpsertStep(r, WithContainers(t), order);
            && Consistent(next) && (written.Ok? <==> t in r.overlay) && (written.Err? ==> next == r)
  {
    UpsertExactly(r, WithContainers(t), order);
  }

  /** The conditions under which an application goes through, and none other. */
  ghost predicate Applies(pending: ReadApprovals, r: Registry, req: ApplyRequest, site: Site, at: Clock) {
    && req.approvalId in pending
    && var p := pending[req.approvalId];
       && p.actor == req.actor && p.expires >= at.purgeAt && Confirms(req.approvalId, req.confirmation)
       && Baseline(r.loaded, site, at.liveAt).Ok?
       && var t := Baseline(r.loaded, site, at.liveAt).value;
          && t.deviceId == Some(p.deviceId) && t in r.overlay
  }

  lemma ApplyReadKeepsRegistry(
    pending: ReadApprovals, r: Registry, req: ApplyRequest, site: Site, at: Clock, order: seq<Target> -> seq<Target>)
    requires Consistent(r) && Sorting(order)
    ensures var (_, next, result) := ApplyReadStep(pending, r, req, site, at, order);
            Consistent(next) && (result.Err? ==> next == r)
  {
    var baseline := Baseline(r.loaded, site, at.liveAt);
    if baseline.Ok? {
      BaselineIsStored(r, site, at.liveAt);
      ExtensionUpserts(r, baseline.value, order);
    }
  }

  /** A successful application changes one field of one entry of the overlay: the container list of the read target. */
  lemma ApplyReadExactly(
    pending: ReadApprovals, r: Registry, req: ApplyRequest, site: Site, at: Clock, order: seq<Target> -> seq<Target>)
    requires Consistent(r) && Sorting(order)
    ensures var (left, next, result) := ApplyReadStep(pending, r, req, site, at, order);
            && (result.Ok? <==> Applies(pending, r, req, site, at))
            && (result.Ok? ==>
                && left == pending - {req.approvalId}
                && var t := Baseline(r.loaded, site, at.liveAt).value;
                   && t.id == Ascii(READ_TARGET) && t.authority.profile.ReadOnly? && Untouched(t.authority)
                   && result.value == WithContainers(t) && next == UpsertStep(r, WithContainers(t), order).0)
  {
    var baseline := Baseline(r.loaded, site, at.liveAt);
    if baseline.Ok? {
      BaselineIsStored(r, site, at.liveAt);
      ExtensionUpserts(r, baseline.value, order);
    }
  }

  class ReadDesk {
    const registry: TargetRegistry
    var pending: ReadApprovals

    constructor (registry: TargetRegistry)
      ensures this.registry == registry && pending == map[]
    {
      this.registry := registry;
      pending := map[];
    }

    method PrepareRead(actor: Text, id: Text, site: Site, at: Clock) returns (r: Result<Text, OpsError>)
      modifies this
      ensures (pending, r) == PrepareReadStep(old(pending), registry.loaded, actor, id, site, at)
    {
      var baseline := Baseline(registry.loaded, site, at.liveAt);
      if baseline.Err? {
        return Err(baseline.error);
      }
      var ids := pending.Keys;
      while ids != {}
        invariant ids <= old(pending).Keys
        invariant pending ==
                  map p | p in old(pending) && (p in ids || old(pending)[p].expires >= at.stampAt) :: old(pending)[p]
        decreases ids
      {
        var p :| p in ids;
        if pending[p].expires < at.stampAt {
          pending := pending - {p};
        }
        ids := ids - {p};
      }
      assert pending == Expire(old(pending), at.stampAt);
      pending := pending[id := ReadApproval(actor, at.stampAt + APPROVAL_TTL_MS, baseline.value.deviceId.GetOr([]))];
      r := Ok(id);
    }

    method ApplyRead(req: ApplyRequest, site: Site, at: Clock) returns (r: Result<Target, OpsError>)
      modifies this, registry
      ensures (pending, registry.Contents(), r)
              == ApplyReadStep(old(pending), old(registry.Contents()), req, site, at, registry.order)
    {
      if req.approvalId !in pending || pending[req.approvalId].expires < at.purgeAt {
        pending := pending - {req.approvalId};
        return Err(InvalidArgument);
      }
      if pending[req.approvalId].actor != req.actor {
        return Err(CapabilityDenied);
      }
      if !Confirms(req.approvalId, req.confirmation) {
        return Err(CapabilityDenied);
      }
      var baseline := Baseline(registry.loaded, site, at.liveAt);
      if baseline.Err? {
        return Err(baseline.error);
      }
      if baseline.value.deviceId != Some(pending[req.approvalId].deviceId) {
        return Err(CapabilityDenied);
      }
      var written := registry.UpsertDynamicAgentTarget(WithContainers(baseline.value));
      if written.Err? {
        return Err(Failure(written.error));
      }
      pending := pending - {req.approvalId};
      r := Ok(WithContainers(baseline.value));
    }
  }
}
