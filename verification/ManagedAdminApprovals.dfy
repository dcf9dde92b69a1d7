/** The control plane's side of managed-admin: prepare an action, confirm it once, sign a ticket for it. */
module ManagedAdminApprovals {
  import opened ApprovalUtils
  import opened ManagedAdminPolicy
  import opened ManagedAdminTicket
  import opened Targets
  import opened Texts
  import opened Wrappers

  const TICKET_TTL_MS := 90000
  const DEFAULT_CWD := "/opt/wandora/ops-workspace"
  const DEFAULT_TIMEOUT_MS := 30000

  /** What an operation reads besides the approvals: environment, target registry and its switches, devices. */
  datatype World = World(
    oauth: bool, secret: Option<Text>, targets: Table, switchedOff: set<Text>, devices: map<Text, Device>, staleMs: int)
  {
    /** What the registry schema demands of identifiers. */
    predicate Shaped() {
      forall id | id in targets ::
        targets[id].id == id && WellShaped(targets[id])
    }
  }

  datatype Action = Action(
    targetId: Text, deviceId: Text, program: Text, argv: seq<Text>, cwd: Text, timeoutMs: int)

  datatype Approval = Approval(actor: Text, expiresAt: int, action: Action)

  datatype PrepareRequest = PrepareRequest(
    actor: Text, targetId: Text, program: Json, argv: Json, cwd: Json, timeoutMs: Json)

  datatype ApplyRequest = ApplyRequest(actor: Text, targetId: Text, approvalId: Text, confirmation: Text)

  datatype Issued = Issued(ticket: Ticket, signature: Signature)

  function Purge(approvals: map<Text, Approval>, now: int): map<Text, Approval> {
    map id | id in approvals && approvals[id].expiresAt >= now :: approvals[id]
  }

  function RequireSecret(w: World): Result<Text, OpsError> {
    if w.oauth && w.secret.Some? && Units(w.secret.value) >= 32 then Ok(w.secret.value) else Err(CapabilityDenied)
  }

  function RequireTarget(w: World, targetId: Text): Result<Target, OpsError> {
    if targetId !in w.targets then Err(TargetNotFound)
    else
      var t := w.targets[targetId];
      if !t.enabled then Err(TargetDisabled)
      else if !t.transport.Agent? || t.deviceId.None? then Err(CapabilityDenied)
      else if !t.authority.profile.Operator? then Err(CapabilityDenied)
      else if Ascii(CAPABILITY) !in t.authority.semanticCapabilities then Err(CapabilityDenied)
      else Ok(t)
  }

  function RequireDeviceCapability(w: World, deviceId: Text, now: int): Result<Device, OpsError> {
    var d :- RequireLiveDevice(w.devices, deviceId, w.staleMs, now);
    if Ascii(CAPABILITY) in d.capabilities then Ok(d) else Err(CapabilityDenied)
  }

  function CheckProgram(t: Target, program: Text): Result<Text, OpsError> {
    if !IsProgram(program) then Err(InvalidArgument)
    else if HardDenied(program) || program !in t.authority.adminPrograms then Err(CapabilityDenied)
    else Ok(program)
  }

  function CheckArgv(argv: seq<Text>): Result<seq<Text>, OpsError> {
    if |argv| > 80 || exists i | 0 <= i < |argv| :: !IsArgument(argv[i]) then Err(InvalidArgument) else Ok(argv)
  }

  function CheckCwd(t: Target, cwd: Text): Result<Text, OpsError> {
    if CwdLexicallyAllowed(cwd, t.authority.adminCwds) then Ok(cwd) else Err(CapabilityDenied)
  }

  function CheckTimeout(n: Option<int>): Result<int, OpsError> {
    if n.Some? && IsTimeout(n.value) then Ok(n.value) else Err(InvalidArgument)
  }

  function OrDefault(value: Json, default: Json): Json {
    if value.Missing? || value.Null? then default else value
  }

  function ArgvOf(value: Json, c: Coercions): Result<seq<Text>, OpsError> {
    if value.Missing? then Ok([])
    else if value.Arr? then CheckArgv(Texted(value.items, c))
    else Err(InvalidArgument)
  }

  /** The action a request asks for, if this world grants it. */
  function Granted(req: PrepareRequest, w: World, c: Coercions, liveAt: int): Result<Action, OpsError> {
    var _ :- RequireSecret(w);
    var t :- RequireTarget(w, req.targetId);
    var _ :- RequireDeviceCapability(w, t.deviceId.GetOr([]), liveAt);
    var program :- CheckProgram(t, c.text(req.program));
    var argv :- ArgvOf(req.argv, c);
    var cwd :- CheckCwd(t, c.text(OrDefault(req.cwd, Str(Ascii(DEFAULT_CWD)))));
    var timeoutMs :- CheckTimeout(c.number(OrDefault(req.timeoutMs, Int(DEFAULT_TIMEOUT_MS))));
    Ok(Action(req.targetId, t.deviceId.GetOr([]), program, argv, cwd, timeoutMs))
  }

  function PrepareStep(
    approvals: map<Text, Approval>, req: PrepareRequest, id: Text, w: World, c: Coercions, at: Clock)
    : (map<Text, Approval>, Result<Text, OpsError>)
  {
    var live := Purge(approvals, at.purgeAt);
    match Granted(req, w, c, at.liveAt)
    case Err(e) => (live, Err(e))
    case Ok(action) => (live[id := Approval(req.actor, at.stampAt + APPROVAL_TTL_MS, action)], Ok(id))
  }

  /** The checks a confirmation repeats on the stored action. */
  function Recheck(action: Action, w: World, liveAt: int): Result<Text, OpsError> {
    var secret :- RequireSecret(w);
    var t :- RequireTarget(w, action.targetId);
    if t.deviceId != Some(action.deviceId) then Err(CapabilityDenied) else
    var _ :- RequireDeviceCapability(w, action.deviceId, liveAt);
    var _ :- CheckProgram(t, action.program);
    var _ :- CheckArgv(action.argv);
    var _ :- CheckCwd(t, action.cwd);
    var _ :- CheckTimeout(Some(action.timeoutMs));
    Ok(secret)
  }

  function TicketFor(action: Action, nonce: Text, now: int): Ticket {
    Ticket(1, action.targetId, action.deviceId, action.program, action.argv, action.cwd, action.timeoutMs, nonce,
      now, now + TICKET_TTL_MS)
  }

  function ConsumeStep(approvals: map<Text, Approval>, req: ApplyRequest, w: World, at: Clock, nonce: Text)
    : (map<Text, Approval>, Result<Issued, OpsError>)
  {
    var live := Purge(approvals, at.purgeAt);
    if req.approvalId !in live then (live, Err(InvalidArgument)) else
    var approval := live[req.approvalId];
    if approval.actor != req.actor || approval.action.targetId != req.targetId then (live, Err(CapabilityDenied))
    else if !Confirms(req.approvalId, req.confirmation) then (live, Err(CapabilityDenied))
    else
      match Recheck(approval.action, w, at.liveAt)
      case Err(e) => (live, Err(e))
      case Ok(secret) =>
        var ticket := TicketFor(approval.action, nonce, at.stampAt);
        var left := live - {req.approvalId};
        match Sign(ticket, secret)
        case Some(signature) => (left, Ok(Issued(ticket, signature)))
        case None => (left, Err(Internal))
  }

  /** The stored action, asked for again. */
  function Again(actor: Text, action: Action): PrepareRequest {
    PrepareRequest(actor, action.targetId, Str(action.program),
      Arr(seq(|action.argv|, i requires 0 <= i < |action.argv| => Str(action.argv[i]))),
      Str(action.cwd), Int(action.timeoutMs))
  }

  /** A confirmation repeats exactly the checks of a preparation: it passes when the action would be granted anew. */
  lemma RecheckIsRegrant(actor: Text, action: Action, w: World, c: Coercions, liveAt: int)
    requires c.Lawful()
    ensures Recheck(action, w, liveAt).Ok? <==> Granted(Again(actor, action), w, c, liveAt) == Ok(action)
  {
    assert Texted(Again(actor, action).argv.items, c) == action.argv;
  }

  /** Whatever is granted can be ticketed: the ticket passes the normalization of the signer and of the broker. */
  lemma GrantedTicketIsNormal(action: Action, w: World, liveAt: int, nonce: Text, now: int)
    requires w.Shaped() && IsNonce(nonce) && Recheck(action, w, liveAt).Ok?
    ensures Normal(TicketFor(action, nonce, now))
    ensures Sign(TicketFor(action, nonce, now), Recheck(action, w, liveAt).value).Some?
  {
  }

  /**
    * A confirmation issues a ticket exactly when the approval is pending and unexpired, the same actor confirms it for
    * the same target with the typed sentence, and the action would be granted anew. The ticket is for the prepared
    * action, its signature verifies, and the approval is gone.
    */
  lemma ConsumeExactly(
    approvals: map<Text, Approval>, req: ApplyRequest, w: World, c: Coercions, at: Clock, nonce: Text)
    requires c.Lawful() && w.Shaped() && IsNonce(nonce)
    ensures var (left, r) := ConsumeStep(approvals, req, w, at, nonce);
            && (r.Ok? <==>
                && req.approvalId in approvals
                && approvals[req.approvalId].expiresAt >= at.purgeAt
                && approvals[req.approvalId].actor == req.actor
                && approvals[req.approvalId].action.targetId == req.targetId
                && Confirms(req.approvalId, req.confirmation)
                && var action := approvals[req.approvalId].action;
                   Granted(Again(req.actor, action), w, c, at.liveAt) == Ok(action))
            && (r.Ok? ==>
                && r.value.ticket == TicketFor(approvals[req.approvalId].action, nonce, at.stampAt)
                && Verify(r.value.ticket, r.value.signature, Derived(w.secret.GetOr([])))
                && req.approvalId !in left)
            && (r.Err? ==> left == Purge(approvals, at.purgeAt))
  {
    if req.approvalId in approvals {
      var action := approvals[req.approvalId].action;
      RecheckIsRegrant(req.actor, action, w, c, at.liveAt);
      if Recheck(action, w, at.liveAt).Ok? {
        GrantedTicketIsNormal(action, w, at.liveAt, nonce, at.stampAt);
        SignedVerifies(TicketFor(action, nonce, at.stampAt), w.secret.value);
      }
    }
  }

  /** The module's pending approvals. */
  class ControlPlane {
    var approvals: map<Text, Approval>

    constructor ()
      ensures approvals == map[]
    {
      approvals := map[];
    }

    method PurgeExpired(now: int)
      modifies this
      ensures approvals == Purge(old(approvals), now)
    {
      var ids := approvals.Keys;
      while ids != {}
        invariant ids <= old(approvals).Keys
        invariant approvals ==
                  map id |
                    id in old(approvals) && (id in ids || old(approvals)[id].expiresAt >= now) :: old(approvals)[id]
        decreases ids
      {
        var id :| id in ids;
        if approvals[id].expiresAt < now {
          approvals := approvals - {id};
        }
        ids := ids - {id};
      }
    }

    method Prepare(req: PrepareRequest, id: Text, w: World, c: Coercions, at: Clock)
      returns (r: Result<Text, OpsError>)
      modifies this
      ensures (approvals, r) == PrepareStep(old(approvals), req, id, w, c, at)
    {
      PurgeExpired(at.purgeAt);
      var granted := Granted(req, w, c, at.liveAt);
      if granted.Err? {
        return Err(granted.error);
      }
      approvals := approvals[id := Approval(req.actor, at.stampAt + APPROVAL_TTL_MS, granted.value)];
      r := Ok(id);
    }

    method Consume(req: ApplyRequest, w: World, at: Clock, nonce: Text) returns (r: Result<Issued, OpsError>)
      modifies this
      ensures (approvals, r) == ConsumeStep(old(approvals), req, w, at, nonce)
    {
      PurgeExpired(at.purgeAt);
      if req.approvalId !in approvals {
        return Err(InvalidArgument);
      }
      var approval := approvals[req.approvalId];
      if approval.actor != req.actor {
        return Err(CapabilityDenied);
      }
      if approval.action.targetId != req.targetId {
        return Err(CapabilityDenied);
      }
      if !Confirms(req.approvalId, req.confirmation) {
        return Err(CapabilityDenied);
      }
      var secret := Recheck(approval.action, w, at.liveAt);
      if secret.Err? {
        return Err(secret.error);
      }
      approvals := approvals - {req.approvalId};
      var ticket := TicketFor(approval.action, nonce, at.stampAt);
      var signature := Sign(ticket, secret.value);
      if signature.None? {
        return Err(Internal);
      }
      r := Ok(Issued(ticket, signature.value));
    }
  }
}
