/** The root broker: one request is verified, validated against local authority, its nonce consumed, then executed. */
module ManagedAdminBroker {
  import opened ManagedAdminPolicy
  import opened ManagedAdminTicket
  import opened ReplayLedger
  import opened Texts
  import opened Wrappers

  /** Local configuration, and the file system as path resolution sees it during one request. */
  datatype Authority = Authority(
    deviceId: Text, roots: seq<Text>, programs: seq<Text>, key: Key, resolve: Text -> Option<Text>)

  datatype Denial = WrongDevice | FromFuture | Expired | HardDeny | ProgramNotAllowed | Unresolved | CwdNotAllowed

  datatype Reply =
    | InvalidTicket(error: TicketError)
    | InvalidSignature
    | Denied(why: Denial)
    | Replayed
    | Executed(ticket: Ticket, cwd: Text)

  /** Every configured root resolved, or None when one does not resolve. */
  function RealRoots(a: Authority): Option<seq<Text>> {
    if forall i | 0 <= i < |a.roots| :: a.resolve(a.roots[i]).Some? then
      Some(seq(|a.roots|, i requires 0 <= i < |a.roots| => StripSlashes(a.resolve(a.roots[i]).GetOr([]))))
    else None
  }

  predicate InRoots(path: Text, roots: seq<Text>) {
    exists i | 0 <= i < |roots| :: Under(path, roots[i])
  }

  function CwdAllowed(cwd: Text, a: Authority): Result<Text, Denial> {
    match a.resolve(cwd)
    case None => Err(Unresolved)
    case Some(resolved) =>
      match RealRoots(a)
      case None => Err(Unresolved)
      case Some(roots) =>
        if InRoots(StripSlashes(resolved), roots) then Ok(StripSlashes(resolved)) else Err(CwdNotAllowed)
  }

  function ValidateLocal(t: Ticket, a: Authority, now: int): Result<Text, Denial> {
    if t.deviceId != a.deviceId then Err(WrongDevice)
    else if t.issuedAt > now + CLOCK_SKEW_MS then Err(FromFuture)
    else if t.expiresAt < now then Err(Expired)
    else if HardDenied(t.program) then Err(HardDeny)
    else if t.program !in a.programs then Err(ProgramNotAllowed)
    else CwdAllowed(t.cwd, a)
  }

  /** What a request comes to before its nonce is looked at. */
  function Admit(raw: Json, signature: Signature, a: Authority, c: Coercions, now: int): Result<(Ticket, Text), Reply> {
    match Normalize(raw, c)
    case Err(e) => Err(InvalidTicket(e))
    case Ok(ticket) =>
      if !Verify(ticket, signature, a.key) then Err(InvalidSignature)
      else
        match ValidateLocal(ticket, a, now)
        case Err(why) => Err(Denied(why))
        case Ok(cwd) => Ok((ticket, cwd))
  }

  function AttemptOf(t: Ticket, reading: Reading): Attempt {
    Attempt(t.nonce, t.issuedAt, t.expiresAt, reading.validateAt, reading.consumeAt)
  }

  function HandleStep(table: Table, raw: Json, signature: Signature, a: Authority, c: Coercions, reading: Reading)
    : (Table, Reply)
  {
    match Admit(raw, signature, a, c, reading.validateAt)
    case Err(reply) => (table, reply)
    case Ok((ticket, cwd)) =>
      var attempt := AttemptOf(ticket, reading);
      (RecordPruned(table, attempt), if AcceptsPruned(table, attempt) then Executed(ticket, cwd) else Replayed)
  }

  /** An admitted ticket is signed, unexpired, for this device, and its resolved directory is below a resolved root. */
  lemma AdmittedIsLocal(raw: Json, signature: Signature, a: Authority, c: Coercions, now: int)
    requires Admit(raw, signature, a, c, now).Ok?
    ensures var (ticket, cwd) := Admit(raw, signature, a, c, now).value;
            && Normal(ticket) && Verify(ticket, signature, a.key)
            && ticket.deviceId == a.deviceId && ticket.issuedAt <= now + CLOCK_SKEW_MS && now <= ticket.expiresAt
            && ticket.program in a.programs && !HardDenied(ticket.program)
            && a.resolve(ticket.cwd).Some? && cwd == StripSlashes(a.resolve(ticket.cwd).value)
            && RealRoots(a).Some? && InRoots(cwd, RealRoots(a).value)
  {
    NormalizeYieldsNormal(raw, c);
  }

  /** What makes a ticket acceptable here, apart from its times and its nonce. */
  predicate LocallyFine(t: Ticket, a: Authority) {
    t.deviceId == a.deviceId && !HardDenied(t.program) && t.program in a.programs && CwdAllowed(t.cwd, a).Ok?
  }

  /**
    * What is admitted is exactly what normalizes, verifies, is acceptable here and is in time; and such a ticket lives
    * at most two minutes.
    */
  lemma AdmitsExactly(raw: Json, signature: Signature, a: Authority, c: Coercions, reading: Reading)
    ensures Admit(raw, signature, a, c, reading.validateAt).Ok? <==>
              && Normalize(raw, c).Ok?
              && var t := Normalize(raw, c).value;
                 Verify(t, signature, a.key) && LocallyFine(t, a) && InTime(AttemptOf(t, reading))
    ensures Normalize(raw, c).Ok? ==> ShortLived([AttemptOf(Normalize(raw, c).value, reading)], MAX_LIFE_MS)
  {
    NormalizeYieldsNormal(raw, c);
  }

  /** The slack the broker has, over the tickets it can admit. */
  lemma BrokerSlackIsExact(readings: seq<Reading>, names: seq<Text>)
    requires |names| == |readings| && Distinct(names) && Positive(readings)
    ensures AlwaysAgrees(readings, MAX_LIFE_MS) <==> Steady(readings, MAX_LIFE_MS)
  {
    SlackIsExact(readings, names, MAX_LIFE_MS);
  }

  class Broker {
    /** The nonces in the replay file. */
    var replay: Table

    constructor ()
      ensures replay == map[]
    {
      replay := map[];
    }

    method LoadReplay(now: int) returns (state: Table)
      ensures state == Pruned(replay, now)
    {
      state := replay;
      var nonces := replay.Keys;
      while nonces != {}
        invariant nonces <= replay.Keys
        invariant state ==
                  map n | n in replay && (n in nonces || replay[n] >= now - PRUNE_SLACK_MS) :: replay[n]
        decreases nonces
      {
        var nonce :| nonce in nonces;
        if state[nonce] < now - PRUNE_SLACK_MS {
          state := state - {nonce};
        }
        nonces := nonces - {nonce};
      }
    }

    /** Fails on a nonce the loaded table holds; otherwise writes the table back with the nonce added. */
    method ConsumeNonce(ticket: Ticket, now: int) returns (unseen: bool)
      modifies this
      ensures unseen == !Seen(Pruned(old(replay), now), ticket.nonce)
      ensures replay == if unseen then Pruned(old(replay), now)[ticket.nonce := ticket.expiresAt] else old(replay)
    {
      var state := LoadReplay(now);
      if ticket.nonce in state && state[ticket.nonce] != 0 {
        return false;
      }
      replay := state[ticket.nonce := ticket.expiresAt];
      unseen := true;
    }

    method Handle(raw: Json, signature: Signature, a: Authority, c: Coercions, reading: Reading) returns (reply: Reply)
      modifies this
      ensures (replay, reply) == HandleStep(old(replay), raw, signature, a, c, reading)
    {
      var normalized := Normalize(raw, c);
      if normalized.Err? {
        return InvalidTicket(normalized.error);
      }
      var ticket := normalized.value;
      if !Verify(ticket, signature, a.key) {
        return InvalidSignature;
      }
      var local := ValidateLocal(ticket, a, reading.validateAt);
      if local.Err? {
        return Denied(local.error);
      }
      var unseen := ConsumeNonce(ticket, reading.consumeAt);
      if !unseen {
        return Replayed;
      }
      reply := Executed(ticket, local.value);
    }
  }
}
