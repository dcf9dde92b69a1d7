/**
  * Whole runs of pairing, in memory and on file, across restarts: one device per approved pairing, stable credentials,
  * permanent revocation. The clock does not step back.
  */
module PairingRuns {
  import opened DeviceStore
  import opened Sequences
  import opened Wrappers

  /** `Write`: another part of the state was changed, and the file is rewritten. */
  datatype Op =
    | Create(meta: Meta, draw: Draw, now: int)
    | Approve(code: string, chosen: Option<string>, now: int)
    | Claim(pairingId: string, pollToken: string, newId: string, now: int)
    | Heartbeat(deviceId: string, report: Report, now: int)
    | Revoke(deviceId: string, now: int)
    | Purge(elsewhere: bool, now: int)
    | Write(now: int)
    | Restart(now: int)

  function Drawn(op: Op): set<string> {
    match op
    case Create(_, draw, _) => {draw.pairingId}
    case Claim(_, _, newId, _) => {newId}
    case _ => {}
  }

  function Step(st: Store, op: Op, cfg: Config): Store {
    match op
    case Create(meta, draw, now) => CreateStore(st, meta, draw, now, cfg).0
    case Approve(_, chosen, now) =>
      if chosen.Some? && chosen.value in st.mem.pairings then ApproveStore(st, chosen.value, now) else st
    case Claim(pairingId, pollToken, newId, now) => ClaimStore(st, pairingId, pollToken, newId, now, cfg).0
    case Heartbeat(id, report, now) => HeartbeatStore(st, id, report, now)
    case Revoke(id, now) => RevokeStore(st, id, now)
    case Purge(elsewhere, now) => PurgeStore(st, now, elsewhere)
    case Write(_) => Saved(st, st.mem, true)
    case Restart(now) => RestartStore(st, now)
  }

  /** What an operation makes of a state, file apart; a restart only collects. */
  function StepMem(s: State, op: Op, cfg: Config): State {
    match op
    case Create(meta, draw, now) => CreateStep(s, meta, draw, now, cfg).0
    case Approve(_, chosen, now) =>
      if chosen.Some? && chosen.value in s.pairings then ApproveStep(s, chosen.value, now) else s
    case Claim(pairingId, pollToken, newId, now) => ClaimStep(s, pairingId, pollToken, newId, now, cfg).0
    case Heartbeat(id, report, now) => HeartbeatStep(s, id, report, now)
    case Revoke(id, now) => RevokeDeviceStep(s, id, now)
    case Purge(_, now) => s.(pairings := DropOld(s.pairings, now))
    case Write(_) => s
    case Restart(now) => s.(pairings := DropOld(s.pairings, now))
  }

  /** The file is left alone or rewritten from memory; memory moves on from itself, or on a restart from the file. */
  lemma FileFollows(st: Store, op: Op, cfg: Config)
    ensures var t := Step(st, op, cfg);
            && t.mem == StepMem(if op.Restart? then st.disk else st.mem, op, cfg)
            && (t.disk == st.disk || (!op.Restart? && t.disk == t.mem))
  {
  }

  /**
    * The clock shows a positive time and does not step back, draws are new, device identifiers have no dot, redrawing
    * ended, and an approval found an answering pairing.
    */
  ghost predicate Possible(s: State, used: set<string>, clock: int, op: Op, cfg: Config) {
    && clock <= op.now && 0 < op.now && Drawn(op) !! used
    && match op
       case Create(_, draw, now) => !Collides(DropLapsed(s.pairings, now), draw.code, now, cfg)
       case Claim(_, _, newId, _) => '.' !in newId
       case Approve(code, chosen, now) =>
         chosen.Some? ==> chosen.value in s.pairings && Answers(s.pairings[chosen.value], code, now, cfg)
       case _ => true
  }

  const START := Store(EMPTY, EMPTY)

  function Run(ops: seq<Op>, cfg: Config): Store {
    if ops == [] then START else Step(Run(ops[..|ops| - 1], cfg), ops[|ops| - 1], cfg)
  }

  function DrawnBy(ops: seq<Op>): set<string> {
    if ops == [] then {} else DrawnBy(ops[..|ops| - 1]) + Drawn(ops[|ops| - 1])
  }

  function ClockAfter(ops: seq<Op>): int {
    if ops == [] then 0 else ops[|ops| - 1].now
  }

  ghost predicate PossibleAt(ops: seq<Op>, k: nat, cfg: Config)
    requires k < |ops|
  {
    Possible(Run(ops[..k], cfg).mem, DrawnBy(ops[..k]), ClockAfter(ops[..k]), ops[k], cfg)
  }

  ghost predicate Valid(ops: seq<Op>, cfg: Config) {
    forall k | 0 <= k < |ops| :: PossibleAt(ops, k, cfg)
  }

  lemma RunStep(ops: seq<Op>, k: nat, cfg: Config)
    requires k < |ops|
    ensures Run(ops[..k + 1], cfg) == Step(Run(ops[..k], cfg), ops[k], cfg)
    ensures DrawnBy(ops[..k + 1]) == DrawnBy(ops[..k]) + Drawn(ops[k]) && ClockAfter(ops[..k + 1]) == ops[k].now
  {
    PrefixOfPrefix(ops, k);
  }

  /** The operation is possible for memory; a restart, for the file. */
  lemma PossibleForSource(st: Store, used: set<string>, clock: int, op: Op, cfg: Config)
    requires Possible(st.mem, used, clock, op, cfg)
    ensures Possible(if op.Restart? then st.disk else st.mem, used, clock, op, cfg)
  {
  }

  /* The link between a claimed pairing and its device. */

  /** The credential was made for this identifier. */
  predicate CredentialFor(d: Device, id: string) {
    '.' !in id && d.credentialHash.Sha256? && "wdv_" + id + "." <= d.credentialHash.text
  }

  ghost predicate Linked(p: Pairing, devices: Devices, cfg: Config) {
    && p.pollHash.Sha256?
    && (p.claimedAt.Some? <==> p.deviceId.Some?)
    && (p.deviceId.Some? ==>
        && p.approvedAt.Some? && p.deviceId.value in devices
        && devices[p.deviceId.value].credentialHash == Sha256(DeviceToken(p.deviceId.value, p.pollHash.text, cfg)))
  }

  ghost predicate Sound(s: State, used: set<string>, cfg: Config) {
    && (forall id | id in s.pairings :: id in used && Linked(s.pairings[id], s.devices, cfg))
    && (forall id | id in s.devices :: id in used && CredentialFor(s.devices[id], id))
    && (forall i, j | i in s.pairings && j in s.pairings && i != j && s.pairings[i].deviceId.Some? ::
          s.pairings[i].deviceId != s.pairings[j].deviceId)
  }

  lemma SoundGrows(s: State, used: set<string>, more: set<string>, cfg: Config)
    requires Sound(s, used, cfg) && used <= more
    ensures Sound(s, more, cfg)
  {
  }

  lemma TokenIsCredential(id: string, pollToken: string, cfg: Config)
    ensures "wdv_" + id + "." <= DeviceToken(id, pollToken, cfg)
  {
    var head := "wdv_" + id + ".";
    assert DeviceToken(id, pollToken, cfg) == head + cfg.hmac(pollToken, id);
  }

  lemma ClaimKeepsSound(s: State, used: set<string>, op: Op, cfg: Config)
    requires op.Claim? && Sound(s, used, cfg) && Drawn(op) !! used && '.' !in op.newId
    ensures Sound(ClaimStep(s, op.pairingId, op.pollToken, op.newId, op.now, cfg).0, used + Drawn(op), cfg)
  {
    TokenIsCredential(op.newId, op.pollToken, cfg);
    var t := ClaimStep(s, op.pairingId, op.pollToken, op.newId, op.now, cfg).0;
    forall id | id in t.pairings ensures Linked(t.pairings[id], t.devices, cfg) {
      assert Linked(s.pairings[id], s.devices, cfg);
    }
  }

  lemma CreateKeepsSound(s: State, used: set<string>, op: Op, cfg: Config)
    requires op.Create? && Sound(s, used, cfg) && Drawn(op) !! used
    ensures Sound(CreateStep(s, op.meta, op.draw, op.now, cfg).0, used + Drawn(op), cfg)
  {
    var t := CreateStep(s, op.meta, op.draw, op.now, cfg).0;
    forall id | id in t.pairings ensures Linked(t.pairings[id], t.devices, cfg) {
      if id in s.pairings && id != op.draw.pairingId {
        assert Linked(s.pairings[id], s.devices, cfg);
      }
    }
  }

  lemma StepKeepsSound(s: State, used: set<string>, clock: int, op: Op, cfg: Config)
    requires Sound(s, used, cfg) && Possible(s, used, clock, op, cfg)
    ensures Sound(StepMem(s, op, cfg), used + Drawn(op), cfg)
  {
    if op.Claim? {
      ClaimKeepsSound(s, used, op, cfg);
    } else if op.Create? {
      CreateKeepsSound(s, used, op, cfg);
    } else {
      var t := StepMem(s, op, cfg);
      forall id | id in t.pairings ensures Linked(t.pairings[id], t.devices, cfg) {
        assert Linked(s.pairings[id], s.devices, cfg);
      }
    }
  }

  /* Times of a pairing. */

  ghost predicate Timed(p: Pairing, clock: int, cfg: Config) {
    && p.createdAt <= clock && p.expiresAt == p.createdAt + cfg.ttlMs
    && (p.claimedAt.Some? ==> p.createdAt <= p.claimedAt.value)
  }

  ghost predicate AllTimed(pairings: Pairings, clock: int, cfg: Config) {
    forall id | id in pairings :: Timed(pairings[id], clock, cfg)
  }

  lemma StepKeepsTimes(s: State, clock: int, op: Op, cfg: Config)
    requires AllTimed(s.pairings, clock, cfg) && clock <= op.now
    ensures AllTimed(StepMem(s, op, cfg).pairings, op.now, cfg)
  {
  }

  /* Memory against file. */

  /** Devices are the same; what memory has of pairings, the file has too. */
  ghost predicate Mirrored(st: Store) {
    && st.mem.devices == st.disk.devices
    && forall id | id in st.mem.pairings :: id in st.disk.pairings && st.disk.pairings[id] == st.mem.pairings[id]
  }

  lemma StepKeepsMirror(st: Store, op: Op, cfg: Config)
    requires Mirrored(st)
    ensures Mirrored(Step(st, op, cfg))
  {
  }

  ghost predicate Good(s: State, used: set<string>, clock: int, cfg: Config) {
    Sound(s, used, cfg) && AllTimed(s.pairings, clock, cfg)
  }

  ghost predicate Inv(st: Store, used: set<string>, clock: int, cfg: Config) {
    Good(st.mem, used, clock, cfg) && Good(st.disk, used, clock, cfg) && Mirrored(st)
  }

  lemma GoodLater(s: State, used: set<string>, more: set<string>, clock: int, now: int, cfg: Config)
    requires Good(s, used, clock, cfg) && used <= more && clock <= now
    ensures Good(s, more, now, cfg)
  {
    SoundGrows(s, used, more, cfg);
  }

  lemma StepKeepsGood(s: State, used: set<string>, clock: int, op: Op, cfg: Config)
    requires Good(s, used, clock, cfg) && Possible(s, used, clock, op, cfg)
    ensures Good(StepMem(s, op, cfg), used + Drawn(op), op.now, cfg)
  {
    StepKeepsSound(s, used, clock, op, cfg);
    StepKeepsTimes(s, clock, op, cfg);
  }

  lemma StepKeepsInv(st: Store, used: set<string>, clock: int, op: Op, cfg: Config)
    requires Inv(st, used, clock, cfg) && Possible(st.mem, used, clock, op, cfg)
    ensures Inv(Step(st, op, cfg), used + Drawn(op), op.now, cfg)
  {
    PossibleForSource(st, used, clock, op, cfg);
    FileFollows(st, op, cfg);
    StepKeepsGood(if op.Restart? then st.disk else st.mem, used, clock, op, cfg);
    GoodLater(st.disk, used, used + Drawn(op), clock, op.now, cfg);
    StepKeepsMirror(st, op, cfg);
  }

  ghost predicate InvAt(ops: seq<Op>, k: nat, cfg: Config)
    requires k <= |ops|
  {
    Inv(Run(ops[..k], cfg), DrawnBy(ops[..k]), ClockAfter(ops[..k]), cfg)
  }

  lemma NextKeepsInv(ops: seq<Op>, k: nat, cfg: Config)
    requires Valid(ops, cfg) && k < |ops| && InvAt(ops, k, cfg)
    ensures InvAt(ops, k + 1, cfg)
  {
    assert PossibleAt(ops, k, cfg);
    RunStep(ops, k, cfg);
    StepKeepsInv(Run(ops[..k], cfg), DrawnBy(ops[..k]), ClockAfter(ops[..k]), ops[k], cfg);
  }

  lemma {:induction false} RunKeepsInv(ops: seq<Op>, k: nat, cfg: Config)
    requires Valid(ops, cfg) && k <= |ops|
    ensures InvAt(ops, k, cfg)
  {
    if k > 0 {
      RunKeepsInv(ops, k - 1, cfg);
      NextKeepsInv(ops, k - 1, cfg);
    }
  }

  /* One device per pairing, one credential per device. */

  ghost predicate PairedAt(ops: seq<Op>, k: nat, deviceId: string, token: string, cfg: Config) {
    && k < |ops| && ops[k].Claim?
    && ClaimStep(Run(ops[..k], cfg).mem, ops[k].pairingId, ops[k].pollToken, ops[k].newId, ops[k].now, cfg).1
       == Paired(deviceId, token)
  }

  /** What a successful claim settles: which pairing, by which poll token, until when, for which device. */
  datatype Deal = Deal(pairingId: string, pollHash: Digest, until: int, deviceId: string, token: string)

  /** The device belongs to this pairing and to no other, and its credential is this token. */
  ghost predicate Settled(s: State, deal: Deal) {
    && deal.deviceId in s.devices && s.devices[deal.deviceId].credentialHash == Sha256(deal.token)
    && (deal.pairingId in s.pairings ==>
        var p := s.pairings[deal.pairingId];
        p.pollHash == deal.pollHash && p.deviceId == Some(deal.deviceId) && p.expiresAt == deal.until)
    && (forall id | id in s.pairings && id != deal.pairingId :: s.pairings[id].deviceId != Some(deal.deviceId))
  }

  /** The pairing is there to answer a retry, and will not be collected before it expires. */
  ghost predicate Standing(s: State, deal: Deal) {
    && deal.pairingId in s.pairings
    && var p := s.pairings[deal.pairingId];
       p.approvedAt.Some? && p.claimedAt.Some? && deal.until <= p.claimedAt.value + PAIRING_RETENTION_MS
  }

  lemma PairingSettles(s: State, used: set<string>, op: Op, deal: Deal, cfg: Config)
    requires op.Claim? && Sound(s, used, cfg) && Drawn(op) !! used && '.' !in op.newId
    requires ClaimStep(s, op.pairingId, op.pollToken, op.newId, op.now, cfg).1 == Paired(deal.deviceId, deal.token)
    requires deal.pairingId == op.pairingId && deal.pollHash == Sha256(op.pollToken)
    requires deal.until == s.pairings[op.pairingId].expiresAt
    ensures Settled(StepMem(s, op, cfg), deal)
    ensures op.pairingId in used && deal.deviceId in used + Drawn(op)
  {
    assert Linked(s.pairings[op.pairingId], s.devices, cfg);
    forall id | id in s.pairings && id != op.pairingId ensures s.pairings[id].deviceId != Some(deal.deviceId) {
      assert Linked(s.pairings[id], s.devices, cfg);
    }
  }

  lemma PairingStands(s: State, used: set<string>, clock: int, op: Op, deal: Deal, cfg: Config)
    requires op.Claim? && Good(s, used, clock, cfg) && clock <= op.now && cfg.ttlMs <= PAIRING_RETENTION_MS
    requires ClaimStep(s, op.pairingId, op.pollToken, op.newId, op.now, cfg).1 == Paired(deal.deviceId, deal.token)
    requires deal.pairingId == op.pairingId && deal.until == s.pairings[op.pairingId].expiresAt
    ensures Standing(StepMem(s, op, cfg), deal)
  {
    assert Timed(s.pairings[op.pairingId], clock, cfg) && Linked(s.pairings[op.pairingId], s.devices, cfg);
  }

  lemma StepKeepsSettled(s: State, used: set<string>, clock: int, op: Op, deal: Deal, cfg: Config)
    requires Settled(s, deal) && deal.pairingId in used && deal.deviceId in used
    requires Possible(s, used, clock, op, cfg)
    ensures Settled(StepMem(s, op, cfg), deal)
  {
    match op
    case Create(_, _, _) =>
    case Claim(_, _, _, _) =>
    case _ =>
  }

  lemma StepKeepsStanding(s: State, used: set<string>, clock: int, op: Op, deal: Deal, cfg: Config)
    requires Settled(s, deal) && Standing(s, deal) && deal.pairingId in used
    requires Possible(s, used, clock, op, cfg) && op.now <= deal.until
    ensures Standing(StepMem(s, op, cfg), deal)
  {
    match op
    case Create(_, _, _) =>
    case Claim(_, _, _, _) =>
    case _ =>
  }

  ghost predicate SettledAt(ops: seq<Op>, k: nat, deal: Deal, cfg: Config)
    requires k <= |ops|
  {
    && Settled(Run(ops[..k], cfg).mem, deal) && Settled(Run(ops[..k], cfg).disk, deal)
    && deal.pairingId in DrawnBy(ops[..k]) && deal.deviceId in DrawnBy(ops[..k])
  }

  ghost predicate StandingAt(ops: seq<Op>, k: nat, deal: Deal, cfg: Config)
    requires k <= |ops|
  {
    Standing(Run(ops[..k], cfg).mem, deal) && Standing(Run(ops[..k], cfg).disk, deal)
  }

  /** The deal a successful claim strikes. */
  ghost function DealAt(ops: seq<Op>, j: nat, deviceId: string, token: string, cfg: Config): Deal
    requires PairedAt(ops, j, deviceId, token, cfg)
  {
    Deal(ops[j].pairingId, Sha256(ops[j].pollToken), Run(ops[..j], cfg).mem.pairings[ops[j].pairingId].expiresAt,
         deviceId, token)
  }

  /** Memory and file agree on a claimed pairing, so what is settled in memory is on file. */
  lemma MirrorSettles(st: Store, used: set<string>, deal: Deal, cfg: Config)
    requires Mirrored(st) && Sound(st.disk, used, cfg) && Settled(st.mem, deal) && deal.pairingId in st.mem.pairings
    ensures Settled(st.disk, deal) && (Standing(st.mem, deal) ==> Standing(st.disk, deal))
  {
    assert st.disk.pairings[deal.pairingId].deviceId == Some(deal.deviceId);
  }

  lemma PairingSettlesAt(ops: seq<Op>, j: nat, d: string, token: string, cfg: Config)
    requires Valid(ops, cfg) && PairedAt(ops, j, d, token, cfg)
    ensures SettledAt(ops, j + 1, DealAt(ops, j, d, token, cfg), cfg)
    ensures cfg.ttlMs <= PAIRING_RETENTION_MS ==> StandingAt(ops, j + 1, DealAt(ops, j, d, token, cfg), cfg)
  {
    var st, used, deal := Run(ops[..j], cfg), DrawnBy(ops[..j]), DealAt(ops, j, d, token, cfg);
    assert PossibleAt(ops, j, cfg);
    RunKeepsInv(ops, j, cfg);
    RunKeepsInv(ops, j + 1, cfg);
    RunStep(ops, j, cfg);
    FileFollows(st, ops[j], cfg);
    PairingSettles(st.mem, used, ops[j], deal, cfg);
    if cfg.ttlMs <= PAIRING_RETENTION_MS {
      PairingStands(st.mem, used, ClockAfter(ops[..j]), ops[j], deal, cfg);
    }
    MirrorSettles(Run(ops[..j + 1], cfg), DrawnBy(ops[..j + 1]), deal, cfg);
  }

  lemma NextStaysSettled(ops: seq<Op>, k: nat, deal: Deal, cfg: Config)
    requires Valid(ops, cfg) && k < |ops| && SettledAt(ops, k, deal, cfg)
    ensures SettledAt(ops, k + 1, deal, cfg)
    ensures StandingAt(ops, k, deal, cfg) && ops[k].now <= deal.until ==> StandingAt(ops, k + 1, deal, cfg)
  {
    var st, used, clock := Run(ops[..k], cfg), DrawnBy(ops[..k]), ClockAfter(ops[..k]);
    assert PossibleAt(ops, k, cfg);
    RunStep(ops, k, cfg);
    FileFollows(st, ops[k], cfg);
    PossibleForSource(st, used, clock, ops[k], cfg);
    var source := if ops[k].Restart? then st.disk else st.mem;
    StepKeepsSettled(source, used, clock, ops[k], deal, cfg);
    if StandingAt(ops, k, deal, cfg) && ops[k].now <= deal.until {
      StepKeepsStanding(source, used, clock, ops[k], deal, cfg);
    }
  }

  lemma {:induction false} SettledStays(ops: seq<Op>, i: nat, k: nat, deal: Deal, cfg: Config)
    requires Valid(ops, cfg) && i <= k <= |ops| && SettledAt(ops, i, deal, cfg)
    ensures SettledAt(ops, k, deal, cfg)
    decreases k - i
  {
    if i < k {
      NextStaysSettled(ops, i, deal, cfg);
      SettledStays(ops, i + 1, k, deal, cfg);
    }
  }

  lemma ClockGrows(ops: seq<Op>, i: nat, k: nat, cfg: Config)
    requires Valid(ops, cfg) && i < k < |ops|
    ensures ops[i].now <= ops[k].now
    decreases k - i
  {
    assert PossibleAt(ops, k, cfg);
    if i < k - 1 {
      ClockGrows(ops, i, k - 1, cfg);
    }
  }

  lemma {:induction false} StandingStays(ops: seq<Op>, i: nat, k: nat, deal: Deal, cfg: Config)
    requires Valid(ops, cfg) && i <= k < |ops| && ops[k].now <= deal.until
    requires SettledAt(ops, i, deal, cfg) && StandingAt(ops, i, deal, cfg)
    ensures StandingAt(ops, k, deal, cfg)
    decreases k - i
  {
    if i < k {
      ClockGrows(ops, i, k, cfg);
      NextStaysSettled(ops, i, deal, cfg);
      StandingStays(ops, i + 1, k, deal, cfg);
    }
  }

  /**
    * After a successful claim every retry with the same poll token, whatever happened in between, restarts included, is
    * answered with the same device and the same credential exactly until the pairing expires. Pairings may not outlast
    * the retention of claimed ones, which the configuration keeps far apart.
    */
  lemma RetryIsPaired(ops: seq<Op>, j: nat, k: nat, d: string, token: string, cfg: Config)
    requires Valid(ops, cfg) && cfg.ttlMs <= PAIRING_RETENTION_MS
    requires j < k < |ops| && PairedAt(ops, j, d, token, cfg)
    requires ops[k].Claim? && ops[k].pairingId == ops[j].pairingId && ops[k].pollToken == ops[j].pollToken
    ensures PairedAt(ops, k, d, token, cfg) <==> ops[k].now <= DealAt(ops, j, d, token, cfg).until
  {
    var deal := DealAt(ops, j, d, token, cfg);
    PairingSettlesAt(ops, j, d, token, cfg);
    SettledStays(ops, j + 1, k, deal, cfg);
    RunKeepsInv(ops, k, cfg);
    var s := Run(ops[..k], cfg).mem;
    if ops[k].now <= deal.until {
      StandingStays(ops, j + 1, k, deal, cfg);
      assert Linked(s.pairings[ops[k].pairingId], s.devices, cfg);
      TokenIsTheOne(s, deal, ops[j].pollToken, cfg);
    }
  }

  lemma TokenIsTheOne(s: State, deal: Deal, pollToken: string, cfg: Config)
    requires Settled(s, deal) && deal.pairingId in s.pairings && deal.pollHash == Sha256(pollToken)
    requires Linked(s.pairings[deal.pairingId], s.devices, cfg)
    ensures DeviceToken(deal.deviceId, pollToken, cfg) == deal.token
  {
  }

  /** Claims of one pairing, when they succeed, all return the same device and credential; of two, different devices. */
  lemma ClaimsAgree(ops: seq<Op>, j: nat, k: nat, d: string, token: string, e: string, other: string, cfg: Config)
    requires Valid(ops, cfg) && j < k && PairedAt(ops, j, d, token, cfg) && PairedAt(ops, k, e, other, cfg)
    ensures ops[j].pairingId == ops[k].pairingId ==> d == e && token == other
    ensures ops[j].pairingId != ops[k].pairingId ==> d != e
  {
    var deal := DealAt(ops, j, d, token, cfg);
    PairingSettlesAt(ops, j, d, token, cfg);
    SettledStays(ops, j + 1, k, deal, cfg);
    RunKeepsInv(ops, k, cfg);
    var s := Run(ops[..k], cfg).mem;
    assert Linked(s.pairings[ops[k].pairingId], s.devices, cfg);
    assert PossibleAt(ops, k, cfg);
    if ops[j].pairingId == ops[k].pairingId {
      TokenIsTheOne(s, deal, ops[k].pollToken, cfg);
    }
  }

  function BeforeDot(t: string): string {
    if t == [] || t[0] == '.' then [] else [t[0]] + BeforeDot(t[1..])
  }

  lemma {:induction false} BeforeDotOfId(id: string, rest: string)
    requires '.' !in id
    ensures BeforeDot(id + "." + rest) == id
  {
    if id != [] {
      BeforeDotOfId(id[1..], rest);
      assert (id + "." + rest)[1..] == id[1..] + "." + rest;
    }
  }

  lemma CredentialNamesDevice(id: string, token: string)
    requires '.' !in id && "wdv_" + id + "." <= token
    ensures |token| >= 4 && BeforeDot(token[4..]) == id
  {
    var rest := token[|id| + 5..];
    assert token == "wdv_" + id + "." + rest;
    assert token[4..] == id + "." + rest;
    BeforeDotOfId(id, rest);
  }

  /** From the claim on, the token authenticates its device, that device only, and exactly until it is revoked. */
  lemma TokenAuthenticatesUntilRevoked(ops: seq<Op>, j: nat, k: nat, d: string, token: string, id: string, cfg: Config)
    requires Valid(ops, cfg) && j < k <= |ops| && PairedAt(ops, j, d, token, cfg)
    ensures var devices := Run(ops[..k], cfg).mem.devices;
            && d in devices
            && (id in devices && Bears(devices[id], token) <==> id == d && devices[d].revokedAt.None?)
  {
    PairingSettlesAt(ops, j, d, token, cfg);
    SettledStays(ops, j + 1, k, DealAt(ops, j, d, token, cfg), cfg);
    RunKeepsInv(ops, k, cfg);
    var s := Run(ops[..k], cfg).mem;
    if id in s.devices && Bears(s.devices[id], token) {
      CredentialNamesDevice(id, token);
      CredentialNamesDevice(d, token);
    }
  }

  ghost predicate IsRevoked(s: State, d: string) {
    d in s.devices && s.devices[d].revokedAt.Some?
  }

  lemma StepKeepsRevoked(s: State, used: set<string>, op: Op, d: string, cfg: Config)
    requires d in used && Drawn(op) !! used && IsRevoked(s, d)
    ensures IsRevoked(StepMem(s, op, cfg), d)
  {
    match op
    case Claim(_, _, _, _) =>
    case _ =>
  }

  ghost predicate RevokedAt(ops: seq<Op>, k: nat, d: string, cfg: Config)
    requires k <= |ops|
  {
    IsRevoked(Run(ops[..k], cfg).mem, d) && IsRevoked(Run(ops[..k], cfg).disk, d)
  }

  lemma RevokingRevokes(ops: seq<Op>, j: nat, cfg: Config)
    requires j < |ops| && ops[j].Revoke? && ops[j].deviceId in Run(ops[..j], cfg).mem.devices
    ensures RevokedAt(ops, j + 1, ops[j].deviceId, cfg)
  {
    RunStep(ops, j, cfg);
  }

  lemma NextStaysRevoked(ops: seq<Op>, k: nat, d: string, cfg: Config)
    requires Valid(ops, cfg) && k < |ops| && RevokedAt(ops, k, d, cfg)
    ensures RevokedAt(ops, k + 1, d, cfg)
  {
    var st, used := Run(ops[..k], cfg), DrawnBy(ops[..k]);
    assert PossibleAt(ops, k, cfg);
    RunKeepsInv(ops, k, cfg);
    RunStep(ops, k, cfg);
    FileFollows(st, ops[k], cfg);
    StepKeepsRevoked(if ops[k].Restart? then st.disk else st.mem, used, ops[k], d, cfg);
  }

  lemma {:induction false} RevokedPersists(ops: seq<Op>, i: nat, k: nat, d: string, cfg: Config)
    requires Valid(ops, cfg) && i <= k <= |ops| && RevokedAt(ops, i, d, cfg)
    ensures RevokedAt(ops, k, d, cfg)
    decreases k - i
  {
    if i < k {
      NextStaysRevoked(ops, i, d, cfg);
      RevokedPersists(ops, i + 1, k, d, cfg);
    }
  }

  /** A revoked device stays revoked, in memory and on file, so its token never authenticates again. */
  lemma RevokedStays(ops: seq<Op>, j: nat, k: nat, cfg: Config)
    requires Valid(ops, cfg)
    requires j < k <= |ops| && ops[j].Revoke? && ops[j].deviceId in Run(ops[..j], cfg).mem.devices
    ensures RevokedAt(ops, k, ops[j].deviceId, cfg)
  {
    RevokingRevokes(ops, j, cfg);
    RevokedPersists(ops, j + 1, k, ops[j].deviceId, cfg);
  }

  ghost predicate IsApproved(s: State, pairingId: string) {
    pairingId in s.pairings && s.pairings[pairingId].approvedAt.Some?
  }

  lemma ApprovalIsAnOp(st: Store, op: Op, pairingId: string, cfg: Config)
    requires IsApproved(Step(st, op, cfg).mem, pairingId) || IsApproved(Step(st, op, cfg).disk, pairingId)
    ensures (op.Approve? && op.chosen == Some(pairingId))
            || IsApproved(st.mem, pairingId) || IsApproved(st.disk, pairingId)
  {
  }

  lemma {:induction false} ApprovedBefore(ops: seq<Op>, k: nat, pairingId: string, cfg: Config)
    requires k <= |ops|
    requires IsApproved(Run(ops[..k], cfg).mem, pairingId) || IsApproved(Run(ops[..k], cfg).disk, pairingId)
    ensures exists i | 0 <= i < k :: ops[i].Approve? && ops[i].chosen == Some(pairingId)
  {
    RunStep(ops, k - 1, cfg);
    ApprovalIsAnOp(Run(ops[..k - 1], cfg), ops[k - 1], pairingId, cfg);
    if !(ops[k - 1].Approve? && ops[k - 1].chosen == Some(pairingId)) {
      ApprovedBefore(ops, k - 1, pairingId, cfg);
    }
  }

  /** Nothing is claimed that was not approved before. */
  lemma PairedOnlyAfterApproval(ops: seq<Op>, k: nat, d: string, token: string, cfg: Config)
    requires PairedAt(ops, k, d, token, cfg)
    ensures exists i | 0 <= i < k :: ops[i].Approve? && ops[i].chosen == Some(ops[k].pairingId)
  {
    ApprovedBefore(ops, k, ops[k].pairingId, cfg);
  }
}
