/**
  * What the two limits and the code check of pairing achieve over whole runs, and exactly when: how many devices and
  * open pairings there can be, and when a typed code means one pairing only.
  */
module PairingLimits {
  import opened DeviceStore
  import opened PairingRuns
  import opened Sequences
  import opened Wrappers

  /* Open pairings and devices together. */

  function Load(s: State, now: int): nat {
    |ActiveDevices(s.devices)| + |ClaimableIds(s.pairings, now)|
  }

  ghost predicate Capped(s: State, now: int, cfg: Config) {
    |ClaimableIds(s.pairings, now)| <= cfg.maxPending && Load(s, now) <= cfg.maxDevices + cfg.maxPending - 1
  }

  lemma CappedLater(s: State, clock: int, now: int, cfg: Config)
    requires Capped(s, clock, cfg) && clock <= now
    ensures Capped(s, now, cfg)
  {
    SubsetIsSmaller(ClaimableIds(s.pairings, now), ClaimableIds(s.pairings, clock));
  }

  lemma AddClaimable(pairings: Pairings, id: string, p: Pairing, now: int)
    ensures |ClaimableIds(pairings[id := p], now)| <= |ClaimableIds(pairings, now)| + 1
  {
    SubsetIsSmaller(ClaimableIds(pairings[id := p], now), ClaimableIds(pairings, now) + {id});
  }

  lemma CreateKeepsCapped(s: State, op: Op, cfg: Config)
    requires op.Create? && Capped(s, op.now, cfg)
    ensures Capped(StepMem(s, op, cfg), op.now, cfg)
  {
    var kept := DropLapsed(s.pairings, op.now);
    SubsetIsSmaller(ClaimableIds(kept, op.now), ClaimableIds(s.pairings, op.now));
    AddClaimable(kept, op.draw.pairingId, NewPairing(op.meta, op.draw, op.now, cfg), op.now);
  }

  /** A claim that makes a device closes its pairing, and no limit is looked at. */
  lemma ClaimMoves(s: State, used: set<string>, op: Op, cfg: Config)
    requires op.Claim? && Sound(s, used, cfg) && Drawn(op) !! used
    requires Creates(s, op.pairingId, op.pollToken, op.now)
    ensures var t := StepMem(s, op, cfg);
            && |ActiveDevices(t.devices)| == |ActiveDevices(s.devices)| + 1
            && |ClaimableIds(t.pairings, op.now)| == |ClaimableIds(s.pairings, op.now)| - 1
  {
    var t := StepMem(s, op, cfg);
    assert Linked(s.pairings[op.pairingId], s.devices, cfg);
    assert ActiveDevices(t.devices) == ActiveDevices(s.devices) + {op.newId};
    assert ClaimableIds(t.pairings, op.now) == ClaimableIds(s.pairings, op.now) - {op.pairingId};
    assert op.pairingId in ClaimableIds(s.pairings, op.now);
  }

  ghost predicate IsClaim(s: State, op: Op) {
    op.Claim? && Creates(s, op.pairingId, op.pollToken, op.now)
  }

  lemma OthersAddNone(s: State, op: Op, cfg: Config)
    requires !IsClaim(s, op)
    ensures |ActiveDevices(StepMem(s, op, cfg).devices)| <= |ActiveDevices(s.devices)|
    ensures !op.Create? ==> |ClaimableIds(StepMem(s, op, cfg).pairings, op.now)| <= |ClaimableIds(s.pairings, op.now)|
  {
    var t := StepMem(s, op, cfg);
    SubsetIsSmaller(ActiveDevices(t.devices), ActiveDevices(s.devices));
    if !op.Create? {
      SubsetIsSmaller(ClaimableIds(t.pairings, op.now), ClaimableIds(s.pairings, op.now));
    }
  }

  lemma StepKeepsCapped(s: State, used: set<string>, clock: int, op: Op, cfg: Config)
    requires Sound(s, used, cfg) && Capped(s, clock, cfg) && Possible(s, used, clock, op, cfg)
    ensures Capped(StepMem(s, op, cfg), op.now, cfg)
  {
    CappedLater(s, clock, op.now, cfg);
    if IsClaim(s, op) {
      ClaimMoves(s, used, op, cfg);
    } else if op.Create? {
      CreateKeepsCapped(s, op, cfg);
    } else {
      OthersAddNone(s, op, cfg);
    }
  }

  ghost predicate CappedAt(ops: seq<Op>, k: nat, cfg: Config)
    requires k <= |ops|
  {
    var st, clock := Run(ops[..k], cfg), ClockAfter(ops[..k]);
    Capped(st.mem, clock, cfg) && Capped(st.disk, clock, cfg)
  }

  lemma NextKeepsCapped(ops: seq<Op>, k: nat, cfg: Config)
    requires Valid(ops, cfg) && k < |ops| && CappedAt(ops, k, cfg)
    ensures CappedAt(ops, k + 1, cfg)
  {
    var st, used, clock, op := Run(ops[..k], cfg), DrawnBy(ops[..k]), ClockAfter(ops[..k]), ops[k];
    assert PossibleAt(ops, k, cfg);
    RunKeepsInv(ops, k, cfg);
    RunStep(ops, k, cfg);
    FileFollows(st, op, cfg);
    PossibleForSource(st, used, clock, op, cfg);
    StepKeepsCapped(if op.Restart? then st.disk else st.mem, used, clock, op, cfg);
    CappedLater(st.disk, clock, op.now, cfg);
  }

  lemma {:induction false} RunKeepsCapped(ops: seq<Op>, k: nat, cfg: Config)
    requires Valid(ops, cfg) && k <= |ops| && cfg.maxDevices >= 1 && cfg.maxPending >= 1
    ensures CappedAt(ops, k, cfg)
  {
    if k > 0 {
      RunKeepsCapped(ops, k - 1, cfg);
      NextKeepsCapped(ops, k - 1, cfg);
    }
  }

  /** There are never more open pairings than allowed, and with the devices they stay below the sum of both limits. */
  lemma CapacityHolds(ops: seq<Op>, now: int, cfg: Config)
    requires Valid(ops, cfg) && cfg.maxDevices >= 1 && cfg.maxPending >= 1 && ClockAfter(ops) <= now
    ensures var s := Run(ops, cfg).mem;
            && |ClaimableIds(s.pairings, now)| <= cfg.maxPending
            && |ActiveDevices(s.devices)| + |ClaimableIds(s.pairings, now)| <= cfg.maxDevices + cfg.maxPending - 1
  {
    assert ops[..|ops|] == ops;
    RunKeepsCapped(ops, |ops|, cfg);
    CappedLater(Run(ops, cfg).mem, ClockAfter(ops), now, cfg);
  }

  /* The limit on devices alone: in a given run. */

  ghost function DevicesAt(ops: seq<Op>, k: nat, cfg: Config): nat
    requires k <= |ops|
  {
    |ActiveDevices(Run(ops[..k], cfg).mem.devices)|
  }

  ghost predicate ClaimsAt(ops: seq<Op>, k: nat, cfg: Config)
    requires k < |ops|
  {
    IsClaim(Run(ops[..k], cfg).mem, ops[k])
  }

  lemma DevicesGrowByClaims(ops: seq<Op>, k: nat, cfg: Config)
    requires Valid(ops, cfg) && k < |ops|
    ensures ClaimsAt(ops, k, cfg) ==> DevicesAt(ops, k + 1, cfg) == DevicesAt(ops, k, cfg) + 1
    ensures !ClaimsAt(ops, k, cfg) ==> DevicesAt(ops, k + 1, cfg) <= DevicesAt(ops, k, cfg)
  {
    var st := Run(ops[..k], cfg);
    assert PossibleAt(ops, k, cfg);
    RunKeepsInv(ops, k, cfg);
    RunStep(ops, k, cfg);
    FileFollows(st, ops[k], cfg);
    if ClaimsAt(ops, k, cfg) {
      ClaimMoves(st.mem, DrawnBy(ops[..k]), ops[k], cfg);
    } else {
      OthersAddNone(if ops[k].Restart? then st.disk else st.mem, ops[k], cfg);
    }
  }

  lemma {:induction false} GuardedStaysWithin(ops: seq<Op>, k: nat, cfg: Config)
    requires Valid(ops, cfg) && k <= |ops| && cfg.maxDevices >= 0
    requires forall i | 0 <= i < |ops| && ClaimsAt(ops, i, cfg) :: DevicesAt(ops, i, cfg) < cfg.maxDevices
    ensures DevicesAt(ops, k, cfg) <= cfg.maxDevices
  {
    if k > 0 {
      GuardedStaysWithin(ops, k - 1, cfg);
      DevicesGrowByClaims(ops, k - 1, cfg);
    }
  }

  /** A run stays within the limit on devices exactly when every claim that makes a device finds room for it. */
  lemma DeviceLimitIsTheClaimsGuard(ops: seq<Op>, cfg: Config)
    requires Valid(ops, cfg) && cfg.maxDevices >= 0
    ensures (forall k | 0 <= k <= |ops| :: DevicesAt(ops, k, cfg) <= cfg.maxDevices)
       <==> (forall k | 0 <= k < |ops| && ClaimsAt(ops, k, cfg) :: DevicesAt(ops, k, cfg) < cfg.maxDevices)
  {
    if forall k | 0 <= k < |ops| && ClaimsAt(ops, k, cfg) :: DevicesAt(ops, k, cfg) < cfg.maxDevices {
      forall k | 0 <= k <= |ops| ensures DevicesAt(ops, k, cfg) <= cfg.maxDevices {
        GuardedStaysWithin(ops, k, cfg);
      }
    } else {
      var k :| 0 <= k < |ops| && ClaimsAt(ops, k, cfg) && DevicesAt(ops, k, cfg) >= cfg.maxDevices;
      DevicesGrowByClaims(ops, k, cfg);
      assert DevicesAt(ops, k + 1, cfg) > cfg.maxDevices;
    }
  }

  /* The limit on devices alone: in a given configuration. */

  lemma ValidExtends(ops: seq<Op>, op: Op, cfg: Config)
    requires Valid(ops, cfg) && Possible(Run(ops, cfg).mem, DrawnBy(ops), ClockAfter(ops), op, cfg)
    ensures Valid(ops + [op], cfg) && Run(ops + [op], cfg) == Step(Run(ops, cfg), op, cfg)
    ensures ClockAfter(ops + [op]) == op.now && DrawnBy(ops + [op]) == DrawnBy(ops) + Drawn(op)
  {
    var more := ops + [op];
    assert more[..|ops|] == ops;
    forall k | 0 <= k < |more| ensures PossibleAt(more, k, cfg) {
      if k < |ops| {
        assert more[..k] == ops[..k];
        assert PossibleAt(ops, k, cfg);
      }
    }
  }

  lemma LengthBound(names: set<string>) returns (n: nat)
    ensures forall s | s in names :: |s| < n
    decreases names
  {
    if names == {} {
      n := 0;
    } else {
      var s :| s in names;
      n := LengthBound(names - {s});
      n := if |s| < n then n else |s| + 1;
    }
  }

  lemma FreshName(names: set<string>) returns (name: string)
    ensures name !in names && '.' !in name
  {
    var n := LengthBound(names);
    name := seq(n, _ => 'x');
  }

  /** Nothing unclaimed outlasts this moment, so any code can be drawn at it. */
  ghost predicate Quiet(pairings: Pairings, now: int) {
    forall id | id in pairings && pairings[id].claimedAt.None? :: pairings[id].expiresAt <= now
  }

  /** A pairing waits for approval under the code, with its own identifier as poll token. */
  ghost predicate OpenUnder(pairings: Pairings, id: string, code: string, now: int, cfg: Config) {
    && id in pairings && Answers(pairings[id], code, now, cfg) && pairings[id].deviceId.None?
    && pairings[id].pollHash == Sha256(id)
  }

  lemma PairingCanOpen(ops: seq<Op>, meta: Meta, code: string, now: int, cfg: Config)
    returns (more: seq<Op>, id: string)
    requires Valid(ops, cfg) && ClockAfter(ops) <= now && 0 < now && cfg.ttlMs >= 0
    requires Quiet(Run(ops, cfg).mem.pairings, now) && |ClaimableIds(Run(ops, cfg).mem.pairings, now)| < cfg.maxPending
    requires |ActiveDevices(Run(ops, cfg).mem.devices)| < cfg.maxDevices
    ensures Valid(more, cfg) && ClockAfter(more) == now && id !in DrawnBy(ops) && id in DrawnBy(more)
    ensures Run(more, cfg).mem.devices == Run(ops, cfg).mem.devices
    ensures var kept := DropLapsed(Run(ops, cfg).mem.pairings, now);
            Run(more, cfg).mem.pairings == kept[id := NewPairing(meta, Draw(id, id, code), now, cfg)]
  {
    var s := Run(ops, cfg).mem;
    id := FreshName(DrawnBy(ops));
    var op := Create(meta, Draw(id, id, code), now);
    var kept := DropLapsed(s.pairings, now);
    SubsetIsSmaller(ClaimableIds(kept, now), ClaimableIds(s.pairings, now));
    ValidExtends(ops, op, cfg);
    more := ops + [op];
  }

  /** An open pairing can be approved and claimed, which makes one more device whatever the limits. */
  lemma OpenCanClaim(ops: seq<Op>, id: string, code: string, now: int, cfg: Config) returns (more: seq<Op>)
    requires Valid(ops, cfg) && ClockAfter(ops) <= now && 0 < now
    requires OpenUnder(Run(ops, cfg).mem.pairings, id, code, now, cfg)
    ensures Valid(more, cfg) && ClockAfter(more) == now
    ensures |ActiveDevices(Run(more, cfg).mem.devices)| == |ActiveDevices(Run(ops, cfg).mem.devices)| + 1
    ensures var before, after := Run(ops, cfg).mem.pairings, Run(more, cfg).mem.pairings;
            && after.Keys == before.Keys && after[id].claimedAt.Some?
            && forall j | j in before && j != id :: after[j] == before[j]
  {
    var approve := Approve(code, Some(id), now);
    ValidExtends(ops, approve, cfg);
    var approved := ops + [approve];
    var newId := FreshName(DrawnBy(approved));
    var claim := Claim(id, id, newId, now);
    ValidExtends(approved, claim, cfg);
    more := approved + [claim];
    assert approved[..|approved|] == approved;
    RunKeepsInv(approved, |approved|, cfg);
    ClaimMoves(Run(approved, cfg).mem, DrawnBy(approved), claim, cfg);
  }

  lemma {:induction false} DevicesCanFill(n: nat, meta: Meta, cfg: Config) returns (ops: seq<Op>)
    requires n <= cfg.maxDevices && cfg.maxPending >= 1 && cfg.ttlMs >= 0
    ensures Valid(ops, cfg) && ClockAfter(ops) <= 1 && |ActiveDevices(Run(ops, cfg).mem.devices)| == n
    ensures forall id | id in Run(ops, cfg).mem.pairings :: Run(ops, cfg).mem.pairings[id].claimedAt.Some?
  {
    if n == 0 {
      ops := [];
    } else {
      var before := DevicesCanFill(n - 1, meta, cfg);
      assert ClaimableIds(Run(before, cfg).mem.pairings, 1) == {};
      var one, id := PairingCanOpen(before, meta, "", 1, cfg);
      ops := OpenCanClaim(one, id, "", 1, cfg);
    }
  }

  /** Among claimed pairings an unclaimed one is still kept, and the only one open, when it expires. */
  lemma LastInstant(claimed: Pairings, id: string, p: Pairing, now: int)
    requires forall j | j in claimed :: claimed[j].claimedAt.Some?
    requires p.claimedAt.None? && p.expiresAt == now
    ensures Quiet(claimed[id := p], now) && |ClaimableIds(claimed[id := p], now)| == 1
    ensures id in DropLapsed(claimed[id := p], now) && DropLapsed(claimed[id := p], now)[id] == p
  {
    assert ClaimableIds(claimed[id := p], now) == {id};
  }

  /** The last free place is promised to two pairings, the second opened while the first can still be claimed. */
  lemma TwoCanOpen(ops: seq<Op>, meta: Meta, now: int, cfg: Config) returns (more: seq<Op>, p: string, q: string)
    requires Valid(ops, cfg) && ClockAfter(ops) <= now && 0 < now && cfg.maxPending >= 2 && cfg.ttlMs >= 0
    requires |ActiveDevices(Run(ops, cfg).mem.devices)| < cfg.maxDevices
    requires forall id | id in Run(ops, cfg).mem.pairings :: Run(ops, cfg).mem.pairings[id].claimedAt.Some?
    ensures Valid(more, cfg) && ClockAfter(more) == now + cfg.ttlMs && p != q
    ensures Run(more, cfg).mem.devices == Run(ops, cfg).mem.devices
    ensures OpenUnder(Run(more, cfg).mem.pairings, p, "", now + cfg.ttlMs, cfg)
    ensures OpenUnder(Run(more, cfg).mem.pairings, q, "", now + cfg.ttlMs, cfg)
  {
    var late, kept := now + cfg.ttlMs, DropLapsed(Run(ops, cfg).mem.pairings, now);
    assert ClaimableIds(Run(ops, cfg).mem.pairings, now) == {};
    more, p := PairingCanOpen(ops, meta, "", now, cfg);
    LastInstant(kept, p, NewPairing(meta, Draw(p, p, ""), now, cfg), late);
    more, q := PairingCanOpen(more, meta, "", late, cfg);
  }

  lemma LimitCanBePassed(meta: Meta, cfg: Config) returns (ops: seq<Op>)
    requires cfg.maxDevices >= 1 && cfg.maxPending >= 2 && cfg.ttlMs >= 0
    ensures Valid(ops, cfg) && |ActiveDevices(Run(ops, cfg).mem.devices)| == cfg.maxDevices + 1
  {
    var full := DevicesCanFill(cfg.maxDevices - 1, meta, cfg);
    var two, p, q := TwoCanOpen(full, meta, 1, cfg);
    var three := OpenCanClaim(two, p, "", 1 + cfg.ttlMs, cfg);
    ops := OpenCanClaim(three, q, "", 1 + cfg.ttlMs, cfg);
  }

  /** The limit on devices holds in every run exactly when the configuration allows one open pairing at a time. */
  lemma DeviceLimitHoldsExactly(cfg: Config)
    requires cfg.maxDevices >= 1 && cfg.maxPending >= 1 && cfg.ttlMs >= 0
    ensures (forall ops | Valid(ops, cfg) :: |ActiveDevices(Run(ops, cfg).mem.devices)| <= cfg.maxDevices)
       <==> cfg.maxPending == 1
  {
    if cfg.maxPending == 1 {
      forall ops | Valid(ops, cfg) ensures |ActiveDevices(Run(ops, cfg).mem.devices)| <= cfg.maxDevices {
        CapacityHolds(ops, ClockAfter(ops), cfg);
      }
    } else {
      var ops := LimitCanBePassed(Meta("", None, None, None), cfg);
    }
  }

  /* Codes. */

  /** Of two unclaimed pairings with one code, one had expired, and for so long, when the other was created. */
  ghost predicate Apart(p: Pairing, q: Pairing, gap: nat) {
    p.claimedAt.None? && q.claimedAt.None? && p.codeHash == q.codeHash ==>
      p.expiresAt + gap <= q.createdAt || q.expiresAt + gap <= p.createdAt
  }

  ghost predicate CodesApart(pairings: Pairings, gap: nat) {
    forall i, j | i in pairings && j in pairings && i != j :: Apart(pairings[i], pairings[j], gap)
  }

  ghost predicate Stores(s: State, op: Op, cfg: Config) {
    op.Create? && CreateStep(s, op.meta, op.draw, op.now, cfg).1.Ok?
  }

  /** What the redrawing check would come to if a pairing counted until `gap` after it expired. */
  ghost predicate DrawnApart(s: State, op: Op, gap: nat, cfg: Config) {
    Stores(s, op, cfg) ==>
      forall id | id in s.pairings && s.pairings[id].claimedAt.None?
                  && s.pairings[id].codeHash == CodeHash(op.draw.code, cfg) ::
        s.pairings[id].expiresAt + gap <= op.now
  }

  /** The check as it is leaves no gap. */
  lemma RedrawingDrawsApart(s: State, used: set<string>, clock: int, op: Op, cfg: Config)
    requires Possible(s, used, clock, op, cfg)
    ensures DrawnApart(s, op, 0, cfg)
  {
    if op.Create? {
      forall id | id in s.pairings && s.pairings[id].claimedAt.None?
                  && s.pairings[id].codeHash == CodeHash(op.draw.code, cfg)
        ensures s.pairings[id].expiresAt <= op.now
      {
        assert id in DropLapsed(s.pairings, op.now) || Lapsed(s.pairings[id], op.now);
      }
    }
  }

  lemma StepKeepsCodesApart(s: State, op: Op, gap: nat, cfg: Config)
    requires CodesApart(s.pairings, gap) && DrawnApart(s, op, gap, cfg)
    ensures CodesApart(StepMem(s, op, cfg).pairings, gap)
  {
    match op
    case Create(_, _, _) =>
    case Claim(_, _, _, _) =>
    case _ =>
  }

  ghost predicate CodesApartAt(ops: seq<Op>, k: nat, gap: nat, cfg: Config)
    requires k <= |ops|
  {
    CodesApart(Run(ops[..k], cfg).mem.pairings, gap) && CodesApart(Run(ops[..k], cfg).disk.pairings, gap)
  }

  ghost predicate DrawnApartAt(ops: seq<Op>, k: nat, gap: nat, cfg: Config)
    requires k < |ops|
  {
    DrawnApart(Run(ops[..k], cfg).mem, ops[k], gap, cfg)
  }

  lemma {:induction false} RunKeepsCodesApart(ops: seq<Op>, k: nat, gap: nat, cfg: Config)
    requires k <= |ops| && forall i | 0 <= i < |ops| :: DrawnApartAt(ops, i, gap, cfg)
    ensures CodesApartAt(ops, k, gap, cfg)
  {
    if k > 0 {
      RunKeepsCodesApart(ops, k - 1, gap, cfg);
      var st, op := Run(ops[..k - 1], cfg), ops[k - 1];
      assert DrawnApartAt(ops, k - 1, gap, cfg);
      RunStep(ops, k - 1, cfg);
      FileFollows(st, op, cfg);
      StepKeepsCodesApart(if op.Restart? then st.disk else st.mem, op, gap, cfg);
    }
  }

  lemma RunsDrawApart(ops: seq<Op>, cfg: Config)
    requires Valid(ops, cfg)
    ensures forall k | 0 <= k < |ops| :: DrawnApartAt(ops, k, 0, cfg)
  {
    forall k | 0 <= k < |ops| ensures DrawnApartAt(ops, k, 0, cfg) {
      assert PossibleAt(ops, k, cfg);
      RedrawingDrawsApart(Run(ops[..k], cfg).mem, DrawnBy(ops[..k]), ClockAfter(ops[..k]), ops[k], cfg);
    }
  }

  /** One of the two expires at this instant and the other was created at it. */
  predicate Meet(p: Pairing, q: Pairing, now: int) {
    p.expiresAt == q.createdAt == now || q.expiresAt == p.createdAt == now
  }

  ghost predicate BothAnswer(pairings: Pairings, i: string, j: string, code: string, now: int, cfg: Config) {
    && i != j && i in pairings && j in pairings
    && Answers(pairings[i], code, now, cfg) && Answers(pairings[j], code, now, cfg)
  }

  /**
    * A typed code is answered by two pairings exactly if both are unclaimed under it and this is the very instant at
    * which one expires and the other was created: redrawing takes that instant as past, approving as still open.
    */
  lemma CodeAnswersExactly(ops: seq<Op>, i: string, j: string, code: string, now: int, cfg: Config)
    requires Valid(ops, cfg) && ClockAfter(ops) <= now && cfg.ttlMs >= 0
    requires i != j && i in Run(ops, cfg).mem.pairings && j in Run(ops, cfg).mem.pairings
    ensures var p, q := Run(ops, cfg).mem.pairings[i], Run(ops, cfg).mem.pairings[j];
            BothAnswer(Run(ops, cfg).mem.pairings, i, j, code, now, cfg)
            <==> (p.claimedAt.None? && q.claimedAt.None? && p.codeHash == q.codeHash == CodeHash(code, cfg)
                  && Meet(p, q, now))
  {
    assert ops[..|ops|] == ops;
    RunsDrawApart(ops, cfg);
    RunKeepsCodesApart(ops, |ops|, 0, cfg);
    RunKeepsInv(ops, |ops|, cfg);
    var pairings := Run(ops, cfg).mem.pairings;
    assert Timed(pairings[i], ClockAfter(ops), cfg) && Timed(pairings[j], ClockAfter(ops), cfg);
  }

  /** No code ever means two pairings, in memory, after so many operations, then or later. */
  ghost predicate OneAnswerAt(ops: seq<Op>, k: nat, cfg: Config)
    requires k <= |ops|
  {
    forall i, j, code, now | ClockAfter(ops[..k]) <= now ::
      !BothAnswer(Run(ops[..k], cfg).mem.pairings, i, j, code, now, cfg)
  }

  lemma ApartByOneAnswers(ops: seq<Op>, k: nat, cfg: Config)
    requires Valid(ops, cfg) && k <= |ops| && CodesApartAt(ops, k, 1, cfg)
    ensures OneAnswerAt(ops, k, cfg)
  {
    RunKeepsInv(ops, k, cfg);
    forall i, j, code, now | ClockAfter(ops[..k]) <= now
      ensures !BothAnswer(Run(ops[..k], cfg).mem.pairings, i, j, code, now, cfg)
    {
      var pairings := Run(ops[..k], cfg).mem.pairings;
      if i != j && i in pairings && j in pairings {
        assert Timed(pairings[i], ClockAfter(ops[..k]), cfg) && Timed(pairings[j], ClockAfter(ops[..k]), cfg);
        assert Apart(pairings[i], pairings[j], 1);
      }
    }
  }

  /** A pairing stored under a code that is just expiring elsewhere makes the code mean two. */
  lemma MeetingAnswersTwice(ops: seq<Op>, k: nat, cfg: Config)
    requires Valid(ops, cfg) && k < |ops| && cfg.ttlMs >= 0 && !DrawnApartAt(ops, k, 1, cfg)
    ensures !OneAnswerAt(ops, k + 1, cfg)
  {
    var s, op := Run(ops[..k], cfg).mem, ops[k];
    assert PossibleAt(ops, k, cfg);
    RedrawingDrawsApart(s, DrawnBy(ops[..k]), ClockAfter(ops[..k]), op, cfg);
    RunKeepsInv(ops, k, cfg);
    RunStep(ops, k, cfg);
    var id :| id in s.pairings && s.pairings[id].claimedAt.None?
              && s.pairings[id].codeHash == CodeHash(op.draw.code, cfg) && s.pairings[id].expiresAt + 1 > op.now;
    assert BothAnswer(Run(ops[..k + 1], cfg).mem.pairings, id, op.draw.pairingId, op.draw.code, op.now, cfg);
  }

  /**
    * In a run no code ever means two pairings exactly when no pairing is stored at the instant at which an unclaimed
    * one of its code expires: with `>=` for `>` in the redrawing check this could not happen.
    */
  lemma OneAnswerIsTheDrawsGuard(ops: seq<Op>, cfg: Config)
    requires Valid(ops, cfg) && cfg.ttlMs >= 0
    ensures (forall k | 0 <= k <= |ops| :: OneAnswerAt(ops, k, cfg))
       <==> (forall k | 0 <= k < |ops| :: DrawnApartAt(ops, k, 1, cfg))
  {
    if forall k | 0 <= k < |ops| :: DrawnApartAt(ops, k, 1, cfg) {
      forall k | 0 <= k <= |ops| ensures OneAnswerAt(ops, k, cfg) {
        RunKeepsCodesApart(ops, k, 1, cfg);
        ApartByOneAnswers(ops, k, cfg);
      }
    } else {
      var k :| 0 <= k < |ops| && !DrawnApartAt(ops, k, 1, cfg);
      MeetingAnswersTwice(ops, k, cfg);
    }
  }

  /** A run in which a code means two pairings: the same code is drawn again as the first pairing expires. */
  function SameCodeTwice(meta: Meta, code: string, cfg: Config): seq<Op> {
    [Create(meta, Draw("p1", "t1", code), 1), Create(meta, Draw("p2", "t2", code), 1 + cfg.ttlMs)]
  }

  lemma SameCodeCanAnswerTwice(meta: Meta, code: string, cfg: Config)
    requires cfg.maxDevices >= 1 && cfg.maxPending >= 2 && cfg.ttlMs >= 0
    ensures var ops := SameCodeTwice(meta, code, cfg);
            && Valid(ops, cfg)
            && BothAnswer(Run(ops, cfg).mem.pairings, "p1", "p2", code, 1 + cfg.ttlMs, cfg)
  {
    var ops, late := SameCodeTwice(meta, code, cfg), 1 + cfg.ttlMs;
    var one := [ops[0]];
    assert ClaimableIds(map[], 1) == {} && ActiveDevices(map[]) == {};
    assert [] + one == one && one + [ops[1]] == ops;
    ValidExtends([], ops[0], cfg);
    assert ClaimableIds(DropLapsed(Run(one, cfg).mem.pairings, late), late) == {"p1"};
    ValidExtends(one, ops[1], cfg);
  }

  /** No code ever means two pairings, in any run, exactly when the configuration allows one open pairing at a time. */
  lemma OneAnswerHoldsExactly(cfg: Config)
    requires cfg.maxDevices >= 1 && cfg.maxPending >= 1 && cfg.ttlMs >= 0
    ensures (forall ops | Valid(ops, cfg) :: OneAnswerAt(ops, |ops|, cfg)) <==> cfg.maxPending == 1
  {
    if cfg.maxPending == 1 {
      forall ops | Valid(ops, cfg) ensures OneAnswerAt(ops, |ops|, cfg) {
        OneOpenAnswersOnce(ops, cfg);
      }
    } else {
      var meta := Meta("", None, None, None);
      var ops := SameCodeTwice(meta, "", cfg);
      SameCodeCanAnswerTwice(meta, "", cfg);
      assert ops[..|ops|] == ops;
      assert !OneAnswerAt(ops, |ops|, cfg);
    }
  }

  lemma OneOpenAnswersOnce(ops: seq<Op>, cfg: Config)
    requires Valid(ops, cfg) && cfg.maxDevices >= 1 && cfg.maxPending == 1
    ensures OneAnswerAt(ops, |ops|, cfg)
  {
    assert ops[..|ops|] == ops;
    forall i, j, code, now | ClockAfter(ops) <= now
      ensures !BothAnswer(Run(ops, cfg).mem.pairings, i, j, code, now, cfg)
    {
      if BothAnswer(Run(ops, cfg).mem.pairings, i, j, code, now, cfg) {
        CapacityHolds(ops, now, cfg);
        SubsetIsSmaller({i, j}, ClaimableIds(Run(ops, cfg).mem.pairings, now));
      }
    }
  }
}
