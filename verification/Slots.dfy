/** The per-target semaphore of the SSH pool. A woken caller goes on in a step of its own, after others may have run. */
module Slots {
  import opened Sequences

  type Caller = nat

  datatype State = State(active: int, queue: seq<Caller>, woken: seq<Caller>, running: set<Caller>)

  datatype Op =
    | Arrive(caller: Caller)
    | Resume(caller: Caller)
    | Finish(caller: Caller)

  /** A newcomer goes straight in when the count allows, whoever has been woken. */
  function ArriveStep(s: State, caller: Caller, limit: nat): State {
    if s.active >= limit then s.(queue := s.queue + [caller])
    else s.(active := s.active + 1, running := s.running + {caller})
  }

  function Remove(callers: seq<Caller>, caller: Caller): seq<Caller> {
    if callers == [] then []
    else if callers[0] == caller then callers[1..]
    else [callers[0]] + Remove(callers[1..], caller)
  }

  function ResumeStep(s: State, caller: Caller): State {
    s.(active := s.active + 1, woken := Remove(s.woken, caller), running := s.running + {caller})
  }

  function FinishStep(s: State, caller: Caller): State {
    var t := s.(active := s.active - 1, running := s.running - {caller});
    if s.queue == [] then t else t.(queue := s.queue[1..], woken := s.woken + [s.queue[0]])
  }

  class Semaphore {
    const limit: nat
    var active: int
    var queue: seq<Caller>
    ghost var woken: seq<Caller>
    ghost var running: set<Caller>

    ghost function Contents(): State
      reads this
    {
      State(active, queue, woken, running)
    }

    constructor (limit: nat)
      ensures this.limit == limit && Contents() == State(0, [], [], {})
    {
      this.limit := limit;
      active, queue, woken, running := 0, [], [], {};
    }

    /** Up to the point where the caller waits or runs. */
    method Enter(caller: Caller) returns (waits: bool)
      modifies this
      ensures Contents() == ArriveStep(old(Contents()), caller, limit)
      ensures waits <==> old(active) >= limit
    {
      waits := active >= limit;
      if waits {
        queue := queue + [caller];
      } else {
        active := active + 1;
        running := running + {caller};
      }
    }

    method Continue(caller: Caller)
      modifies this
      ensures Contents() == ResumeStep(old(Contents()), caller)
    {
      woken := Remove(woken, caller);
      active := active + 1;
      running := running + {caller};
    }

    /** Gives the slot back, whether the work succeeded or failed, and wakes whoever waits longest. */
    method Leave(caller: Caller)
      modifies this
      ensures Contents() == FinishStep(old(Contents()), caller)
    {
      active := active - 1;
      running := running - {caller};
      if queue != [] {
        woken := woken + [queue[0]];
        queue := queue[1..];
      }
    }
  }

  function Step(s: State, op: Op, limit: nat): State {
    match op
    case Arrive(c) => ArriveStep(s, c, limit)
    case Resume(c) => ResumeStep(s, c)
    case Finish(c) => FinishStep(s, c)
  }

  const START := State(0, [], [], {})

  function Run(ops: seq<Op>, limit: nat): State {
    if ops == [] then START else Step(Run(ops[..|ops| - 1], limit), ops[|ops| - 1], limit)
  }

  function Arrived(ops: seq<Op>): set<Caller> {
    if ops == [] then {}
    else Arrived(ops[..|ops| - 1]) + match ops[|ops| - 1] case Arrive(c) => {c} case _ => {}
  }

  /** Every call is a new caller; a woken one resumes; a running one finishes. */
  ghost predicate PossibleAt(ops: seq<Op>, k: nat, limit: nat)
    requires k < |ops|
  {
    match ops[k]
    case Arrive(c) => c !in Arrived(ops[..k])
    case Resume(c) => c in Run(ops[..k], limit).woken
    case Finish(c) => c in Run(ops[..k], limit).running
  }

  ghost predicate Valid(ops: seq<Op>, limit: nat) {
    forall k | 0 <= k < |ops| :: PossibleAt(ops, k, limit)
  }

  lemma RunStep(ops: seq<Op>, k: nat, limit: nat)
    requires k < |ops|
    ensures Run(ops[..k + 1], limit) == Step(Run(ops[..k], limit), ops[k], limit)
    ensures Arrived(ops[..k + 1]) == Arrived(ops[..k]) + match ops[k] case Arrive(c) => {c} case _ => {}
  {
    PrefixOfPrefix(ops, k);
  }

  ghost predicate Distinct(callers: seq<Caller>) {
    forall i, j | 0 <= i < j < |callers| :: callers[i] != callers[j]
  }

  ghost predicate Apart(queue: seq<Caller>, woken: seq<Caller>, running: set<Caller>) {
    && Distinct(queue) && Distinct(woken)
    && (forall c | c in queue :: c !in woken && c !in running)
    && (forall c | c in woken :: c !in running)
  }

  ghost predicate Inv(s: State, arrived: set<Caller>, limit: nat) {
    && s.active == |s.running|
    && Apart(s.queue, s.woken, s.running)
    && (forall c | c in s.queue || c in s.woken || c in s.running :: c in arrived)
    && (s.queue != [] ==> s.active + |s.woken| >= limit)
  }

  lemma {:induction false} RemoveOne(callers: seq<Caller>, caller: Caller)
    requires Distinct(callers) && caller in callers
    ensures Distinct(Remove(callers, caller)) && |Remove(callers, caller)| == |callers| - 1
    ensures forall c :: c in Remove(callers, caller) <==> c in callers && c != caller
  {
    assert callers == [callers[0]] + callers[1..];
    if callers[0] != caller {
      RemoveOne(callers[1..], caller);
      var rest := Remove(callers[1..], caller);
      assert callers[0] !in callers[1..];
      assert forall j | 0 <= j < |rest| :: rest[j] in rest;
    } else {
      assert caller !in callers[1..];
    }
  }

  lemma WakingKeepsApart(queue: seq<Caller>, woken: seq<Caller>, running: set<Caller>)
    requires queue != [] && Apart(queue, woken, running)
    ensures Apart(queue[1..], woken + [queue[0]], running)
    ensures forall c :: c in queue <==> c == queue[0] || c in queue[1..]
  {
    assert queue == [queue[0]] + queue[1..];
    assert queue[0] in queue && queue[0] !in queue[1..];
  }

  lemma ArrivalKeepsInv(s: State, arrived: set<Caller>, caller: Caller, limit: nat)
    requires Inv(s, arrived, limit) && caller !in arrived
    ensures Inv(ArriveStep(s, caller, limit), arrived + {caller}, limit)
  {
  }

  lemma ResumptionKeepsInv(s: State, arrived: set<Caller>, caller: Caller, limit: nat)
    requires Inv(s, arrived, limit) && caller in s.woken
    ensures Inv(ResumeStep(s, caller), arrived, limit)
  {
    RemoveOne(s.woken, caller);
  }

  lemma FinishKeepsInv(s: State, arrived: set<Caller>, caller: Caller, limit: nat)
    requires Inv(s, arrived, limit) && caller in s.running
    ensures Inv(FinishStep(s, caller), arrived, limit)
  {
    if s.queue != [] {
      WakingKeepsApart(s.queue, s.woken, s.running);
    }
  }

  ghost predicate InvAt(ops: seq<Op>, k: nat, limit: nat)
    requires k <= |ops|
  {
    Inv(Run(ops[..k], limit), Arrived(ops[..k]), limit)
  }

  lemma NextKeepsInv(ops: seq<Op>, k: nat, limit: nat)
    requires Valid(ops, limit) && k < |ops| && InvAt(ops, k, limit)
    ensures InvAt(ops, k + 1, limit)
  {
    assert PossibleAt(ops, k, limit);
    RunStep(ops, k, limit);
    var s, arrived := Run(ops[..k], limit), Arrived(ops[..k]);
    match ops[k]
    case Arrive(c) => ArrivalKeepsInv(s, arrived, c, limit);
    case Resume(c) => ResumptionKeepsInv(s, arrived, c, limit);
    case Finish(c) => FinishKeepsInv(s, arrived, c, limit);
  }

  /** While anyone waits, the callers running and those woken but not yet running fill the limit. */
  lemma {:induction false} NoSlotIsWasted(ops: seq<Op>, k: nat, limit: nat)
    requires Valid(ops, limit) && k <= |ops|
    ensures InvAt(ops, k, limit)
    ensures var s := Run(ops[..k], limit); s.queue != [] ==> |s.running| + |s.woken| >= limit
  {
    if k > 0 {
      NoSlotIsWasted(ops, k - 1, limit);
      NextKeepsInv(ops, k - 1, limit);
    }
  }

  /* Arrival order. */

  /** The callers that had to wait, in the order they came. */
  function Queued(ops: seq<Op>, limit: nat): seq<Caller> {
    if ops == [] then []
    else
      var before, last := ops[..|ops| - 1], ops[|ops| - 1];
      Queued(before, limit) + if last.Arrive? && Run(before, limit).active >= limit then [last.caller] else []
  }

  /** The callers woken, in the order they were. */
  function Woken(ops: seq<Op>, limit: nat): seq<Caller> {
    if ops == [] then []
    else
      var before, last := ops[..|ops| - 1], ops[|ops| - 1];
      Woken(before, limit)
      + if last.Finish? && Run(before, limit).queue != [] then [Run(before, limit).queue[0]] else []
  }

  /** Waiting callers are woken in arrival order, each once, and whoever was not woken yet still waits. */
  lemma {:induction false} WokenInArrivalOrder(ops: seq<Op>, limit: nat)
    ensures Queued(ops, limit) == Woken(ops, limit) + Run(ops, limit).queue
  {
    if ops != [] {
      var before, last := ops[..|ops| - 1], ops[|ops| - 1];
      WokenInArrivalOrder(before, limit);
      var s := Run(before, limit);
      if last.Finish? && s.queue != [] {
        assert s.queue == [s.queue[0]] + s.queue[1..];
      }
    }
  }

  /** No caller waits twice, so none is woken twice. */
  lemma {:induction false} QueuedOnce(ops: seq<Op>, k: nat, limit: nat)
    requires Valid(ops, limit) && k <= |ops|
    ensures Distinct(Queued(ops[..k], limit)) && forall c | c in Queued(ops[..k], limit) :: c in Arrived(ops[..k])
  {
    if k > 0 {
      QueuedOnce(ops, k - 1, limit);
      assert PossibleAt(ops, k - 1, limit);
      RunStep(ops, k - 1, limit);
      PrefixOfPrefix(ops, k - 1);
      var earlier := Queued(ops[..k - 1], limit);
      assert forall i | 0 <= i < |earlier| :: earlier[i] in earlier;
    }
  }

  /* The limit. */

  function Load(s: State): int {
    s.active + |s.woken|
  }

  /** A newcomer is let in although the woken callers already fill the limit. */
  ghost predicate BargesAt(ops: seq<Op>, k: nat, limit: nat)
    requires k < |ops|
  {
    var s := Run(ops[..k], limit); ops[k].Arrive? && s.active < limit <= Load(s)
  }

  lemma LoadAfter(ops: seq<Op>, k: nat, limit: nat)
    requires Valid(ops, limit) && k < |ops|
    ensures var s, t := Run(ops[..k], limit), Run(ops[..k + 1], limit);
            && (BargesAt(ops, k, limit) ==> Load(t) > limit)
            && (!BargesAt(ops, k, limit) && Load(s) <= limit ==> Load(t) <= limit)
  {
    assert PossibleAt(ops, k, limit);
    RunStep(ops, k, limit);
    NoSlotIsWasted(ops, k, limit);
    var s := Run(ops[..k], limit);
    if ops[k].Resume? {
      RemoveOne(s.woken, ops[k].caller);
    }
  }

  ghost predicate WithinAt(ops: seq<Op>, k: nat, limit: nat)
    requires k <= |ops|
  {
    Load(Run(ops[..k], limit)) <= limit
  }

  lemma {:induction false} NoBargingKeepsLimit(ops: seq<Op>, k: nat, limit: nat)
    requires Valid(ops, limit) && k <= |ops|
    requires forall i | 0 <= i < k :: !BargesAt(ops, i, limit)
    ensures WithinAt(ops, k, limit)
  {
    if k > 0 {
      NoBargingKeepsLimit(ops, k - 1, limit);
      LoadAfter(ops, k - 1, limit);
    }
  }

  /**
    * Callers running and woken stay within the limit throughout a run exactly when no newcomer was let in ahead of
    * woken callers that fill it. In such a run no more callers than the limit are ever running; the reverse fails, as
    * the newcomer may be done before the woken one goes on.
    */
  lemma WithinLimitExactly(ops: seq<Op>, limit: nat)
    requires Valid(ops, limit)
    ensures (forall k | 0 <= k <= |ops| :: WithinAt(ops, k, limit)) <==>
            (forall k | 0 <= k < |ops| :: !BargesAt(ops, k, limit))
    ensures (forall k | 0 <= k < |ops| :: !BargesAt(ops, k, limit)) ==> |Run(ops, limit).running| <= limit
  {
    if forall k | 0 <= k < |ops| :: !BargesAt(ops, k, limit) {
      forall k | 0 <= k <= |ops| ensures WithinAt(ops, k, limit) {
        NoBargingKeepsLimit(ops, k, limit);
      }
      NoSlotIsWasted(ops, |ops|, limit);
      assert ops[..|ops|] == ops && WithinAt(ops, |ops|, limit);
    } else {
      var k :| 0 <= k < |ops| && BargesAt(ops, k, limit);
      LoadAfter(ops, k, limit);
      assert !WithinAt(ops, k + 1, limit);
    }
  }

  ghost predicate RunningWithinAt(ops: seq<Op>, k: nat, limit: nat)
    requires k <= |ops|
  {
    |Run(ops[..k], limit).running| <= limit
  }

  /** A woken caller finds a slot free when it goes on. The code does not look again. */
  ghost predicate ResumesIntoRoomAt(ops: seq<Op>, k: nat, limit: nat)
    requires k < |ops|
  {
    ops[k].Resume? ==> Run(ops[..k], limit).active < limit
  }

  lemma RunningAfter(ops: seq<Op>, k: nat, limit: nat)
    requires Valid(ops, limit) && k < |ops| && RunningWithinAt(ops, k, limit)
    ensures RunningWithinAt(ops, k + 1, limit) <==> ResumesIntoRoomAt(ops, k, limit)
  {
    NoSlotIsWasted(ops, k, limit);
    NoSlotIsWasted(ops, k + 1, limit);
    RunStep(ops, k, limit);
  }

  lemma {:induction false} RoomKeepsLimit(ops: seq<Op>, k: nat, limit: nat)
    requires Valid(ops, limit) && k <= |ops|
    requires forall i | 0 <= i < |ops| :: ResumesIntoRoomAt(ops, i, limit)
    ensures RunningWithinAt(ops, k, limit)
  {
    if k > 0 {
      RoomKeepsLimit(ops, k - 1, limit);
      RunningAfter(ops, k - 1, limit);
    }
  }

  /** Throughout a run no more callers than the limit are running exactly when every woken one resumes into room. */
  lemma RunningWithinExactly(ops: seq<Op>, limit: nat)
    requires Valid(ops, limit)
    ensures (forall k | 0 <= k <= |ops| :: RunningWithinAt(ops, k, limit)) <==>
            (forall k | 0 <= k < |ops| :: ResumesIntoRoomAt(ops, k, limit))
  {
    if forall k | 0 <= k < |ops| :: ResumesIntoRoomAt(ops, k, limit) {
      forall k | 0 <= k <= |ops| ensures RunningWithinAt(ops, k, limit) {
        RoomKeepsLimit(ops, k, limit);
      }
    } else {
      var k :| 0 <= k < |ops| && !ResumesIntoRoomAt(ops, k, limit);
      if RunningWithinAt(ops, k, limit) {
        RunningAfter(ops, k, limit);
        assert !RunningWithinAt(ops, k + 1, limit);
      }
    }
  }

  lemma ValidExtends(ops: seq<Op>, op: Op, limit: nat)
    requires Valid(ops, limit)
    requires match op
             case Arrive(c) => c !in Arrived(ops)
             case Resume(c) => c in Run(ops, limit).woken
             case Finish(c) => c in Run(ops, limit).running
    ensures Valid(ops + [op], limit) && Run(ops + [op], limit) == Step(Run(ops, limit), op, limit)
    ensures Arrived(ops + [op]) == Arrived(ops) + match op case Arrive(c) => {c} case _ => {}
  {
    var more := ops + [op];
    assert more[..|ops|] == ops;
    forall k | 0 <= k < |more| ensures PossibleAt(more, k, limit) {
      if k < |ops| {
        assert PossibleAt(ops, k, limit) && more[..k] == ops[..k];
      }
    }
  }

  /** Once woken and running callers exceed the limit, letting the woken ones go on has too many running. */
  lemma {:induction false} WokenGoOn(ops: seq<Op>, limit: nat) returns (more: seq<Op>)
    requires Valid(ops, limit)
    ensures Valid(more, limit) && ops <= more && |Run(more, limit).running| == Load(Run(ops, limit))
    decreases |Run(ops, limit).woken|
  {
    assert ops[..|ops|] == ops;
    NoSlotIsWasted(ops, |ops|, limit);
    var s := Run(ops, limit);
    if s.woken == [] {
      more := ops;
    } else {
      ValidExtends(ops, Resume(s.woken[0]), limit);
      more := WokenGoOn(ops + [Resume(s.woken[0])], limit);
    }
  }

  function FirstCallers(n: nat): (r: set<Caller>)
    ensures forall c: Caller :: c in r <==> c < n
  {
    if n == 0 then {} else FirstCallers(n - 1) + {n - 1}
  }

  lemma {:induction false} SlotsCanFill(n: nat, limit: nat) returns (ops: seq<Op>)
    requires n <= limit
    ensures Valid(ops, limit) && Arrived(ops) == FirstCallers(n)
    ensures Run(ops, limit) == State(n, [], [], FirstCallers(n))
    ensures forall op | op in ops :: !op.Resume?
  {
    if n == 0 {
      ops := [];
    } else {
      ops := SlotsCanFill(n - 1, limit);
      ValidExtends(ops, Arrive(n - 1), limit);
      ops := ops + [Arrive(n - 1)];
    }
  }

  /** All slots are taken, one more caller waits and is woken, and before it goes on a newcomer takes the slot. */
  lemma PassedOver(limit: nat) returns (ops: seq<Op>)
    requires limit >= 1
    ensures Valid(ops, limit) && Run(ops, limit).woken == [limit] && limit + 1 in Run(ops, limit).running
    ensures Run(ops, limit).active == limit && Run(ops, limit).queue == []
    ensures (forall op | op in ops :: !op.Resume?) && exists k | 0 <= k < |ops| :: BargesAt(ops, k, limit)
  {
    ops := SlotsCanFill(limit, limit);
    ValidExtends(ops, Arrive(limit), limit);
    ops := ops + [Arrive(limit)];
    ValidExtends(ops, Finish(0), limit);
    ops := ops + [Finish(0)];
    assert [limit][1..] == [];
    ValidExtends(ops, Arrive(limit + 1), limit);
    var more := ops + [Arrive(limit + 1)];
    assert more[..|ops|] == ops && BargesAt(more, |ops|, limit);
    ops := more;
  }

  /** Whatever the limit, this can make one caller too many run. */
  lemma LimitCanBePassed(limit: nat) returns (ops: seq<Op>)
    requires limit >= 1
    ensures Valid(ops, limit) && |Run(ops, limit).running| == limit + 1
  {
    ops := PassedOver(limit);
    ValidExtends(ops, Resume(limit), limit);
    ops := ops + [Resume(limit)];
    assert ops[..|ops|] == ops;
    NoSlotIsWasted(ops, |ops|, limit);
  }

  /** And whatever the limit, it can be harmless: the newcomer has left when the woken caller goes on. */
  lemma PassingCanBeHarmless(limit: nat) returns (ops: seq<Op>)
    requires limit >= 1
    ensures Valid(ops, limit) && exists k | 0 <= k < |ops| :: BargesAt(ops, k, limit)
    ensures forall k | 0 <= k <= |ops| :: RunningWithinAt(ops, k, limit)
  {
    var before := PassedOver(limit);
    var k :| 0 <= k < |before| && BargesAt(before, k, limit);
    ValidExtends(before, Finish(limit + 1), limit);
    var left := before + [Finish(limit + 1)];
    ValidExtends(left, Resume(limit), limit);
    ops := left + [Resume(limit)];
    assert ops[..k] == before[..k] && BargesAt(ops, k, limit);
    forall k | 0 <= k < |ops| ensures ResumesIntoRoomAt(ops, k, limit) {
      if k == |left| {
        assert ops[..k] == left;
      } else {
        assert ops[k] == left[k] && (k < |before| ==> left[k] == before[k] && before[k] in before);
      }
    }
    RunningWithinExactly(ops, limit);
  }
}
