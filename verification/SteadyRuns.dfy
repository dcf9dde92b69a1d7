/**
  * For which readings of the broker's clock every run keeps one execution per approval: exactly for the steady ones.
  * Outside them a run is built that executes one approval twice.
  */
module SteadyRuns {
  import opened ApprovalUtils
  import opened AuthorityChain
  import opened ManagedAdminApprovals
  import opened ManagedAdminBroker
  import opened ManagedAdminTicket
  import opened ReplayLedger
  import opened Sequences
  import opened Texts
  import opened Wrappers

  /* Steady readings suffice. */

  /** The broker's two readings in each request of a run, answered or refused. */
  function PresentedReadings(events: seq<Event>): seq<Reading> {
    if events == [] then []
    else
      PresentedReadings(events[..|events| - 1])
      + match events[|events| - 1] case Present(_, _, _, reading, _) => [reading] case _ => []
  }

  ghost predicate Embeds(part: seq<Reading>, whole: seq<Reading>, at: seq<nat>) {
    && |at| == |part|
    && (forall x | 0 <= x < |at| :: at[x] < |whole| && whole[at[x]] == part[x])
    && (forall x, y | 0 <= x < y < |at| :: at[x] < at[y])
  }

  lemma SteadyPart(part: seq<Reading>, whole: seq<Reading>, at: seq<nat>, life: int)
    requires Embeds(part, whole, at) && Steady(whole, life)
    ensures Steady(part, life)
  {
    forall i, j, k | 0 <= i < j <= k < |part| && CanShare(part[i].validateAt, part[k].validateAt, life)
      ensures part[j].consumeAt <= Max(part[i].validateAt, part[k].validateAt) + PRUNE_SLACK_MS
    {
      assert at[i] < at[j] <= at[k];
    }
  }

  lemma EmbedsMore(part: seq<Reading>, whole: seq<Reading>, at: seq<nat>, more: seq<Reading>)
    requires Embeds(part, whole, at)
    ensures Embeds(part, whole + more, at)
    ensures |more| == 1 ==> Embeds(part + more, whole + more, at + [|whole|])
  {
  }

  lemma ReadingsGrow(attempts: seq<Attempt>, a: Attempt)
    ensures Readings(attempts + [a]) == Readings(attempts) + [Reading(a.validateAt, a.consumeAt)]
  {
  }

  lemma AttemptsAfter(s: System, e: Event, index: nat, setup: Setup)
    ensures var t := Next(s, e, index, setup);
            t.attempts == s.attempts
            || (e.Present? && Readings(t.attempts) == Readings(s.attempts) + [e.reading])
  {
    if e.Present? {
      AfterPresentIs(s, e, index, setup);
      var admitted := Admit(e.raw, e.signature, e.authority, setup.coercions, e.reading.validateAt);
      if admitted.Ok? {
        ReadingsGrow(s.attempts, AttemptOf(admitted.value.0, e.reading));
      }
    }
  }

  lemma {:induction false} AttemptsAreEmbedded(events: seq<Event>, setup: Setup) returns (at: seq<nat>)
    ensures Embeds(Readings(Run(events, setup).attempts), PresentedReadings(events), at)
  {
    if events == [] {
      at := [];
    } else {
      var last := |events| - 1;
      var s, before := Run(events[..last], setup), PresentedReadings(events[..last]);
      at := AttemptsAreEmbedded(events[..last], setup);
      AttemptsAfter(s, events[last], last, setup);
      var more := if events[last].Present? then [events[last].reading] else [];
      EmbedsMore(Readings(s.attempts), before, at, more);
      if Run(events, setup).attempts != s.attempts {
        at := at + [|before|];
      }
    }
  }

  lemma SteadyKeepsApart(events: seq<Event>, setup: Setup)
    requires Valid(events, setup) && Steady(PresentedReadings(events), TICKET_TTL_MS)
    ensures ApprovalsDistinct(Run(events, setup))
  {
    var at := AttemptsAreEmbedded(events, setup);
    SteadyPart(Readings(Run(events, setup).attempts), PresentedReadings(events), at, TICKET_TTL_MS);
    OneExecutionPerApproval(events, setup);
  }

  /* Without them one approval can be executed twice. */

  /** An action that can be prepared, confirmed and delivered at all. */
  datatype Scene = Scene(p: Event, c: Event, b: Event, action: Action)

  ghost predicate Grantable(sc: Scene, setup: Setup) {
    setup.coercions.Lawful() && Asked(sc.p, sc.action, setup) && Agreed(sc.p, sc.c, sc.action, setup)
  }

  ghost predicate Works(sc: Scene, setup: Setup) {
    Grantable(sc, setup) && Delivered(sc.c, sc.b, sc.action, setup)
  }

  /** Without blanks at the ends the typed words are taken as they are. */
  predicate Typeable(id: Text) {
    id != [] && !IsSpace(id[|id| - 1])
  }

  datatype Name = Name(id: Text, nonce: Text)

  predicate Usable(name: Name) {
    Typeable(name.id) && IsNonce(name.nonce)
  }

  /** The same action prepared under another identifier, … */
  function Approving(sc: Scene, id: Text): Event
    requires sc.p.Prepare?
  {
    sc.p.(id := id)
  }

  /** … confirmed at another time by the control plane's clock, … */
  function Confirming(sc: Scene, name: Name, stampAt: int): Event
    requires sc.p.Prepare? && sc.c.Confirm?
  {
    Confirm(ApplyRequest(sc.p.prepare.actor, sc.action.targetId, name.id, Ascii("APPROVE ") + name.id), sc.c.world,
            Clock(sc.p.clock.stampAt, sc.c.clock.liveAt, stampAt), name.nonce)
  }

  /** … and presented when the broker's clock shows this. */
  function Delivering(sc: Scene, c: Event, reading: Reading, setup: Setup): Event
    requires c.Confirm? && sc.b.Present?
  {
    var ticket := TicketFor(sc.action, c.nonce, c.clock.stampAt);
    Present(ToJson(ticket), Signed(Derived(setup.secret), CanonicalBytes(ticket)), sc.b.authority, reading, false)
  }

  /** A request that is refused before the table is looked at. */
  function Idling(sc: Scene, reading: Reading): Event
    requires sc.b.Present?
  {
    Present(Null, Malformed([]), sc.b.authority, reading, false)
  }

  lemma TypedWordsConfirm(id: Text)
    requires Typeable(id)
    ensures Confirms(id, Ascii("APPROVE ") + id)
  {
    var typed := Ascii("APPROVE ") + id;
    assert typed[0] == 'A' as int && typed[|typed| - 1] == id[|id| - 1];
  }

  lemma ConfirmingAgrees(sc: Scene, name: Name, stampAt: int, setup: Setup)
    requires Grantable(sc, setup) && Usable(name)
    ensures Asked(Approving(sc, name.id), sc.action, setup)
    ensures Agreed(Approving(sc, name.id), Confirming(sc, name, stampAt), sc.action, setup)
  {
    TypedWordsConfirm(name.id);
  }

  /** The local checks, times apart, look at the action only. */
  lemma LocallyFineAgain(action: Action, nonce: Text, stampAt: int, other: Text, otherAt: int, a: Authority, now: int)
    requires ValidateLocal(TicketFor(action, nonce, stampAt), a, now).Ok?
    ensures LocallyFine(TicketFor(action, other, otherAt), a)
  {
  }

  lemma FineInTimeValidates(t: Ticket, a: Authority, now: int)
    requires LocallyFine(t, a) && t.issuedAt <= now + CLOCK_SKEW_MS && now <= t.expiresAt
    ensures ValidateLocal(t, a, now).Ok?
  {
  }

  lemma DeliveringDelivers(sc: Scene, c: Event, reading: Reading, setup: Setup)
    requires Works(sc, setup) && c.Confirm? && 0 < reading.validateAt
    requires c.clock.stampAt <= reading.validateAt + CLOCK_SKEW_MS
    requires reading.validateAt <= c.clock.stampAt + TICKET_TTL_MS
    ensures Delivered(c, Delivering(sc, c, reading, setup), sc.action, setup)
  {
    var a := sc.b.authority;
    LocallyFineAgain(sc.action, sc.c.nonce, sc.c.clock.stampAt, c.nonce, c.clock.stampAt, a, sc.b.reading.validateAt);
    FineInTimeValidates(TicketFor(sc.action, c.nonce, c.clock.stampAt), a, reading.validateAt);
  }

  lemma RunExtends(events: seq<Event>, e: Event, setup: Setup)
    requires Valid(events, setup) && Possible(Run(events, setup), e, setup)
    ensures Valid(events + [e], setup)
    ensures Run(events + [e], setup) == Next(Run(events, setup), e, |events|, setup)
    ensures PresentedReadings(events + [e])
            == PresentedReadings(events) + match e case Present(_, _, _, reading, _) => [reading] case _ => []
  {
    var more := events + [e];
    assert more[..|events|] == events;
    RunStep(more, setup);
    forall k | 0 <= k < |more| ensures PossibleAt(more, k, setup) {
      if k < |events| {
        assert PossibleAt(events, k, setup) && more[..k] == events[..k];
      }
    }
  }

  /** One more ticket is issued, and nothing else changes that the broker looks at. */
  ghost predicate Issued(s: System, t: System, id: Text, ticket: Ticket) {
    && t.approvals == map[] && t.prepared.Keys == s.prepared.Keys + {id}
    && t.tickets == s.tickets[ticket.nonce := ticket] && t.table == s.table && t.executions == s.executions
  }

  lemma TicketedIsIssued(s: System, sc: Scene, name: Name, stampAt: int, at: nat, index: nat, setup: Setup)
    requires Grantable(sc, setup)
    ensures Issued(s, Ticketed(Pending(s, Approving(sc, name.id), sc.action, at), Confirming(sc, name, stampAt),
                               sc.action, index), name.id, TicketFor(sc.action, name.nonce, stampAt))
  {
  }

  lemma IssuingIsPossible(s: System, sc: Scene, name: Name, stampAt: int, at: nat, setup: Setup)
    requires Grantable(sc, setup) && name.id !in s.prepared && name.nonce !in s.tickets
    ensures Possible(s, Approving(sc, name.id), setup)
    ensures Possible(Pending(s, Approving(sc, name.id), sc.action, at), Confirming(sc, name, stampAt), setup)
  {
  }

  lemma Issues(events: seq<Event>, sc: Scene, name: Name, stampAt: int, setup: Setup) returns (more: seq<Event>)
    requires Grantable(sc, setup) && Usable(name)
    requires Valid(events, setup) && Run(events, setup).approvals == map[]
    requires name.id !in Run(events, setup).prepared && name.nonce !in Run(events, setup).tickets
    ensures Valid(more, setup) && PresentedReadings(more) == PresentedReadings(events)
    ensures Issued(Run(events, setup), Run(more, setup), name.id, TicketFor(sc.action, name.nonce, stampAt))
  {
    var p, c := Approving(sc, name.id), Confirming(sc, name, stampAt);
    ConfirmingAgrees(sc, name, stampAt, setup);
    var s, at := Run(events, setup), |events|;
    IssuingIsPossible(s, sc, name, stampAt, at, setup);
    AskedIsPending(s, p, sc.action, at, setup);
    RunExtends(events, p, setup);
    AgreedIsTicketed(s, p, c, sc.action, at, at + 1, setup);
    RunExtends(events + [p], c, setup);
    TicketedIsIssued(s, sc, name, stampAt, at, at + 1, setup);
    more := events + [p] + [c];
  }

  /** Readings that are not steady at i, j and k, and names for two tickets. */
  datatype Gap = Gap(readings: seq<Reading>, i: nat, j: nat, k: nat, shared: Name, other: Name)

  predicate Open(g: Gap) {
    && g.i < g.j <= g.k < |g.readings|
    && CanShare(g.readings[g.i].validateAt, g.readings[g.k].validateAt, TICKET_TTL_MS)
    && g.readings[g.j].consumeAt > Until(g) + PRUNE_SLACK_MS
    && Usable(g.shared) && Usable(g.other) && g.shared.id != g.other.id && g.shared.nonce != g.other.nonce
  }

  /** When the ticket that i and k present expires. */
  function Until(g: Gap): int
    requires g.i < |g.readings| && g.k < |g.readings|
  {
    Max(g.readings[g.i].validateAt, g.readings[g.k].validateAt)
  }

  function Shared(sc: Scene, g: Gap): Event
    requires sc.p.Prepare? && sc.c.Confirm? && Open(g)
  {
    Confirming(sc, g.shared, Until(g) - TICKET_TTL_MS)
  }

  function Other(sc: Scene, g: Gap): Event
    requires sc.p.Prepare? && sc.c.Confirm? && Open(g)
  {
    Confirming(sc, g.other, g.readings[g.j].validateAt - TICKET_TTL_MS)
  }

  function SharedTicket(sc: Scene, g: Gap): Ticket
    requires Open(g)
  {
    TicketFor(sc.action, g.shared.nonce, Until(g) - TICKET_TTL_MS)
  }

  function OtherTicket(sc: Scene, g: Gap): Ticket
    requires Open(g)
  {
    TicketFor(sc.action, g.other.nonce, g.readings[g.j].validateAt - TICKET_TTL_MS)
  }

  /** Requests i and k present the shared ticket, j the other one unless it is k; the rest are refused. */
  function Request(sc: Scene, g: Gap, x: nat, setup: Setup): (e: Event)
    requires sc.p.Prepare? && sc.c.Confirm? && sc.b.Present? && Open(g) && x < |g.readings|
    ensures e.Present? && e.reading == g.readings[x]
  {
    if x == g.i || x == g.k then Delivering(sc, Shared(sc, g), g.readings[x], setup)
    else if x == g.j then Delivering(sc, Other(sc, g), g.readings[x], setup)
    else Idling(sc, g.readings[x])
  }

  /** Both tickets are issued, and nothing was presented yet. */
  ghost predicate Armed(s: System, one: Ticket, two: Ticket) {
    Has(s, one) && Has(s, two) && s.table == map[] && s.executions == []
  }

  /** Two approvals may be issued one after the other. */
  lemma IssuedTwice(s: System, t: System, u: System, one: Name, oneAt: int, two: Name, twoAt: int, action: Action)
    requires s == INITIAL && one.id != two.id && one.nonce != two.nonce
    requires Issued(s, t, one.id, TicketFor(action, one.nonce, oneAt))
    ensures t.approvals == map[] && two.id !in t.prepared && two.nonce !in t.tickets
    ensures Issued(t, u, two.id, TicketFor(action, two.nonce, twoAt)) ==>
              Armed(u, TicketFor(action, one.nonce, oneAt), TicketFor(action, two.nonce, twoAt))
  {
  }

  lemma TicketsCanBeIssued(
    start: seq<Event>, sc: Scene, one: Name, oneAt: int, two: Name, twoAt: int, setup: Setup)
    returns (events: seq<Event>)
    requires Grantable(sc, setup) && Usable(one) && Usable(two) && one.id != two.id && one.nonce != two.nonce
    requires Valid(start, setup) && Run(start, setup) == INITIAL
    ensures Valid(events, setup) && PresentedReadings(events) == PresentedReadings(start)
    ensures Armed(Run(events, setup), TicketFor(sc.action, one.nonce, oneAt), TicketFor(sc.action, two.nonce, twoAt))
  {
    var first := Issues(start, sc, one, oneAt, setup);
    var t := Run(first, setup);
    IssuedTwice(INITIAL, t, t, one, oneAt, two, twoAt, sc.action);
    events := Issues(first, sc, two, twoAt, setup);
    IssuedTwice(INITIAL, t, Run(events, setup), one, oneAt, two, twoAt, sc.action);
  }

  ghost predicate HaveBoth(s: System, sc: Scene, g: Gap)
    requires Open(g)
  {
    Has(s, SharedTicket(sc, g)) && Has(s, OtherTicket(sc, g))
  }

  ghost predicate Has(s: System, t: Ticket) {
    t.nonce in s.tickets && s.tickets[t.nonce] == t
  }

  lemma IdlingChangesNothing(s: System, sc: Scene, reading: Reading, index: nat, setup: Setup)
    requires Works(sc, setup) && 0 < reading.validateAt
    ensures Possible(s, Idling(sc, reading), setup) && Next(s, Idling(sc, reading), index, setup) == s
  {
    AfterPresentIs(s, Idling(sc, reading), index, setup);
  }

  /** A delivery in time goes to the table, and is executed if the table lets it through. */
  ghost predicate Went(s: System, t: System, ticket: Ticket, reading: Reading) {
    && t.tickets == s.tickets && t.table == RecordPruned(s.table, AttemptOf(ticket, reading))
    && if AcceptsPruned(s.table, AttemptOf(ticket, reading))
       then |t.executions| == |s.executions| + 1 && s.executions <= t.executions
            && t.executions[|s.executions|].ticket == ticket
       else t.executions == s.executions
  }

  lemma RecordedWent(s: System, b: Event, index: nat, ticket: Ticket, cwd: Text)
    requires b.Present? && !b.crash
    ensures var attempt := AttemptOf(ticket, b.reading);
            Went(s, Recorded(s, attempt, ExecutionOf(s, b, index, ticket, cwd)), ticket, b.reading)
  {
  }

  lemma DeliveringIsPossible(s: System, sc: Scene, c: Event, reading: Reading, setup: Setup)
    requires Works(sc, setup) && c.Confirm? && 0 < reading.validateAt
    requires Has(s, TicketFor(sc.action, c.nonce, c.clock.stampAt))
    ensures Possible(s, Delivering(sc, c, reading, setup), setup)
  {
    assert c.nonce in s.tickets;
  }

  lemma DeliveryGoes(s: System, sc: Scene, name: Name, stampAt: int, r: Reading, index: nat, setup: Setup)
    requires Works(sc, setup) && Usable(name) && Has(s, TicketFor(sc.action, name.nonce, stampAt))
    requires 0 < r.validateAt && stampAt <= r.validateAt + CLOCK_SKEW_MS && r.validateAt <= stampAt + TICKET_TTL_MS
    ensures var e := Delivering(sc, Confirming(sc, name, stampAt), r, setup);
            var ticket := TicketFor(sc.action, name.nonce, stampAt);
            && Possible(s, e, setup) && InTime(AttemptOf(ticket, r)) && Went(s, Next(s, e, index, setup), ticket, r)
  {
    var c := Confirming(sc, name, stampAt);
    ConfirmingAgrees(sc, name, stampAt, setup);
    AgreedIsNormal(Approving(sc, name.id), c, sc.action, setup);
    DeliveringDelivers(sc, c, r, setup);
    DeliveringIsPossible(s, sc, c, r, setup);
    var cwd := DeliveryIsRecorded(s, c, Delivering(sc, c, r, setup), sc.action, index, setup);
    RecordedWent(s, Delivering(sc, c, r, setup), index, TicketFor(sc.action, name.nonce, stampAt), cwd);
  }

  /* The run, request by request. */

  ghost predicate Started(executions: seq<Execution>, nonce: Text) {
    executions != [] && executions[0].ticket.nonce == nonce
  }

  ghost predicate Twice(executions: seq<Execution>, nonce: Text) {
    Started(executions, nonce) && exists y | 0 < y < |executions| :: executions[y].ticket.nonce == nonce
  }

  /** Before request x: what the table still knows of the shared ticket, and how often it was executed. */
  ghost predicate Stage(table: Table, executions: seq<Execution>, nonce: Text, g: Gap, x: nat)
    requires Open(g)
  {
    && (x <= g.i ==> table == map[] && executions == [])
    && (g.i < x <= g.j ==> table == map[nonce := Until(g)])
    && (g.j < x <= g.k ==> nonce !in table)
    && (g.i < x ==> Started(executions, nonce))
    && (g.k < x ==> Twice(executions, nonce))
  }

  ghost predicate StageOf(s: System, sc: Scene, g: Gap, x: nat)
    requires Open(g)
  {
    HaveBoth(s, sc, g) && Stage(s.table, s.executions, g.shared.nonce, g, x)
  }

  lemma StageIdles(table: Table, executions: seq<Execution>, nonce: Text, g: Gap, x: nat)
    requires Open(g) && Stage(table, executions, nonce, g, x) && x != g.i && x != g.j && x != g.k
    ensures Stage(table, executions, nonce, g, x + 1)
  {
  }

  /** The shared ticket is let through at i, and again at k: by then the table has dropped it, or does so now. */
  lemma StageShares(s: System, t: System, ticket: Ticket, g: Gap, x: nat)
    requires Open(g) && x in {g.i, g.k} && Stage(s.table, s.executions, ticket.nonce, g, x)
    requires ticket.expiresAt == Until(g) && InTime(AttemptOf(ticket, g.readings[x]))
    requires Went(s, t, ticket, g.readings[x])
    ensures Stage(t.table, t.executions, ticket.nonce, g, x + 1)
  {
    var attempt := AttemptOf(ticket, g.readings[x]);
    assert ticket.nonce !in Pruned(s.table, attempt.consumeAt);
    if x == g.i {
      assert Pruned(s.table, attempt.consumeAt) == map[];
    } else {
      assert t.executions[0] == s.executions[0];
    }
  }

  /** The other ticket is let through at j, and recording it drops the shared one. */
  lemma StageDrops(s: System, t: System, shared: Text, ticket: Ticket, g: Gap)
    requires Open(g) && g.j < g.k && Stage(s.table, s.executions, shared, g, g.j) && ticket.nonce != shared
    requires InTime(AttemptOf(ticket, g.readings[g.j])) && Went(s, t, ticket, g.readings[g.j])
    ensures Stage(t.table, t.executions, shared, g, g.j + 1)
  {
    assert Pruned(s.table, g.readings[g.j].consumeAt) == map[];
    assert t.executions[0] == s.executions[0];
  }

  /** The shared ticket is in time at both of its presentations. */
  lemma SharedIsInTime(g: Gap, x: nat)
    requires Open(g) && x in {g.i, g.k}
    ensures var stampAt, v := Until(g) - TICKET_TTL_MS, g.readings[x].validateAt;
            stampAt <= v + CLOCK_SKEW_MS && v <= stampAt + TICKET_TTL_MS
  {
  }

  lemma SharedIsDelivered(s: System, sc: Scene, g: Gap, x: nat, index: nat, setup: Setup)
    requires Works(sc, setup) && Open(g) && Positive(g.readings) && x in {g.i, g.k} && Has(s, SharedTicket(sc, g))
    ensures var e, ticket := Request(sc, g, x, setup), SharedTicket(sc, g);
            && Possible(s, e, setup) && InTime(AttemptOf(ticket, g.readings[x]))
            && Went(s, Next(s, e, index, setup), ticket, g.readings[x])
  {
    SharedIsInTime(g, x);
    DeliveryGoes(s, sc, g.shared, Until(g) - TICKET_TTL_MS, g.readings[x], index, setup);
  }

  lemma WentKeepsTickets(s: System, t: System, ticket: Ticket, reading: Reading, sc: Scene, g: Gap)
    requires Went(s, t, ticket, reading) && Open(g) && HaveBoth(s, sc, g)
    ensures HaveBoth(t, sc, g)
  {
  }

  lemma SharedGoes(s: System, sc: Scene, g: Gap, x: nat, index: nat, setup: Setup)
    requires Works(sc, setup) && Open(g) && Positive(g.readings) && x in {g.i, g.k} && StageOf(s, sc, g, x)
    ensures var e := Request(sc, g, x, setup);
            Possible(s, e, setup) && StageOf(Next(s, e, index, setup), sc, g, x + 1)
  {
    var t, ticket := Next(s, Request(sc, g, x, setup), index, setup), SharedTicket(sc, g);
    SharedIsDelivered(s, sc, g, x, index, setup);
    WentKeepsTickets(s, t, ticket, g.readings[x], sc, g);
    StageShares(s, t, ticket, g, x);
  }

  lemma OtherGoes(s: System, sc: Scene, g: Gap, index: nat, setup: Setup)
    requires Works(sc, setup) && Open(g) && Positive(g.readings) && g.j < g.k && StageOf(s, sc, g, g.j)
    ensures var e := Request(sc, g, g.j, setup);
            Possible(s, e, setup) && StageOf(Next(s, e, index, setup), sc, g, g.j + 1)
  {
    var e, ticket, r := Request(sc, g, g.j, setup), OtherTicket(sc, g), g.readings[g.j];
    DeliveryGoes(s, sc, g.other, r.validateAt - TICKET_TTL_MS, r, index, setup);
    StageDrops(s, Next(s, e, index, setup), g.shared.nonce, ticket, g);
  }

  lemma StageStep(s: System, sc: Scene, g: Gap, x: nat, index: nat, setup: Setup)
    requires Works(sc, setup) && Open(g) && Positive(g.readings) && x < |g.readings| && StageOf(s, sc, g, x)
    ensures var e := Request(sc, g, x, setup);
            Possible(s, e, setup) && StageOf(Next(s, e, index, setup), sc, g, x + 1)
  {
    if x == g.i || x == g.k {
      SharedGoes(s, sc, g, x, index, setup);
    } else if x == g.j {
      OtherGoes(s, sc, g, index, setup);
    } else {
      IdlingChangesNothing(s, sc, g.readings[x], index, setup);
      StageIdles(s.table, s.executions, g.shared.nonce, g, x);
    }
  }

  /** This run has come to request x. */
  ghost predicate Reached(events: seq<Event>, sc: Scene, g: Gap, x: nat, setup: Setup)
    requires Open(g) && x <= |g.readings|
  {
    Valid(events, setup) && PresentedReadings(events) == g.readings[..x] && StageOf(Run(events, setup), sc, g, x)
  }

  lemma StartCanBeReached(sc: Scene, g: Gap, setup: Setup) returns (events: seq<Event>)
    requires Works(sc, setup) && Open(g)
    ensures Reached(events, sc, g, 0, setup)
  {
    events := TicketsCanBeIssued(
      [], sc, g.shared, Until(g) - TICKET_TTL_MS, g.other, g.readings[g.j].validateAt - TICKET_TTL_MS, setup);
  }

  lemma TakeOneMore(readings: seq<Reading>, x: nat)
    requires x < |readings|
    ensures readings[..x] + [readings[x]] == readings[..x + 1]
  {
  }

  lemma ReachedExtends(events: seq<Event>, e: Event, sc: Scene, g: Gap, x: nat, setup: Setup)
    requires Open(g) && x < |g.readings| && Reached(events, sc, g, x, setup)
    requires e.Present? && e.reading == g.readings[x] && Possible(Run(events, setup), e, setup)
    requires StageOf(Next(Run(events, setup), e, |events|, setup), sc, g, x + 1)
    ensures Reached(events + [e], sc, g, x + 1, setup)
  {
    RunExtends(events, e, setup);
    TakeOneMore(g.readings, x);
  }

  lemma NextCanBeReached(events: seq<Event>, sc: Scene, g: Gap, x: nat, setup: Setup) returns (more: seq<Event>)
    requires Works(sc, setup) && Open(g) && Positive(g.readings)
    requires x < |g.readings| && Reached(events, sc, g, x, setup)
    ensures Reached(more, sc, g, x + 1, setup)
  {
    var e := Request(sc, g, x, setup);
    StageStep(Run(events, setup), sc, g, x, |events|, setup);
    ReachedExtends(events, e, sc, g, x, setup);
    more := events + [e];
  }

  lemma {:induction false} StagesCanBeReached(sc: Scene, g: Gap, x: nat, setup: Setup) returns (events: seq<Event>)
    requires Works(sc, setup) && Open(g) && Positive(g.readings) && x <= |g.readings|
    ensures Reached(events, sc, g, x, setup)
  {
    if x == 0 {
      events := StartCanBeReached(sc, g, setup);
    } else {
      events := StagesCanBeReached(sc, g, x - 1, setup);
      events := NextCanBeReached(events, sc, g, x - 1, setup);
    }
  }

  function NameOf(c: char): Name
    requires c as int < 0x80
  {
    Name([c as int], seq(32, _ => c as int))
  }

  lemma NamesAreUsable()
    ensures Usable(NameOf('a')) && Usable(NameOf('b')) && NameOf('a').id != NameOf('b').id
    ensures NameOf('a').nonce != NameOf('b').nonce
  {
    assert NameOf('a').id[0] != NameOf('b').id[0] && NameOf('a').nonce[0] != NameOf('b').nonce[0];
  }

  lemma GapIn(readings: seq<Reading>, shared: Name, other: Name) returns (g: Gap)
    requires !Steady(readings, TICKET_TTL_MS)
    requires Usable(shared) && Usable(other) && shared.id != other.id && shared.nonce != other.nonce
    ensures Open(g) && g.readings == readings
  {
    var i, j, k :| 0 <= i < j <= k < |readings| &&
      CanShare(readings[i].validateAt, readings[k].validateAt, TICKET_TTL_MS) &&
      readings[j].consumeAt > Max(readings[i].validateAt, readings[k].validateAt) + PRUNE_SLACK_MS;
    g := Gap(readings, i, j, k, shared, other);
  }

  /** Readings that are not steady are those of a run that executes one approval twice. */
  lemma UnsteadyExecutesTwice(readings: seq<Reading>, sc: Scene, setup: Setup) returns (events: seq<Event>)
    requires Works(sc, setup) && Positive(readings) && !Steady(readings, TICKET_TTL_MS)
    ensures Valid(events, setup) && PresentedReadings(events) == readings
    ensures !ApprovalsDistinct(Run(events, setup))
  {
    NamesAreUsable();
    var g := GapIn(readings, NameOf('a'), NameOf('b'));
    events := StagesCanBeReached(sc, g, |readings|, setup);
    TwiceIsNotDistinct(Run(events, setup), g.shared.nonce);
  }

  lemma TwiceIsNotDistinct(s: System, nonce: Text)
    requires Twice(s.executions, nonce)
    ensures !ApprovalsDistinct(s)
  {
    var y :| 0 < y < |s.executions| && s.executions[y].ticket.nonce == nonce;
    assert ApprovalOf(s, s.executions[0]) == ApprovalOf(s, s.executions[y]);
  }

  /**
    * The exact condition, over whole runs: for given readings of the broker's clock every run, whatever is prepared,
    * confirmed, presented, replayed or restarted in it, keeps one execution per approval if and only if the readings
    * are steady for tickets of ninety seconds. That some action can be executed at all is the only assumption.
    */
  lemma SteadinessIsExact(readings: seq<Reading>, sc: Scene, setup: Setup)
    requires Works(sc, setup) && Positive(readings)
    ensures (forall events | Valid(events, setup) && PresentedReadings(events) == readings ::
               ApprovalsDistinct(Run(events, setup)))
            <==> Steady(readings, TICKET_TTL_MS)
  {
    if Steady(readings, TICKET_TTL_MS) {
      forall events | Valid(events, setup) && PresentedReadings(events) == readings
        ensures ApprovalsDistinct(Run(events, setup))
      {
        SteadyKeepsApart(events, setup);
      }
    } else {
      var events := UnsteadyExecutesTwice(readings, sc, setup);
    }
  }
}
