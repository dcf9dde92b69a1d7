/**
  * The whole managed-admin run: control plane, an agent that forwards and replays what it likes, and a broker that
  * may crash and restart. Events are processed in order; the state carries the history the claims speak about.
  */
module AuthorityChain {
  import opened ApprovalUtils
  import opened ManagedAdminApprovals
  import opened ManagedAdminBroker
  import opened ManagedAdminPolicy
  import opened ManagedAdminTicket
  import opened Paths
  import opened ReplayLedger
  import opened Sequences
  import opened Texts
  import opened Wrappers

  /** Fixed for a run: the signing secret and JavaScript's coercions. */
  datatype Setup = Setup(secret: Text, coercions: Coercions)

  datatype Event =
    | Prepare(prepare: PrepareRequest, id: Text, world: World, clock: Clock)
    | Confirm(apply: ApplyRequest, world: World, clock: Clock, nonce: Text)
      // `crash`: the broker stops after writing the nonce and before executing.
    | Present(raw: Json, signature: Signature, authority: Authority, reading: Reading, crash: bool)
    | RestartBroker

  /** `at` is the index of the presenting event, `attempt` its place among the attempts. */
  datatype Execution = Execution(ticket: Ticket, cwd: Text, at: nat, attempt: nat)

  /** What was prepared under an approval id, by which event, and until when it may be confirmed. */
  datatype Preparation = Preparation(actor: Text, action: Action, at: nat, until: int)

  /** Which approval a ticket was issued for, by which event, and its two clock readings. */
  datatype Confirmation = Confirmation(id: Text, actor: Text, at: nat, readAt: int, issuedAt: int)

  datatype System = System(
    approvals: map<Text, Approval>,
    table: Table,
    tickets: map<Text, Ticket>,            // issued so far, by nonce: what the agent has seen
    prepared: map<Text, Preparation>,      // by approval id
    confirmed: map<Text, Confirmation>,    // by nonce
    attempts: seq<Attempt>,                // presentations that reached the replay table
    accepted: seq<bool>,                   // its answers to them
    executions: seq<Execution>)

  const INITIAL := System(map[], map[], map[], map[], map[], [], [], [])

  function AfterPrepare(s: System, e: Event, index: nat, setup: Setup): System
    requires e.Prepare?
  {
    var (approvals, r) := PrepareStep(s.approvals, e.prepare, e.id, e.world, setup.coercions, e.clock);
    if r.Ok? && e.id in approvals then
      s.(approvals := approvals,
         prepared := s.prepared[e.id := Preparation(e.prepare.actor, approvals[e.id].action, index,
                                                     approvals[e.id].expiresAt)])
    else s.(approvals := approvals)
  }

  function ConfirmationBy(e: Event, index: nat): Confirmation
    requires e.Confirm?
  {
    Confirmation(e.apply.approvalId, e.apply.actor, index, e.clock.purgeAt, e.clock.stampAt)
  }

  function AfterConfirm(s: System, e: Event, index: nat): System
    requires e.Confirm?
  {
    var (approvals, r) := ConsumeStep(s.approvals, e.apply, e.world, e.clock, e.nonce);
    if r.Ok? then
      s.(approvals := approvals, tickets := s.tickets[e.nonce := r.value.ticket],
         confirmed := s.confirmed[e.nonce := ConfirmationBy(e, index)])
    else s.(approvals := approvals)
  }

  function AfterPresent(s: System, e: Event, index: nat, setup: Setup): System
    requires e.Present?
  {
    var (table, reply) := HandleStep(s.table, e.raw, e.signature, e.authority, setup.coercions, e.reading);
    match Admit(e.raw, e.signature, e.authority, setup.coercions, e.reading.validateAt)
    case Err(_) => s.(table := table)
    case Ok((ticket, _)) =>
      s.(table := table, attempts := s.attempts + [AttemptOf(ticket, e.reading)],
         accepted := s.accepted + [reply.Executed?],
         executions := if reply.Executed? && !e.crash
                       then s.executions + [Execution(reply.ticket, reply.cwd, index, |s.attempts|)]
                       else s.executions)
  }

  function Next(s: System, e: Event, index: nat, setup: Setup): System {
    match e
    case Prepare(_, _, _, _) => AfterPrepare(s, e, index, setup)
    case Confirm(_, _, _, _) => AfterConfirm(s, e, index)
    case Present(_, _, _, _, _) => AfterPresent(s, e, index, setup)
    case RestartBroker => s
  }

  function Run(events: seq<Event>, setup: Setup): System {
    if events == [] then INITIAL
    else Next(Run(events[..|events| - 1], setup), events[|events| - 1], |events| - 1, setup)
  }

  /** Unforgeable: under the authority key the agent only has signatures the control plane made. */
  ghost predicate Known(s: System, signature: Signature, setup: Setup) {
    signature.Signed? && signature.key == Derived(setup.secret) ==>
      exists n | n in s.tickets :: signature.message == CanonicalBytes(s.tickets[n])
  }

  /** Identifiers and nonces are new, and the environment is the one the setup describes. */
  ghost predicate Possible(s: System, e: Event, setup: Setup) {
    match e
    case Prepare(_, id, _, _) => id !in s.prepared
    case Confirm(_, world, _, nonce) =>
      nonce !in s.tickets && (world.secret.Some? ==> world.secret == Some(setup.secret))
    case Present(_, signature, authority, reading, _) =>
      authority.key == Derived(setup.secret) && Known(s, signature, setup) && reading.validateAt > 0
    case RestartBroker => true
  }

  ghost predicate PossibleAt(events: seq<Event>, k: nat, setup: Setup)
    requires k < |events|
  {
    Possible(Run(events[..k], setup), events[k], setup)
  }

  ghost predicate Valid(events: seq<Event>, setup: Setup) {
    forall k | 0 <= k < |events| :: PossibleAt(events, k, setup)
  }

  /** Event i prepared this very action for this actor under this id. */
  ghost predicate Prepared(events: seq<Event>, i: nat, id: Text, actor: Text, action: Action, setup: Setup) {
    && i < |events| && events[i].Prepare? && events[i].id == id && events[i].prepare.actor == actor
    && Granted(events[i].prepare, events[i].world, setup.coercions, events[i].clock.liveAt) == Ok(action)
  }

  function ActionOf(t: Ticket): Action {
    Action(t.targetId, t.deviceId, t.program, t.argv, t.cwd, t.timeoutMs)
  }

  /** Event j confirmed approval `id` in the typed words and was answered with this nonce. */
  ghost predicate Confirmed(events: seq<Event>, j: nat, nonce: Text, id: Text, actor: Text) {
    && j < |events| && events[j].Confirm? && events[j].nonce == nonce
    && events[j].apply.approvalId == id && events[j].apply.actor == actor && Confirms(id, events[j].apply.confirmation)
  }

  type Approvals = map<Text, Approval>
  type Tickets = map<Text, Ticket>
  type Preparations = map<Text, Preparation>
  type Confirmations = map<Text, Confirmation>

  /** Pending approvals are as prepared. */
  ghost predicate PendingInv(approvals: Approvals, prepared: Preparations) {
    forall id | id in approvals ::
      && id in prepared
      && prepared[id].actor == approvals[id].actor && prepared[id].action == approvals[id].action
      && prepared[id].until == approvals[id].expiresAt
  }

  /** A ticket is for what was prepared under its approval, confirmed later and in time by the same actor. */
  ghost predicate Traced(t: Ticket, c: Confirmation, prepared: Preparations) {
    && c.id in prepared && prepared[c.id].actor == c.actor
    && t == TicketFor(prepared[c.id].action, t.nonce, c.issuedAt)
    && prepared[c.id].at < c.at && c.readAt <= prepared[c.id].until
  }

  ghost predicate TicketInv(tickets: Tickets, confirmed: Confirmations, prepared: Preparations) {
    && tickets.Keys == confirmed.Keys
    && forall n | n in tickets :: tickets[n].nonce == n && Traced(tickets[n], confirmed[n], prepared)
  }

  /** An approval is confirmed once, and no longer pending then. */
  ghost predicate SpentInv(confirmed: Confirmations, approvals: Approvals) {
    && (forall n | n in confirmed :: confirmed[n].id !in approvals)
    && (forall n, m | n in confirmed && m in confirmed && n != m :: confirmed[n].id != confirmed[m].id)
  }

  ghost predicate TableInv(table: Table, attempts: seq<Attempt>, accepted: seq<bool>) {
    && table == TableAfter(attempts)
    && Positive(Readings(attempts))
    && |accepted| == |attempts|
    && forall a | 0 <= a < |attempts| :: accepted[a] == AcceptedByTable(attempts, a)
  }

  ghost predicate AttemptInv(attempts: seq<Attempt>, tickets: Tickets) {
    forall a | 0 <= a < |attempts| :: Presents(attempts[a], tickets)
  }

  /** The attempt carries the times of an issued ticket. */
  ghost predicate Presents(attempt: Attempt, tickets: Tickets) {
    && attempt.nonce in tickets
    && attempt.issuedAt == tickets[attempt.nonce].issuedAt && attempt.expiresAt == tickets[attempt.nonce].expiresAt
  }

  /** An execution is of a ticket issued before, in an accepted attempt. */
  ghost predicate Genuine(
    e: Execution, tickets: Tickets, confirmed: Confirmations, attempts: seq<Attempt>, accepted: seq<bool>)
  {
    var n := e.ticket.nonce;
    && n in tickets && tickets[n] == e.ticket && n in confirmed && confirmed[n].at < e.at
    && e.attempt < |attempts| == |accepted| && attempts[e.attempt].nonce == n && accepted[e.attempt]
  }

  ghost predicate ExecutionInv(
    executions: seq<Execution>, tickets: Tickets, confirmed: Confirmations, attempts: seq<Attempt>, accepted: seq<bool>)
  {
    && (forall x | 0 <= x < |executions| :: Genuine(executions[x], tickets, confirmed, attempts, accepted))
    && (forall x, y | 0 <= x < y < |executions| :: executions[x].attempt < executions[y].attempt)
  }

  /** The directory an execution ran in is the ticket's, resolved, and below a real root of the broker. */
  ghost predicate Local(events: seq<Event>, e: Execution) {
    && e.at < |events| && events[e.at].Present?
    && var a := events[e.at].authority;
       && a.deviceId == e.ticket.deviceId
       && a.resolve(e.ticket.cwd).Some? && e.cwd == StripSlashes(a.resolve(e.ticket.cwd).value)
       && RealRoots(a).Some? && InRoots(e.cwd, RealRoots(a).value)
       && e.ticket.issuedAt <= events[e.at].reading.validateAt + CLOCK_SKEW_MS
       && events[e.at].reading.validateAt <= e.ticket.expiresAt
  }

  ghost predicate PreparationTrue(events: seq<Event>, id: Text, p: Preparation, setup: Setup) {
    Prepared(events, p.at, id, p.actor, p.action, setup) && p.until == events[p.at].clock.stampAt + APPROVAL_TTL_MS
  }

  ghost predicate PreparationsTrue(events: seq<Event>, prepared: Preparations, setup: Setup) {
    forall id | id in prepared :: PreparationTrue(events, id, prepared[id], setup)
  }

  ghost predicate ConfirmationTrue(events: seq<Event>, n: Text, c: Confirmation) {
    && Confirmed(events, c.at, n, c.id, c.actor)
    && c.readAt == events[c.at].clock.purgeAt && c.issuedAt == events[c.at].clock.stampAt
  }

  ghost predicate ConfirmationsTrue(events: seq<Event>, confirmed: Confirmations) {
    forall n | n in confirmed :: ConfirmationTrue(events, n, confirmed[n])
  }

  ghost predicate ExecutionsLocal(events: seq<Event>, executions: seq<Execution>) {
    forall x | 0 <= x < |executions| :: Local(events, executions[x])
  }

  /** The records of the state are about the events they name. */
  ghost predicate HistoryInv(events: seq<Event>, s: System, setup: Setup) {
    && PreparationsTrue(events, s.prepared, setup)
    && ConfirmationsTrue(events, s.confirmed)
    && ExecutionsLocal(events, s.executions)
  }

  ghost predicate StateInv(s: System) {
    && PendingInv(s.approvals, s.prepared)
    && TicketInv(s.tickets, s.confirmed, s.prepared)
    && SpentInv(s.confirmed, s.approvals)
    && TableInv(s.table, s.attempts, s.accepted)
    && AttemptInv(s.attempts, s.tickets)
    && ExecutionInv(s.executions, s.tickets, s.confirmed, s.attempts, s.accepted)
  }

  ghost predicate Inv(events: seq<Event>, s: System, setup: Setup) {
    StateInv(s) && HistoryInv(events, s, setup)
  }

  /** History speaks of events by index, so a further event leaves it standing. */
  lemma HistoryExtends(events: seq<Event>, e: Event, s: System, setup: Setup)
    requires HistoryInv(events, s, setup)
    ensures HistoryInv(events + [e], s, setup)
  {
    var longer := events + [e];
    assert forall k | 0 <= k < |events| :: longer[k] == events[k];
    forall x | 0 <= x < |s.executions| ensures Local(longer, s.executions[x]) {
      assert Local(events, s.executions[x]);
    }
  }

  /* Preparing. */

  /** Some approvals lapse, and none changes. */
  predicate Fewer(after: Approvals, before: Approvals) {
    forall id | id in after :: id in before && after[id] == before[id]
  }

  lemma PrepareFacts(s: System, e: Event, index: nat, setup: Setup) returns (approvals: Approvals)
    requires e.Prepare?
    ensures Fewer(approvals, s.approvals)
    ensures var granted := Granted(e.prepare, e.world, setup.coercions, e.clock.liveAt);
            AfterPrepare(s, e, index, setup) ==
              if granted.Err? then s.(approvals := approvals)
              else
                var until := e.clock.stampAt + APPROVAL_TTL_MS;
                s.(approvals := approvals[e.id := Approval(e.prepare.actor, until, granted.value)],
                   prepared := s.prepared[e.id := Preparation(e.prepare.actor, granted.value, index, until)])
  {
    approvals := Purge(s.approvals, e.clock.purgeAt);
  }

  lemma LapseKeeps(s: System, approvals: Approvals)
    requires StateInv(s) && Fewer(approvals, s.approvals)
    ensures StateInv(s.(approvals := approvals))
  {
  }

  lemma TracedStays(tickets: Tickets, confirmed: Confirmations, prepared: Preparations, id: Text, p: Preparation)
    requires TicketInv(tickets, confirmed, prepared) && id !in prepared
    ensures TicketInv(tickets, confirmed, prepared[id := p])
  {
    forall n | n in tickets ensures Traced(tickets[n], confirmed[n], prepared[id := p]) {
      assert Traced(tickets[n], confirmed[n], prepared);
    }
  }

  lemma AddApprovalKeeps(s: System, id: Text, approval: Approval, p: Preparation)
    requires StateInv(s) && id !in s.prepared
    requires p.actor == approval.actor && p.action == approval.action && p.until == approval.expiresAt
    ensures StateInv(s.(approvals := s.approvals[id := approval], prepared := s.prepared[id := p]))
  {
    TracedStays(s.tickets, s.confirmed, s.prepared, id, p);
    forall n | n in s.confirmed ensures s.confirmed[n].id != id {
      assert Traced(s.tickets[n], s.confirmed[n], s.prepared);
    }
  }

  lemma PreparationRecorded(events: seq<Event>, prepared: Preparations, id: Text, p: Preparation, setup: Setup)
    requires PreparationsTrue(events, prepared, setup) && PreparationTrue(events, id, p, setup)
    ensures PreparationsTrue(events, prepared[id := p], setup)
  {
  }

  lemma PrepareKeeps(events: seq<Event>, e: Event, s: System, setup: Setup)
    requires e.Prepare? && Inv(events + [e], s, setup) && Possible(s, e, setup)
    ensures Inv(events + [e], AfterPrepare(s, e, |events|, setup), setup)
  {
    var approvals := PrepareFacts(s, e, |events|, setup);
    LapseKeeps(s, approvals);
    var granted := Granted(e.prepare, e.world, setup.coercions, e.clock.liveAt);
    if granted.Ok? {
      var approval := Approval(e.prepare.actor, e.clock.stampAt + APPROVAL_TTL_MS, granted.value);
      var p := Preparation(e.prepare.actor, granted.value, |events|, e.clock.stampAt + APPROVAL_TTL_MS);
      AddApprovalKeeps(s.(approvals := approvals), e.id, approval, p);
      assert PreparationTrue(events + [e], e.id, p, setup);
      PreparationRecorded(events + [e], s.prepared, e.id, p, setup);
    }
  }

  /* Confirming. */

  lemma ConfirmFacts(s: System, e: Event, index: nat) returns (approvals: Approvals, ticket: Option<Ticket>)
    requires e.Confirm?
    ensures Fewer(approvals, s.approvals)
    ensures ticket.None? ==> AfterConfirm(s, e, index) == s.(approvals := approvals)
    ensures ticket.Some? ==>
              var id := e.apply.approvalId;
              && id in s.approvals && s.approvals[id].actor == e.apply.actor && id !in approvals
              && Confirms(id, e.apply.confirmation)
              && ticket.value == TicketFor(s.approvals[id].action, e.nonce, e.clock.stampAt)
              && e.clock.purgeAt <= s.approvals[id].expiresAt
              && AfterConfirm(s, e, index) ==
                   s.(approvals := approvals, tickets := s.tickets[e.nonce := ticket.value],
                      confirmed := s.confirmed[e.nonce := ConfirmationBy(e, index)])
  {
    var (left, r) := ConsumeStep(s.approvals, e.apply, e.world, e.clock, e.nonce);
    approvals := left;
    ticket := if r.Ok? then Some(r.value.ticket) else None;
  }

  lemma ExecutionsStay(
    executions: seq<Execution>, tickets: Tickets, confirmed: Confirmations, attempts: seq<Attempt>, accepted: seq<bool>,
    n: Text, t: Ticket, c: Confirmation)
    requires ExecutionInv(executions, tickets, confirmed, attempts, accepted) && n !in tickets && n !in confirmed
    ensures ExecutionInv(executions, tickets[n := t], confirmed[n := c], attempts, accepted)
  {
    forall x | 0 <= x < |executions|
      ensures Genuine(executions[x], tickets[n := t], confirmed[n := c], attempts, accepted)
    {
      assert Genuine(executions[x], tickets, confirmed, attempts, accepted);
    }
  }

  lemma AddTicketKeeps(s: System, approvals: Approvals, t: Ticket, c: Confirmation)
    requires StateInv(s) && Fewer(approvals, s.approvals)
    requires t.nonce !in s.tickets && c.id in s.approvals && c.id !in approvals
    requires Traced(t, c, s.prepared)
    ensures StateInv(s.(approvals := approvals, tickets := s.tickets[t.nonce := t],
                        confirmed := s.confirmed[t.nonce := c]))
  {
    var tickets, confirmed := s.tickets[t.nonce := t], s.confirmed[t.nonce := c];
    ExecutionsStay(s.executions, s.tickets, s.confirmed, s.attempts, s.accepted, t.nonce, t, c);
    assert TicketInv(tickets, confirmed, s.prepared) by {
      forall n | n in tickets ensures tickets[n].nonce == n && Traced(tickets[n], confirmed[n], s.prepared) {
      }
    }
    assert SpentInv(confirmed, approvals);
    assert AttemptInv(s.attempts, tickets) by {
      forall a | 0 <= a < |s.attempts| ensures Presents(s.attempts[a], tickets) {
        assert Presents(s.attempts[a], s.tickets);
      }
    }
  }

  lemma ConfirmationRecorded(events: seq<Event>, confirmed: Confirmations, n: Text, c: Confirmation)
    requires ConfirmationsTrue(events, confirmed) && ConfirmationTrue(events, n, c)
    ensures ConfirmationsTrue(events, confirmed[n := c])
  {
  }

  lemma IssueKeeps(events: seq<Event>, s: System, approvals: Approvals, t: Ticket, c: Confirmation, setup: Setup)
    requires Inv(events, s, setup) && Fewer(approvals, s.approvals)
    requires t.nonce !in s.tickets && c.id in s.approvals && c.id !in approvals && Traced(t, c, s.prepared)
    requires ConfirmationTrue(events, t.nonce, c)
    ensures Inv(events, s.(approvals := approvals, tickets := s.tickets[t.nonce := t],
                           confirmed := s.confirmed[t.nonce := c]), setup)
  {
    AddTicketKeeps(s, approvals, t, c);
    ConfirmationRecorded(events, s.confirmed, t.nonce, c);
  }

  lemma ConfirmKeeps(events: seq<Event>, e: Event, s: System, setup: Setup)
    requires e.Confirm? && Inv(events + [e], s, setup) && Possible(s, e, setup)
    requires forall id | id in s.prepared :: s.prepared[id].at < |events|
    ensures Inv(events + [e], AfterConfirm(s, e, |events|), setup)
  {
    var approvals, ticket := ConfirmFacts(s, e, |events|);
    if ticket.Some? {
      var c := ConfirmationBy(e, |events|);
      assert ConfirmationTrue(events + [e], e.nonce, c);
      IssueKeeps(events + [e], s, approvals, ticket.value, c, setup);
    } else {
      LapseKeeps(s, approvals);
    }
  }

  /* Presenting. */

  /** What reaches the replay table is an issued ticket. */
  lemma AdmittedWasIssued(s: System, e: Event, setup: Setup)
    requires e.Present? && Possible(s, e, setup)
    requires Admit(e.raw, e.signature, e.authority, setup.coercions, e.reading.validateAt).Ok?
    requires forall n | n in s.tickets :: s.tickets[n].nonce == n
    ensures var t := Admit(e.raw, e.signature, e.authority, setup.coercions, e.reading.validateAt).value.0;
            t.nonce in s.tickets && s.tickets[t.nonce] == t
  {
    var t := Admit(e.raw, e.signature, e.authority, setup.coercions, e.reading.validateAt).value.0;
    AdmittedIsLocal(e.raw, e.signature, e.authority, setup.coercions, e.reading.validateAt);
    var n :| n in s.tickets && e.signature.message == CanonicalBytes(s.tickets[n]);
    CanonicalInjective(t, s.tickets[n]);
  }

  /** The state after an admitted presentation. */
  function Recorded(s: System, attempt: Attempt, e: Option<Execution>): System {
    s.(table := RecordPruned(s.table, attempt), attempts := s.attempts + [attempt],
       accepted := s.accepted + [AcceptsPruned(s.table, attempt)],
       executions := if e.Some? then s.executions + [e.value] else s.executions)
  }

  function ExecutionOf(s: System, e: Event, index: nat, ticket: Ticket, cwd: Text): Option<Execution>
    requires e.Present?
  {
    if AcceptsPruned(s.table, AttemptOf(ticket, e.reading)) && !e.crash
    then Some(Execution(ticket, cwd, index, |s.attempts|)) else None
  }

  lemma AfterPresentIs(s: System, e: Event, index: nat, setup: Setup)
    requires e.Present?
    ensures match Admit(e.raw, e.signature, e.authority, setup.coercions, e.reading.validateAt)
            case Err(_) => AfterPresent(s, e, index, setup) == s
            case Ok((ticket, cwd)) =>
              AfterPresent(s, e, index, setup)
              == Recorded(s, AttemptOf(ticket, e.reading), ExecutionOf(s, e, index, ticket, cwd))
  {
  }

  lemma AdmittedRunsLocally(events: seq<Event>, e: Event, setup: Setup, execution: Execution)
    requires e.Present? && execution.at < |events| && events[execution.at] == e
    requires Admit(e.raw, e.signature, e.authority, setup.coercions, e.reading.validateAt)
             == Ok((execution.ticket, execution.cwd))
    ensures Local(events, execution)
  {
    AdmittedIsLocal(e.raw, e.signature, e.authority, setup.coercions, e.reading.validateAt);
  }

  lemma TableGrows(table: Table, attempts: seq<Attempt>, accepted: seq<bool>, attempt: Attempt)
    requires TableInv(table, attempts, accepted) && attempt.validateAt > 0
    ensures TableInv(RecordPruned(table, attempt), attempts + [attempt], accepted + [AcceptsPruned(table, attempt)])
  {
    var longer := attempts + [attempt];
    assert longer[..|attempts|] == attempts;
    assert Readings(longer) == Readings(attempts) + [Reading(attempt.validateAt, attempt.consumeAt)];
    forall a | 0 <= a < |attempts| ensures accepted[a] == AcceptedByTable(longer, a) {
      assert longer[..a] == attempts[..a];
    }
  }

  lemma ExecutionsGrow(s: System, attempt: Attempt, e: Option<Execution>)
    requires ExecutionInv(s.executions, s.tickets, s.confirmed, s.attempts, s.accepted) && |s.accepted| == |s.attempts|
    requires e.Some? ==>
               && AcceptsPruned(s.table, attempt) && attempt.nonce in s.tickets && attempt.nonce in s.confirmed
               && s.tickets[attempt.nonce].nonce == attempt.nonce
               && e.value.ticket == s.tickets[attempt.nonce]
               && e.value.attempt == |s.attempts| && s.confirmed[attempt.nonce].at < e.value.at
    ensures var t := Recorded(s, attempt, e);
            ExecutionInv(t.executions, t.tickets, t.confirmed, t.attempts, t.accepted)
  {
    var t := Recorded(s, attempt, e);
    forall x | 0 <= x < |s.executions|
      ensures Genuine(s.executions[x], t.tickets, t.confirmed, t.attempts, t.accepted)
      ensures s.executions[x].attempt < |s.attempts|
    {
      assert Genuine(s.executions[x], s.tickets, s.confirmed, s.attempts, s.accepted);
    }
  }

  lemma ExecutionRecorded(events: seq<Event>, executions: seq<Execution>, e: Option<Execution>)
    requires ExecutionsLocal(events, executions) && (e.Some? ==> Local(events, e.value))
    ensures ExecutionsLocal(events, if e.Some? then executions + [e.value] else executions)
  {
    if e.Some? {
      var longer := executions + [e.value];
      forall x | 0 <= x < |longer| ensures Local(events, longer[x]) {
        assert x < |executions| ==> Local(events, executions[x]);
      }
    }
  }

  lemma RecordKeepsState(s: System, attempt: Attempt, e: Option<Execution>)
    requires StateInv(s) && attempt.validateAt > 0
    requires Presents(attempt, s.tickets)
    requires e.Some? ==>
               && AcceptsPruned(s.table, attempt) && e.value.ticket == s.tickets[attempt.nonce]
               && e.value.attempt == |s.attempts| && s.confirmed[attempt.nonce].at < e.value.at
    ensures StateInv(Recorded(s, attempt, e))
  {
    TableGrows(s.table, s.attempts, s.accepted, attempt);
    ExecutionsGrow(s, attempt, e);
    AttemptsGrow(s.attempts, s.tickets, attempt);
  }

  lemma AttemptsGrow(attempts: seq<Attempt>, tickets: Tickets, attempt: Attempt)
    requires AttemptInv(attempts, tickets) && Presents(attempt, tickets)
    ensures AttemptInv(attempts + [attempt], tickets)
  {
  }

  lemma PresentKeeps(events: seq<Event>, e: Event, s: System, setup: Setup)
    requires e.Present? && Inv(events + [e], s, setup) && Possible(s, e, setup)
    requires forall n | n in s.confirmed :: s.confirmed[n].at < |events|
    ensures Inv(events + [e], AfterPresent(s, e, |events|, setup), setup)
  {
    AfterPresentIs(s, e, |events|, setup);
    match Admit(e.raw, e.signature, e.authority, setup.coercions, e.reading.validateAt)
    case Err(_) =>
    case Ok((ticket, cwd)) =>
      AdmittedWasIssued(s, e, setup);
      var execution := ExecutionOf(s, e, |events|, ticket, cwd);
      RecordKeepsState(s, AttemptOf(ticket, e.reading), execution);
      AdmittedRunsLocally(events + [e], e, setup, Execution(ticket, cwd, |events|, |s.attempts|));
      ExecutionRecorded(events + [e], s.executions, execution);
  }

  /* Whole runs. */

  lemma RecordsAreEarlier(events: seq<Event>, s: System, setup: Setup)
    requires HistoryInv(events, s, setup)
    ensures forall id | id in s.prepared :: s.prepared[id].at < |events|
    ensures forall n | n in s.confirmed :: s.confirmed[n].at < |events|
  {
  }

  lemma StepKeeps(events: seq<Event>, e: Event, s: System, setup: Setup)
    requires Inv(events, s, setup) && Possible(s, e, setup)
    ensures Inv(events + [e], Next(s, e, |events|, setup), setup)
  {
    RecordsAreEarlier(events, s, setup);
    HistoryExtends(events, e, s, setup);
    match e
    case Prepare(_, _, _, _) => PrepareKeeps(events, e, s, setup);
    case Confirm(_, _, _, _) => ConfirmKeeps(events, e, s, setup);
    case Present(_, _, _, _, _) => PresentKeeps(events, e, s, setup);
    case RestartBroker =>
  }

  lemma ValidPrefix(events: seq<Event>, setup: Setup)
    requires events != [] && Valid(events, setup)
    ensures var last := |events| - 1;
            Valid(events[..last], setup) && Possible(Run(events[..last], setup), events[last], setup)
  {
    var before := events[..|events| - 1];
    assert PossibleAt(events, |events| - 1, setup);
    forall k | 0 <= k < |before| ensures PossibleAt(before, k, setup) {
      assert PossibleAt(events, k, setup) && before[..k] == events[..k];
    }
  }

  lemma InitialInv(setup: Setup)
    ensures Inv([], INITIAL, setup)
  {
  }

  lemma RunStep(events: seq<Event>, setup: Setup)
    requires events != []
    ensures var last := |events| - 1;
            Run(events, setup) == Next(Run(events[..last], setup), events[last], last, setup)
  {
  }

  lemma {:induction false} RunKeepsInv(events: seq<Event>, setup: Setup)
    requires Valid(events, setup)
    ensures Inv(events, Run(events, setup), setup)
  {
    if events == [] {
      InitialInv(setup);
    } else {
      var last := |events| - 1;
      ValidPrefix(events, setup);
      RunKeepsInv(events[..last], setup);
      RunStep(events, setup);
      StepKeeps(events[..last], events[last], Run(events[..last], setup), setup);
      InitAndLast(events);
    }
  }

  /** The approval an execution spent. */
  ghost function ApprovalOf(s: System, e: Execution): Text {
    if e.ticket.nonce in s.confirmed then s.confirmed[e.ticket.nonce].id else []
  }

  /** Event i prepared and event j confirmed, as the same actor and in time, exactly what was executed. */
  ghost predicate Authorized(events: seq<Event>, id: Text, e: Execution, i: nat, j: nat, setup: Setup) {
    && i < j < e.at && i < |events| && events[i].Prepare?
    && Prepared(events, i, id, events[i].prepare.actor, ActionOf(e.ticket), setup)
    && Confirmed(events, j, e.ticket.nonce, id, events[i].prepare.actor)
    && events[j].clock.purgeAt <= events[i].clock.stampAt + APPROVAL_TTL_MS
    && e.ticket.issuedAt == events[j].clock.stampAt && e.ticket.expiresAt == events[j].clock.stampAt + TICKET_TTL_MS
  }

  /** The presenting broker's device is the prepared one and the real directory lies, by segments, below a real root. */
  ghost predicate InsideRoots(events: seq<Event>, e: Execution) {
    && e.at < |events| && events[e.at].Present? && events[e.at].authority.deviceId == e.ticket.deviceId
    && var roots := RealRoots(events[e.at].authority);
       roots.Some? && exists r | 0 <= r < |roots.value| :: Segments(roots.value[r]) <= Segments(e.cwd)
  }

  lemma LocalIsInsideRoots(events: seq<Event>, e: Execution)
    requires Local(events, e)
    ensures InsideRoots(events, e)
  {
    var roots := RealRoots(events[e.at].authority).value;
    var r :| 0 <= r < |roots| && Under(e.cwd, roots[r]);
    UnderIsPrefix(e.cwd, roots[r]);
  }

  lemma TracedIsAuthorized(
    events: seq<Event>, e: Execution, c: Confirmation, prepared: Preparations, confirmed: Confirmations, setup: Setup)
    requires Traced(e.ticket, c, prepared)
    requires e.ticket.nonce in confirmed && confirmed[e.ticket.nonce] == c && c.at < e.at
    requires PreparationsTrue(events, prepared, setup) && ConfirmationsTrue(events, confirmed)
    ensures Authorized(events, c.id, e, prepared[c.id].at, c.at, setup)
  {
    var p := prepared[c.id];
    assert PreparationTrue(events, c.id, p, setup);
    assert ConfirmationTrue(events, e.ticket.nonce, c);
  }

  /** The broker validated the ticket during its life, give or take the allowed skew at the start. */
  ghost predicate Timely(events: seq<Event>, e: Execution) {
    && e.at < |events| && events[e.at].Present?
    && e.ticket.issuedAt - CLOCK_SKEW_MS <= events[e.at].reading.validateAt <= e.ticket.expiresAt
  }

  ghost predicate AccountedFor(events: seq<Event>, s: System, e: Execution, setup: Setup) {
    && InsideRoots(events, e) && Timely(events, e)
    && exists i: nat, j: nat :: Authorized(events, ApprovalOf(s, e), e, i, j, setup)
  }

  lemma ExecutionAccountedFor(events: seq<Event>, s: System, e: Execution, setup: Setup)
    requires TicketInv(s.tickets, s.confirmed, s.prepared) && HistoryInv(events, s, setup) && Local(events, e)
    requires Genuine(e, s.tickets, s.confirmed, s.attempts, s.accepted)
    ensures AccountedFor(events, s, e, setup)
  {
    var c := s.confirmed[e.ticket.nonce];
    LocalIsInsideRoots(events, e);
    TracedIsAuthorized(events, e, c, s.prepared, s.confirmed, setup);
    assert ApprovalOf(s, e) == c.id;
  }

  ghost predicate AllAccountedFor(events: seq<Event>, s: System, setup: Setup) {
    forall x | 0 <= x < |s.executions| :: AccountedFor(events, s, s.executions[x], setup)
  }

  /**
    * Every execution goes back to a Prepare and a later Confirm of the same actor, in the typed words: target, device,
    * program, arguments, directory and timeout are those prepared. The confirmation came within ten minutes of the
    * preparation and the validation within ninety seconds of the confirmation. The real directory is below a real root.
    */
  lemma ExecutedAsPreparedAndConfirmed(events: seq<Event>, setup: Setup)
    requires Valid(events, setup)
    ensures AllAccountedFor(events, Run(events, setup), setup)
  {
    RunKeepsInv(events, setup);
    var s := Run(events, setup);
    forall x | 0 <= x < |s.executions| ensures AccountedFor(events, s, s.executions[x], setup) {
      assert Local(events, s.executions[x]);
      ExecutionAccountedFor(events, s, s.executions[x], setup);
    }
  }

  ghost predicate ApprovalsDistinct(s: System) {
    forall x, y | 0 <= x < y < |s.executions| :: ApprovalOf(s, s.executions[x]) != ApprovalOf(s, s.executions[y])
  }

  /**
    * On a broker clock that is steady for tickets of ninety seconds two executions never come from one approval. Only
    * readings within two minutes of each other matter, and only those of presentations the broker admits.
    */
  lemma OneExecutionPerApproval(events: seq<Event>, setup: Setup)
    requires Valid(events, setup) && Steady(Readings(Run(events, setup).attempts), TICKET_TTL_MS)
    ensures ApprovalsDistinct(Run(events, setup))
  {
    RunKeepsInv(events, setup);
    var s := Run(events, setup);
    forall x, y | 0 <= x < y < |s.executions|
      ensures ApprovalOf(s, s.executions[x]) != ApprovalOf(s, s.executions[y])
    {
      ApprovalsDiffer(s, x, y);
    }
  }

  lemma IssuedFits(s: System)
    requires StateInv(s) && Steady(Readings(s.attempts), TICKET_TTL_MS)
    ensures Fits(s.attempts, TICKET_TTL_MS)
  {
    forall a | 0 <= a < |s.attempts|
      ensures Presents(s.attempts[a], s.tickets)
      ensures s.attempts[a].expiresAt == s.attempts[a].issuedAt + TICKET_TTL_MS
    {
      assert Presents(s.attempts[a], s.tickets);
      assert Traced(s.tickets[s.attempts[a].nonce], s.confirmed[s.attempts[a].nonce], s.prepared);
    }
  }

  lemma AcceptedAreDistinct(table: Table, attempts: seq<Attempt>, accepted: seq<bool>, a: nat, b: nat)
    requires TableInv(table, attempts, accepted) && Fits(attempts, TICKET_TTL_MS)
    requires a < b < |attempts| && accepted[a] && accepted[b]
    ensures attempts[a].nonce != attempts[b].nonce
  {
    if attempts[a].nonce == attempts[b].nonce {
      AcceptedOnce(attempts, a, b, TICKET_TTL_MS);
    }
  }

  lemma ApprovalsDiffer(s: System, x: nat, y: nat)
    requires StateInv(s) && Steady(Readings(s.attempts), TICKET_TTL_MS) && x < y < |s.executions|
    ensures ApprovalOf(s, s.executions[x]) != ApprovalOf(s, s.executions[y])
  {
    var e, f := s.executions[x], s.executions[y];
    assert Genuine(e, s.tickets, s.confirmed, s.attempts, s.accepted);
    assert Genuine(f, s.tickets, s.confirmed, s.attempts, s.accepted);
    IssuedFits(s);
    AcceptedAreDistinct(s.table, s.attempts, s.accepted, e.attempt, f.attempt);
  }

  /* The chain carries through: a confirmed action, presented in time, is executed. */

  /** The action is granted when it is prepared. */
  ghost predicate Asked(p: Event, action: Action, setup: Setup) {
    p.Prepare? && Granted(p.prepare, p.world, setup.coercions, p.clock.liveAt) == Ok(action)
  }

  /** Its own actor confirms it before it expires, while it would still be granted. */
  ghost predicate Agreed(p: Event, c: Event, action: Action, setup: Setup) {
    && p.Prepare? && c.Confirm? && c.world.Shaped() && c.world.secret == Some(setup.secret) && IsNonce(c.nonce)
    && c.apply == ApplyRequest(p.prepare.actor, action.targetId, p.id, c.apply.confirmation)
    && Confirms(p.id, c.apply.confirmation) && c.clock.purgeAt <= p.clock.stampAt + APPROVAL_TTL_MS
    && Granted(Again(p.prepare.actor, action), c.world, setup.coercions, c.clock.liveAt) == Ok(action)
  }

  /** The ticket is presented as issued to a broker whose local authority allows it at that moment. */
  ghost predicate Delivered(c: Event, b: Event, action: Action, setup: Setup) {
    && c.Confirm? && b.Present? && !b.crash && 0 < b.reading.validateAt && b.authority.key == Derived(setup.secret)
    && var ticket := TicketFor(action, c.nonce, c.clock.stampAt);
       && b.raw == ToJson(ticket) && b.signature == Signed(Derived(setup.secret), CanonicalBytes(ticket))
       && ValidateLocal(ticket, b.authority, b.reading.validateAt).Ok?
  }

  /** One approval is pending, and the rest of the state is as it was. */
  function Pending(s: System, p: Event, action: Action, index: nat): System
    requires p.Prepare?
  {
    var until := p.clock.stampAt + APPROVAL_TTL_MS;
    s.(approvals := map[p.id := Approval(p.prepare.actor, until, action)],
       prepared := s.prepared[p.id := Preparation(p.prepare.actor, action, index, until)])
  }

  /** None is pending, and one more ticket is issued. */
  function Ticketed(s: System, c: Event, action: Action, index: nat): System
    requires c.Confirm?
  {
    s.(approvals := map[], tickets := s.tickets[c.nonce := TicketFor(action, c.nonce, c.clock.stampAt)],
       confirmed := s.confirmed[c.nonce := ConfirmationBy(c, index)])
  }

  function PendingOnly(p: Event, action: Action): System
    requires p.Prepare?
  {
    Pending(INITIAL, p, action, 0)
  }

  function TicketedOnly(p: Event, c: Event, action: Action): System
    requires p.Prepare? && c.Confirm?
  {
    Ticketed(PendingOnly(p, action), c, action, 1)
  }

  lemma AskedIsPending(s: System, p: Event, action: Action, index: nat, setup: Setup)
    requires Asked(p, action, setup) && s.approvals == map[]
    ensures Next(s, p, index, setup) == Pending(s, p, action, index)
  {
    var approvals := PrepareFacts(s, p, index, setup);
    assert approvals == map[];
  }

  lemma AgreedIsTicketed(s: System, p: Event, c: Event, action: Action, at: nat, index: nat, setup: Setup)
    requires Agreed(p, c, action, setup) && setup.coercions.Lawful()
    ensures Next(Pending(s, p, action, at), c, index, setup) == Ticketed(Pending(s, p, action, at), c, action, index)
  {
    var approvals := Pending(s, p, action, at).approvals;
    ConsumeExactly(approvals, c.apply, c.world, setup.coercions, c.clock, c.nonce);
    assert Purge(approvals, c.clock.purgeAt) - {p.id} == map[];
  }

  lemma AgreedIsNormal(p: Event, c: Event, action: Action, setup: Setup)
    requires Agreed(p, c, action, setup) && setup.coercions.Lawful()
    ensures Normal(TicketFor(action, c.nonce, c.clock.stampAt))
  {
    RecheckIsRegrant(p.prepare.actor, action, c.world, setup.coercions, c.clock.liveAt);
    GrantedTicketIsNormal(action, c.world, c.clock.liveAt, c.nonce, c.clock.stampAt);
  }

  /** What a delivery does in any state: it records the attempt, and executes if the table lets the nonce through. */
  lemma DeliveryIsRecorded(s: System, c: Event, b: Event, action: Action, index: nat, setup: Setup) returns (cwd: Text)
    requires Delivered(c, b, action, setup) && setup.coercions.Lawful()
    requires Normal(TicketFor(action, c.nonce, c.clock.stampAt))
    ensures var ticket := TicketFor(action, c.nonce, c.clock.stampAt);
            && InTime(AttemptOf(ticket, b.reading))
            && Next(s, b, index, setup)
               == Recorded(s, AttemptOf(ticket, b.reading), ExecutionOf(s, b, index, ticket, cwd))
  {
    var ticket := TicketFor(action, c.nonce, c.clock.stampAt);
    NormalizePrinted(ticket, setup.coercions);
    cwd := Admit(b.raw, b.signature, b.authority, setup.coercions, b.reading.validateAt).value.1;
    AfterPresentIs(s, b, index, setup);
  }

  lemma DeliveredIsExecuted(s: System, c: Event, b: Event, action: Action, setup: Setup)
    requires Delivered(c, b, action, setup) && setup.coercions.Lawful()
    requires s.table == map[] && s.executions == [] && Normal(TicketFor(action, c.nonce, c.clock.stampAt))
    ensures var t, ticket := Next(s, b, 2, setup), TicketFor(action, c.nonce, c.clock.stampAt);
            && t.table == map[ticket.nonce := ticket.expiresAt] && ticket.expiresAt > 0
            && t.tickets == s.tickets && t.confirmed == s.confirmed
            && |t.executions| == 1 && t.executions[0].ticket == ticket
  {
    var _ := DeliveryIsRecorded(s, c, b, action, 2, setup);
    var attempt := AttemptOf(TicketFor(action, c.nonce, c.clock.stampAt), b.reading);
    assert Pruned(s.table, attempt.consumeAt) == map[];
  }

  lemma RunOfThree(p: Event, c: Event, b: Event, setup: Setup)
    ensures Run([], setup) == INITIAL
    ensures Run([p], setup) == Next(INITIAL, p, 0, setup)
    ensures Run([p, c], setup) == Next(Run([p], setup), c, 1, setup)
    ensures Run([p, c, b], setup) == Next(Run([p, c], setup), b, 2, setup)
  {
    assert [p][..0] == [] && [p, c][..1] == [p] && [p, c, b][..2] == [p, c];
    RunStep([p], setup);
    RunStep([p, c], setup);
    RunStep([p, c, b], setup);
  }

  lemma ThreePossible(p: Event, c: Event, b: Event, setup: Setup)
    requires Possible(Run([], setup), p, setup) && Possible(Run([p], setup), c, setup)
    requires Possible(Run([p, c], setup), b, setup)
    ensures Valid([p, c, b], setup)
  {
    var events := [p, c, b];
    forall k | 0 <= k < 3 ensures PossibleAt(events, k, setup) {
      assert events[..k] == if k == 0 then [] else if k == 1 then [p] else [p, c];
    }
  }

  /** A confirmed action, presented in time, is executed: that run is possible and ends with exactly this execution. */
  lemma HonestRunExecutes(p: Event, c: Event, b: Event, action: Action, setup: Setup)
    requires setup.coercions.Lawful() && Asked(p, action, setup) && Agreed(p, c, action, setup)
    requires Delivered(c, b, action, setup)
    ensures Valid([p, c, b], setup)
    ensures var s := Run([p, c, b], setup); |s.executions| == 1 && ActionOf(s.executions[0].ticket) == action
  {
    RunOfThree(p, c, b, setup);
    AskedIsPending(INITIAL, p, action, 0, setup);
    AgreedIsTicketed(INITIAL, p, c, action, 0, 1, setup);
    AgreedIsNormal(p, c, action, setup);
    DeliveredIsExecuted(TicketedOnly(p, c, action), c, b, action, setup);
    HonestIsPossible(p, c, b, action, setup);
    ThreePossible(p, c, b, setup);
  }

  lemma HonestIsPossible(p: Event, c: Event, b: Event, action: Action, setup: Setup)
    requires Asked(p, action, setup) && Agreed(p, c, action, setup) && Delivered(c, b, action, setup)
    ensures Possible(INITIAL, p, setup) && Possible(PendingOnly(p, action), c, setup)
    ensures Possible(TicketedOnly(p, c, action), b, setup)
  {
    assert c.nonce in TicketedOnly(p, c, action).tickets;
  }

  /* Presenting the ticket once more. */

  /** The second presentation comes after the table has let go of the nonce. */
  predicate Forgotten(c: Event, b: Event)
    requires c.Confirm? && b.Present?
  {
    b.reading.consumeAt > c.clock.stampAt + TICKET_TTL_MS + PRUNE_SLACK_MS
  }

  ghost predicate OnlyOf(executions: seq<Execution>, ticket: Ticket) {
    forall x | 0 <= x < |executions| :: executions[x].ticket == ticket
  }

  lemma SecondDelivery(s: System, c: Event, b: Event, action: Action, setup: Setup)
    requires Delivered(c, b, action, setup) && setup.coercions.Lawful()
    requires var ticket := TicketFor(action, c.nonce, c.clock.stampAt);
             && Normal(ticket) && ticket.expiresAt > 0 && s.table == map[ticket.nonce := ticket.expiresAt]
             && OnlyOf(s.executions, ticket)
    ensures var t, ticket := Next(s, b, 3, setup), TicketFor(action, c.nonce, c.clock.stampAt);
            && t.confirmed == s.confirmed && OnlyOf(t.executions, ticket)
            && |t.executions| == |s.executions| + (if Forgotten(c, b) then 1 else 0)
  {
    var _ := DeliveryIsRecorded(s, c, b, action, 3, setup);
  }

  lemma RunOfFour(p: Event, c: Event, b: Event, again: Event, setup: Setup)
    requires Valid([p, c, b], setup) && Possible(Run([p, c, b], setup), again, setup)
    ensures Run([p, c, b, again], setup) == Next(Run([p, c, b], setup), again, 3, setup)
    ensures Valid([p, c, b, again], setup)
  {
    var events := [p, c, b, again];
    assert events[..3] == [p, c, b];
    RunStep(events, setup);
    forall k | 0 <= k < 4 ensures PossibleAt(events, k, setup) {
      if k < 3 {
        assert PossibleAt([p, c, b], k, setup) && [p, c, b][..k] == events[..k];
      }
    }
  }

  /** The one ticket issued is recorded and was executed once. */
  ghost predicate ExecutedFirst(s: System, c: Event, action: Action)
    requires c.Confirm?
  {
    var ticket := TicketFor(action, c.nonce, c.clock.stampAt);
    && Normal(ticket) && ticket.expiresAt > 0 && s.table == map[ticket.nonce := ticket.expiresAt]
    && s.tickets == map[c.nonce := ticket] && s.confirmed == map[c.nonce := ConfirmationBy(c, 1)]
    && |s.executions| == 1 && OnlyOf(s.executions, ticket)
  }

  lemma FirstDelivery(p: Event, c: Event, b: Event, action: Action, setup: Setup)
    requires p.Prepare? && setup.coercions.Lawful() && Delivered(c, b, action, setup)
    requires Normal(TicketFor(action, c.nonce, c.clock.stampAt))
    ensures ExecutedFirst(Next(TicketedOnly(p, c, action), b, 2, setup), c, action)
  {
    DeliveredIsExecuted(TicketedOnly(p, c, action), c, b, action, setup);
  }

  lemma AfterHonestRun(p: Event, c: Event, b: Event, action: Action, setup: Setup)
    requires setup.coercions.Lawful() && Asked(p, action, setup) && Agreed(p, c, action, setup)
    requires Delivered(c, b, action, setup)
    ensures ExecutedFirst(Run([p, c, b], setup), c, action)
  {
    RunOfThree(p, c, b, setup);
    AskedIsPending(INITIAL, p, action, 0, setup);
    AgreedIsTicketed(INITIAL, p, c, action, 0, 1, setup);
    AgreedIsNormal(p, c, action, setup);
    FirstDelivery(p, c, b, action, setup);
  }

  lemma AgainIsPossible(s: System, c: Event, again: Event, action: Action, setup: Setup)
    requires Delivered(c, again, action, setup)
    requires ExecutedFirst(s, c, action)
    ensures Possible(s, again, setup)
  {
    assert c.nonce in s.tickets;
  }

  ghost predicate AllOf(s: System, action: Action, id: Text) {
    forall x | 0 <= x < |s.executions| ::
      ActionOf(s.executions[x].ticket) == action && ApprovalOf(s, s.executions[x]) == id
  }

  lemma OnlyOfIsAllOf(s: System, c: Event, action: Action)
    requires c.Confirm? && s.confirmed == map[c.nonce := ConfirmationBy(c, 1)]
    requires OnlyOf(s.executions, TicketFor(action, c.nonce, c.clock.stampAt))
    ensures AllOf(s, action, c.apply.approvalId)
  {
  }

  lemma ReplayOutcome(s: System, c: Event, again: Event, action: Action, setup: Setup)
    requires setup.coercions.Lawful() && Delivered(c, again, action, setup) && ExecutedFirst(s, c, action)
    ensures |Next(s, again, 3, setup).executions| == (if Forgotten(c, again) then 2 else 1)
    ensures AllOf(Next(s, again, 3, setup), action, c.apply.approvalId)
  {
    SecondDelivery(s, c, again, action, setup);
    OnlyOfIsAllOf(Next(s, again, 3, setup), c, action);
  }

  lemma ReplayRun(p: Event, c: Event, b: Event, again: Event, action: Action, setup: Setup)
    requires setup.coercions.Lawful() && Asked(p, action, setup) && Agreed(p, c, action, setup)
    requires Delivered(c, b, action, setup) && Delivered(c, again, action, setup)
    ensures Valid([p, c, b, again], setup)
    ensures Run([p, c, b, again], setup) == Next(Run([p, c, b], setup), again, 3, setup)
  {
    HonestRunExecutes(p, c, b, action, setup);
    AfterHonestRun(p, c, b, action, setup);
    AgainIsPossible(Run([p, c, b], setup), c, again, action, setup);
    RunOfFour(p, c, b, again, setup);
  }

  /**
    * One approval, its ticket presented twice: this run is possible, and executes the action twice exactly if the
    * second request reads the clock, for the table, more than a minute past the ticket's expiry.
    */
  lemma ReplayExecutesExactly(p: Event, c: Event, b: Event, again: Event, action: Action, setup: Setup)
    requires setup.coercions.Lawful() && Asked(p, action, setup) && Agreed(p, c, action, setup)
    requires Delivered(c, b, action, setup) && Delivered(c, again, action, setup)
    ensures Valid([p, c, b, again], setup)
    ensures |Run([p, c, b, again], setup).executions| == (if Forgotten(c, again) then 2 else 1)
    ensures AllOf(Run([p, c, b, again], setup), action, c.apply.approvalId)
  {
    ReplayRun(p, c, b, again, action, setup);
    AfterHonestRun(p, c, b, action, setup);
    ReplayOutcome(Run([p, c, b], setup), c, again, action, setup);
  }

  /** On a clock that only runs forward: the second request's own two readings are a minute and a millisecond apart. */
  lemma ForwardJumpExecutesTwice(p: Event, c: Event, b: Event, again: Event, action: Action, setup: Setup)
    requires setup.coercions.Lawful() && Asked(p, action, setup) && Agreed(p, c, action, setup)
    requires Delivered(c, b, action, setup) && Delivered(c, again, action, setup)
    requires c.clock.stampAt == 1000 && b.reading == Reading(1000, 1000) && again.reading == Reading(91000, 151001)
    ensures Valid([p, c, b, again], setup) && !ApprovalsDistinct(Run([p, c, b, again], setup))
  {
    ReplayExecutesExactly(p, c, b, again, action, setup);
    var s := Run([p, c, b, again], setup);
    assert ApprovalOf(s, s.executions[0]) == ApprovalOf(s, s.executions[1]);
  }
}
