/** Whole runs of the gateway: sockets come and go, requests are dispatched, answered, dropped or timed out. */
module GatewayRuns {
  import opened Gateway
  import opened Sequences
  import opened Wrappers

  datatype Op =
    | Upgrade(token: Option<string>, auth: Auth, socket: string, now: int)
    | Receive(socket: string, msg: Message, auth: Auth, now: int)
    | Close(socket: string)
    | PeerClose(socket: string)
    | Sweep(auth: Auth, now: int)
    | Dispatch(device: string, limits: Limits, auth: Auth, id: string, now: int)
    | Timeout(id: string, now: int)
    | SendFailed(id: string, reason: string)
    | Disconnect(device: string)

  /** Socket and request identities that come into use. */
  function Drawn(op: Op): set<string> {
    match op
    case Upgrade(_, _, socket, _) => {socket}
    case Dispatch(_, _, _, id, _) => {id}
    case _ => {}
  }

  /**
    * A socket's handlers run only until its close event, a timer fires only while armed and when due, and a send fails
    * only for a request that was made.
    */
  ghost predicate Possible(s: State, used: set<string>, op: Op) {
    && Drawn(op) !! used
    && match op
       case Receive(socket, _, _, _) => socket in s.conns
       case Close(socket) => socket in s.conns
       case Timeout(id, now) => id in s.requests.timers && s.requests.timers[id] <= now
       case SendFailed(id, _) => id in used
       case _ => true
  }

  function Step(s: State, op: Op): State {
    match op
    case Upgrade(token, auth, socket, now) => UpgradeStep(s, token, auth, socket, now)
    case Receive(socket, msg, auth, now) => if socket in s.conns then MessageStep(s, socket, msg, auth, now) else s
    case Close(socket) => if socket in s.conns then CloseStep(s, socket) else s
    case PeerClose(socket) => s.(open := s.open - {socket})
    case Sweep(auth, now) => SweepStep(s, auth, now)
    case Dispatch(device, limits, auth, id, now) => Dispatched(s, device, limits, auth, id, now).0
    case Timeout(id, _) => s.(requests := Finish(s.requests, id, Rejected(TIMED_OUT)))
    case SendFailed(id, reason) => s.(requests := Finish(s.requests, id, Rejected(reason)))
    case Disconnect(device) => DisconnectStep(s, device)
  }

  function Dispatched(s: State, device: string, limits: Limits, auth: Auth, id: string, now: int)
    : (State, Result<Request, DispatchError>)
  {
    if device in s.live && s.live[device] !in s.conns then (s, Err(Offline))
    else DispatchStep(s, device, limits, auth, id, now)
  }

  const START := State(map[], map[], {}, Requests(map[], map[], map[]))

  function Run(ops: seq<Op>): State {
    if ops == [] then START else Step(Run(ops[..|ops| - 1]), ops[|ops| - 1])
  }

  function DrawnBy(ops: seq<Op>): set<string> {
    if ops == [] then {} else DrawnBy(ops[..|ops| - 1]) + Drawn(ops[|ops| - 1])
  }

  ghost predicate PossibleAt(ops: seq<Op>, k: nat)
    requires k < |ops|
  {
    Possible(Run(ops[..k]), DrawnBy(ops[..k]), ops[k])
  }

  ghost predicate Valid(ops: seq<Op>) {
    forall k | 0 <= k < |ops| :: PossibleAt(ops, k)
  }

  lemma RunStep(ops: seq<Op>, k: nat)
    requires k < |ops|
    ensures Run(ops[..k + 1]) == Step(Run(ops[..k]), ops[k])
    ensures DrawnBy(ops[..k + 1]) == DrawnBy(ops[..k]) + Drawn(ops[k])
  {
    PrefixOfPrefix(ops, k);
  }

  /* What can be read off the history alone. */

  /** The device and token a socket was attached with. */
  function Attachment(ops: seq<Op>, socket: string): Option<(string, string)> {
    if ops == [] then None else
    var last := ops[|ops| - 1];
    if last.Upgrade? && last.socket == socket && last.token.Some? && last.token.value in last.auth
    then Some((last.auth[last.token.value], last.token.value))
    else Attachment(ops[..|ops| - 1], socket)
  }

  predicate OfDevice(ops: seq<Op>, socket: string, device: string) {
    Attachment(ops, socket).Some? && Attachment(ops, socket).value.0 == device
  }

  /** How the last operation of a history ends a request of this device, if it does. */
  function Ending(ops: seq<Op>, id: string, device: string): Option<Outcome>
    requires ops != []
  {
    var before, last := ops[..|ops| - 1], ops[|ops| - 1];
    match last
    case Receive(socket, msg, auth, _) =>
      if OfDevice(before, socket, device) && Attachment(before, socket).value.1 in auth
         && msg.ExecuteResult? && msg.requestId == id
      then Some(Reported(msg.result)) else None
    case Close(socket) => if OfDevice(before, socket, device) then Some(Rejected(DISCONNECTED)) else None
    case Disconnect(d) => if d == device then Some(Rejected(REVOKED)) else None
    case Timeout(i, _) => if i == id then Some(Rejected(TIMED_OUT)) else None
    case SendFailed(i, reason) => if i == id then Some(Rejected(reason)) else None
    case _ => None
  }

  /** The first ending among the operations i, …, k - 1. */
  function FirstEnding(ops: seq<Op>, i: nat, k: nat, id: string, device: string): Option<Outcome>
    requires k <= |ops|
  {
    if k <= i then None
    else if FirstEnding(ops, i, k - 1, id, device).Some? then FirstEnding(ops, i, k - 1, id, device)
    else Ending(ops[..k], id, device)
  }

  /* Invariants. */

  ghost predicate ConnsRecorded(conns: map<string, Conn>, ops: seq<Op>) {
    forall socket | socket in conns ::
      Attachment(ops, socket) == Some((conns[socket].device, conns[socket].token))
  }

  /** Live entries are attached sockets of their device, and a socket still open is the live one of its device. */
  ghost predicate SocketsGood(live: map<string, string>, conns: map<string, Conn>, open: set<string>) {
    && (forall device | device in live :: live[device] in conns && conns[live[device]].device == device)
    && (forall socket | socket in open ::
          socket in conns && conns[socket].device in live && live[conns[socket].device] == socket)
  }

  ghost predicate RequestsGood(q: Requests, used: set<string>) {
    && q.pending.Keys == q.timers.Keys
    && q.pending.Keys !! q.settled.Keys
    && q.pending.Keys + q.settled.Keys <= used
  }

  ghost predicate Inv(s: State, used: set<string>) {
    && SocketsGood(s.live, s.conns, s.open)
    && s.conns.Keys <= used
    && RequestsGood(s.requests, used)
  }

  lemma StepKeepsSockets(s: State, used: set<string>, op: Op)
    requires Inv(s, used) && Possible(s, used, op)
    ensures var t := Step(s, op); SocketsGood(t.live, t.conns, t.open) && t.conns.Keys <= used + Drawn(op)
  {
  }

  lemma StepKeepsRequests(s: State, used: set<string>, op: Op)
    requires Inv(s, used) && Possible(s, used, op)
    ensures RequestsGood(Step(s, op).requests, used + Drawn(op))
  {
  }

  ghost predicate InvAt(ops: seq<Op>, k: nat)
    requires k <= |ops|
  {
    Inv(Run(ops[..k]), DrawnBy(ops[..k]))
  }

  lemma NextKeepsInv(ops: seq<Op>, k: nat)
    requires Valid(ops) && k < |ops| && InvAt(ops, k)
    ensures InvAt(ops, k + 1)
  {
    assert PossibleAt(ops, k);
    RunStep(ops, k);
    StepKeepsSockets(Run(ops[..k]), DrawnBy(ops[..k]), ops[k]);
    StepKeepsRequests(Run(ops[..k]), DrawnBy(ops[..k]), ops[k]);
  }

  lemma RunKeepsInv(ops: seq<Op>, k: nat)
    requires Valid(ops) && k <= |ops|
    ensures InvAt(ops, k)
  {
    var m := 0;
    while m < k
      invariant m <= k && InvAt(ops, m)
    {
      NextKeepsInv(ops, m);
      m := m + 1;
    }
  }

  predicate Accepts(op: Op, device: string) {
    op.Upgrade? && op.token.Some? && op.token.value in op.auth && op.auth[op.token.value] == device
  }

  lemma AttachmentStep(ops: seq<Op>, k: nat, socket: string)
    requires k < |ops|
    ensures Attachment(ops[..k + 1], socket)
            == if ops[k].Upgrade? && ops[k].socket == socket && ops[k].token.Some? && ops[k].token.value in ops[k].auth
               then Some((ops[k].auth[ops[k].token.value], ops[k].token.value)) else Attachment(ops[..k], socket)
  {
    PrefixOfPrefix(ops, k);
  }

  lemma ConnsAfter(s: State, op: Op, socket: string)
    requires socket in Step(s, op).conns
    ensures var conn := Step(s, op).conns[socket];
            if op.Upgrade? && op.socket == socket && op.token.Some? && op.token.value in op.auth
            then conn.device == op.auth[op.token.value] && conn.token == op.token.value
            else socket in s.conns && conn.device == s.conns[socket].device && conn.token == s.conns[socket].token
  {
  }

  lemma NextKeepsRecord(ops: seq<Op>, k: nat)
    requires k < |ops| && ConnsRecorded(Run(ops[..k]).conns, ops[..k])
    ensures ConnsRecorded(Run(ops[..k + 1]).conns, ops[..k + 1])
  {
    RunStep(ops, k);
    var s := Run(ops[..k]);
    forall socket | socket in Step(s, ops[k]).conns
      ensures var conn := Step(s, ops[k]).conns[socket];
              Attachment(ops[..k + 1], socket) == Some((conn.device, conn.token))
    {
      AttachmentStep(ops, k, socket);
      ConnsAfter(s, ops[k], socket);
    }
  }

  /** The device and token held for an attached socket are those of its upgrade. */
  lemma RunKeepsRecord(ops: seq<Op>, k: nat)
    requires k <= |ops|
    ensures ConnsRecorded(Run(ops[..k]).conns, ops[..k])
  {
    var m := 0;
    while m < k
      invariant m <= k && ConnsRecorded(Run(ops[..m]).conns, ops[..m])
    {
      NextKeepsRecord(ops, m);
      m := m + 1;
    }
  }

  /* The fate of a request. */

  /** Unsettled means pending with its timer armed; settled means neither, with this outcome. */
  ghost predicate HasFate(q: Requests, id: string, device: string, due: int, fate: Option<Outcome>) {
    match fate
    case None =>
      id in q.pending && q.pending[id] == device && id in q.timers && q.timers[id] == due && id !in q.settled
    case Some(outcome) =>
      id !in q.pending && id !in q.timers && id in q.settled && q.settled[id] == outcome
  }

  ghost predicate HasFateAt(ops: seq<Op>, k: nat, id: string, device: string, due: int, fate: Option<Outcome>)
    requires k <= |ops|
  {
    HasFate(Run(ops[..k]).requests, id, device, due, fate) && id in DrawnBy(ops[..k])
  }

  /** What an operation does to a pending request, read off the state. */
  function EndingIn(s: State, op: Op, id: string, device: string): Option<Outcome> {
    match op
    case Receive(socket, msg, auth, _) =>
      if socket in s.conns && s.conns[socket].device == device && s.conns[socket].token in auth
         && msg.ExecuteResult? && msg.requestId == id
      then Some(Reported(msg.result)) else None
    case Close(socket) =>
      if socket in s.conns && s.conns[socket].device == device then Some(Rejected(DISCONNECTED)) else None
    case Disconnect(d) => if d == device then Some(Rejected(REVOKED)) else None
    case Timeout(i, _) => if i == id then Some(Rejected(TIMED_OUT)) else None
    case SendFailed(i, reason) => if i == id then Some(Rejected(reason)) else None
    case _ => None
  }

  lemma PendingStep(s: State, used: set<string>, op: Op, id: string, device: string, due: int)
    requires id in used && Possible(s, used, op) && HasFate(s.requests, id, device, due, None)
    ensures HasFate(Step(s, op).requests, id, device, due, EndingIn(s, op, id, device))
  {
  }

  lemma SettledStep(s: State, used: set<string>, op: Op, id: string, device: string, due: int, outcome: Outcome)
    requires id in used && Possible(s, used, op) && HasFate(s.requests, id, device, due, Some(outcome))
    ensures HasFate(Step(s, op).requests, id, device, due, Some(outcome))
  {
  }

  lemma EndingsAgree(ops: seq<Op>, k: nat, id: string, device: string)
    requires Valid(ops) && k < |ops|
    ensures Ending(ops[..k + 1], id, device) == EndingIn(Run(ops[..k]), ops[k], id, device)
  {
    assert PossibleAt(ops, k);
    RunKeepsRecord(ops, k);
    PrefixOfPrefix(ops, k);
  }

  lemma NextFate(ops: seq<Op>, k: nat, id: string, device: string, due: int, fate: Option<Outcome>)
    requires Valid(ops) && k < |ops| && HasFateAt(ops, k, id, device, due, fate)
    ensures HasFateAt(ops, k + 1, id, device, due, if fate.Some? then fate else Ending(ops[..k + 1], id, device))
  {
    assert PossibleAt(ops, k);
    RunStep(ops, k);
    var s, used := Run(ops[..k]), DrawnBy(ops[..k]);
    EndingsAgree(ops, k, id, device);
    if fate.Some? {
      SettledStep(s, used, ops[k], id, device, due, fate.value);
    } else {
      PendingStep(s, used, ops[k], id, device, due);
    }
  }

  ghost predicate Accepted(ops: seq<Op>, i: nat)
    requires i < |ops|
  {
    var op := ops[i];
    op.Dispatch? && Dispatched(Run(ops[..i]), op.device, op.limits, op.auth, op.id, op.now).1.Ok?
  }

  /** What was sent to the agent. */
  ghost function Sent(ops: seq<Op>, i: nat): (r: Request)
    requires i < |ops| && Accepted(ops, i)
    ensures r == RequestFor(r.socket, ops[i].id, ops[i].limits) && Online(Run(ops[..i]), ops[i].device)
    ensures r.socket == Run(ops[..i]).live[ops[i].device]
  {
    var op := ops[i];
    Dispatched(Run(ops[..i]), op.device, op.limits, op.auth, op.id, op.now).1.value
  }

  function Due(op: Op): int
    requires op.Dispatch?
  {
    op.now + RequestFor("", op.id, op.limits).timeoutMs + TIMEOUT_MARGIN_MS
  }

  lemma AcceptedIsPending(ops: seq<Op>, i: nat)
    requires Valid(ops) && i < |ops| && Accepted(ops, i)
    ensures HasFateAt(ops, i + 1, ops[i].id, ops[i].device, Due(ops[i]), None)
  {
    RunStep(ops, i);
    RunKeepsInv(ops, i);
    assert PossibleAt(ops, i);
  }

  /**
    * A dispatched request is pending, with its timer armed, until the first operation that ends it; from then on it is
    * neither, and its promise holds the outcome of that operation and never another.
    */
  lemma SettledByFirstEnding(ops: seq<Op>, i: nat, k: nat)
    requires Valid(ops) && i < k <= |ops| && Accepted(ops, i)
    ensures HasFateAt(ops, k, ops[i].id, ops[i].device, Due(ops[i]),
                      FirstEnding(ops, i + 1, k, ops[i].id, ops[i].device))
  {
    AcceptedIsPending(ops, i);
    var m := i + 1;
    while m < k
      invariant i < m <= k
      invariant HasFateAt(ops, m, ops[i].id, ops[i].device, Due(ops[i]),
                          FirstEnding(ops, i + 1, m, ops[i].id, ops[i].device))
    {
      NextFate(ops, m, ops[i].id, ops[i].device, Due(ops[i]), FirstEnding(ops, i + 1, m, ops[i].id, ops[i].device));
      m := m + 1;
    }
  }

  /** A request times out no earlier than the limit its agent was given, and the margin. */
  lemma TimeoutIsNotEarly(ops: seq<Op>, i: nat, j: nat)
    requires Valid(ops) && i < j < |ops| && Accepted(ops, i) && ops[j].Timeout? && ops[j].id == ops[i].id
    ensures ops[i].now + Sent(ops, i).timeoutMs + TIMEOUT_MARGIN_MS <= ops[j].now
    ensures FirstEnding(ops, i + 1, j, ops[i].id, ops[i].device) == None
  {
    SettledByFirstEnding(ops, i, j);
    assert PossibleAt(ops, j);
  }

  /** After a socket of the device has closed, or the device was disconnected, none of its requests is pending. */
  lemma NothingPendingAfterDrop(ops: seq<Op>, k: nat, device: string, id: string)
    requires Valid(ops) && k < |ops|
    requires ops[k] == Disconnect(device) || (ops[k].Close? && OfDevice(ops[..k], ops[k].socket, device))
    ensures var pending := Run(ops[..k + 1]).requests.pending; id in pending ==> pending[id] != device
  {
    assert PossibleAt(ops, k);
    RunKeepsRecord(ops, k);
    RunStep(ops, k);
  }

  /** A superseded socket's close leaves its successor live, and rejects the requests already sent to the successor. */
  lemma SupersededClose(ops: seq<Op>, k: nat, device: string, id: string)
    requires Valid(ops) && k < |ops| && ops[k].Close? && OfDevice(ops[..k], ops[k].socket, device)
    requires var s := Run(ops[..k]);
             device in s.live && s.live[device] != ops[k].socket
             && id in s.requests.pending && s.requests.pending[id] == device
    ensures var s, t := Run(ops[..k]), Run(ops[..k + 1]);
            && t.live == s.live && Online(t, device) == Online(s, device)
            && id in t.requests.settled && t.requests.settled[id] == Rejected(DISCONNECTED)
  {
    assert PossibleAt(ops, k);
    RunKeepsRecord(ops, k);
    RunKeepsInv(ops, k);
    RunStep(ops, k);
  }

  /* Which socket is live. */

  /** Since the upgrade at i: no newer one of its device, no close event of its socket, no disconnection. */
  ghost predicate Serving(ops: seq<Op>, i: nat, k: nat, device: string)
    requires k <= |ops|
  {
    && i < k && Accepts(ops[i], device)
    && forall j | i < j < k ::
         !Accepts(ops[j], device) && ops[j] != Close(ops[i].socket) && ops[j] != Disconnect(device)
  }

  lemma LiveAfter(s: State, used: set<string>, op: Op, device: string)
    requires Inv(s, used) && Possible(s, used, op)
    ensures var t := Step(s, op);
            if Accepts(op, device) then device in t.live && t.live[device] == op.socket
            else if op == Disconnect(device) || (device in s.live && op == Close(s.live[device])) then device !in t.live
            else (device in t.live <==> device in s.live) && (device in t.live ==> t.live[device] == s.live[device])
  {
  }

  lemma NextLive(ops: seq<Op>, k: nat, device: string)
    requires Valid(ops) && k < |ops|
    ensures var s, t, op := Run(ops[..k]), Run(ops[..k + 1]), ops[k];
            if Accepts(op, device) then device in t.live && t.live[device] == op.socket
            else if op == Disconnect(device) || (device in s.live && op == Close(s.live[device])) then device !in t.live
            else (device in t.live <==> device in s.live) && (device in t.live ==> t.live[device] == s.live[device])
  {
    assert PossibleAt(ops, k);
    RunKeepsInv(ops, k);
    RunStep(ops, k);
    LiveAfter(Run(ops[..k]), DrawnBy(ops[..k]), ops[k], device);
  }

  lemma ServingIsLive(ops: seq<Op>, i: nat, k: nat, device: string)
    requires Valid(ops) && k <= |ops| && Serving(ops, i, k, device)
    ensures device in Run(ops[..k]).live && Run(ops[..k]).live[device] == ops[i].socket
  {
    NextLive(ops, i, device);
    var m := i + 1;
    while m < k
      invariant i < m <= k && device in Run(ops[..m]).live && Run(ops[..m]).live[device] == ops[i].socket
    {
      NextLive(ops, m, device);
      m := m + 1;
    }
  }

  lemma {:induction false} LiveIsServing(ops: seq<Op>, k: nat, device: string) returns (i: nat)
    requires Valid(ops) && k <= |ops| && device in Run(ops[..k]).live
    ensures Serving(ops, i, k, device) && ops[i].socket == Run(ops[..k]).live[device]
  {
    NextLive(ops, k - 1, device);
    if Accepts(ops[k - 1], device) {
      i := k - 1;
    } else {
      i := LiveIsServing(ops, k - 1, device);
    }
  }

  /** The live socket of a device is the one last upgraded for it, unless that one closed or the device was cut off. */
  lemma LiveIsLastUpgrade(ops: seq<Op>, k: nat, device: string, socket: string)
    requires Valid(ops) && k <= |ops|
    ensures device in Run(ops[..k]).live && Run(ops[..k]).live[device] == socket
            <==> exists i: nat :: Serving(ops, i, k, device) && ops[i].socket == socket
  {
    if i: nat :| Serving(ops, i, k, device) && ops[i].socket == socket {
      ServingIsLive(ops, i, k, device);
    }
    if device in Run(ops[..k]).live && Run(ops[..k]).live[device] == socket {
      var i := LiveIsServing(ops, k, device);
    }
  }

  /** A device has at most one open socket, and it is the one requests go to. */
  lemma OpenSocketIsLive(ops: seq<Op>, k: nat, socket: string)
    requires Valid(ops) && k <= |ops| && socket in Run(ops[..k]).open
    ensures Attachment(ops[..k], socket).Some?
    ensures var device := Attachment(ops[..k], socket).value.0;
            device in Run(ops[..k]).live && Run(ops[..k]).live[device] == socket
  {
    RunKeepsInv(ops, k);
    RunKeepsRecord(ops, k);
  }

  /** A sweep closes exactly the open sockets that are stale. */
  lemma SweepClosesStaleSockets(ops: seq<Op>, k: nat, socket: string)
    requires Valid(ops) && k < |ops| && ops[k].Sweep? && socket in Run(ops[..k]).open
    ensures socket in Run(ops[..k]).conns
    ensures var conn := Run(ops[..k]).conns[socket];
            socket in Run(ops[..k + 1]).open
            <==> conn.token in ops[k].auth && ops[k].now - conn.lastSeenAt <= SWEEP_AGE_MS
  {
    RunKeepsInv(ops, k);
    RunStep(ops, k);
  }
}
