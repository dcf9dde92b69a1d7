/** The agent gateway: sockets that supersede each other, and requests awaiting a result from a device. */
module Gateway {
  import opened Wrappers

  const SWEEP_AGE_MS := 90000
  const TIMEOUT_MARGIN_MS := 1000

  const DISCONNECTED := "agent_disconnected"
  const REVOKED := "agent_revoked"
  const TIMED_OUT := "agent_request_timeout"
  const BAD_RESULT := "invalid_agent_result"

  /** What the handlers of one socket close over. */
  datatype Conn = Conn(device: string, token: string, connectedAt: int, lastSeenAt: int)

  datatype ExecResult = ExecResult(
    code: Option<int>, stdout: string, stderr: string, durationMs: int, truncated: bool, timedOut: bool)

  /** The fields of a reported result that have the expected type; `code` may also be null. */
  datatype RawResult = RawResult(
    code: Option<Option<int>>, stdout: Option<string>, stderr: Option<string>, durationMs: Option<int>,
    truncated: bool, timedOut: bool)

  datatype Message =
    | Malformed
    | Beat
    | ExecuteResult(requestId: string, result: Option<RawResult>)
    | Unsupported

  datatype Outcome = Resolved(result: ExecResult) | Rejected(reason: string)

  datatype DispatchError = Offline | Revoked

  /** The limits a caller asks for. */
  datatype Limits = Limits(timeoutMs: Option<int>, maxBytes: Option<int>)

  /** What is sent to an agent, the operation itself apart: on which socket, under which identifier and limits. */
  datatype Request = Request(socket: string, id: string, timeoutMs: int, maxBytes: int)

  /** Tokens the device store accepts at some moment, with their devices. */
  type Auth = map<string, string>

  type Pending = map<string, string>

  /** `timers` holds the due time of each armed timer; a promise keeps the first outcome it is given. */
  datatype Requests = Requests(pending: Pending, timers: map<string, int>, settled: map<string, Outcome>)

  /** `conns` are the sockets whose close event is still to come; `open` those neither side has begun to close. */
  datatype State = State(live: map<string, string>, conns: map<string, Conn>, open: set<string>, requests: Requests)

  function Clamp(n: int, low: int, high: int): (r: int)
    requires low <= high
    ensures low <= r <= high && (low <= n <= high ==> r == n)
  {
    if n < low then low else if n > high then high else n
  }

  function Coerced(raw: RawResult): ExecResult {
    ExecResult(raw.code.GetOr(Some(1)), raw.stdout.GetOr(""), raw.stderr.GetOr(""), raw.durationMs.GetOr(0),
               raw.truncated, raw.timedOut)
  }

  function Reported(result: Option<RawResult>): Outcome {
    if result.None? then Rejected(BAD_RESULT) else Resolved(Coerced(result.value))
  }

  function SettleOnce(settled: map<string, Outcome>, id: string, outcome: Outcome): map<string, Outcome> {
    if id in settled then settled else settled[id := outcome]
  }

  function Finish(q: Requests, id: string, outcome: Outcome): Requests {
    Requests(q.pending - {id}, q.timers - {id}, SettleOnce(q.settled, id, outcome))
  }

  function Of(pending: Pending, device: string): set<string> {
    set id | id in pending && pending[id] == device
  }

  function FinishAll(q: Requests, ids: set<string>, outcome: Outcome): Requests {
    Requests(q.pending - ids, q.timers - ids, (map id | id in ids :: outcome) + q.settled)
  }

  /** The requests when only `ids` are still to be looked at by the rejecting loop. */
  ghost function Rejecting(q: Requests, device: string, ids: set<string>, outcome: Outcome): Requests {
    FinishAll(q, Of(q.pending, device) - ids, outcome)
  }

  lemma RejectingStarts(q: Requests, device: string, outcome: Outcome)
    ensures Rejecting(q, device, q.pending.Keys, outcome) == q
  {
    assert Of(q.pending, device) - q.pending.Keys == {};
    assert FinishAll(q, {}, outcome).settled == q.settled;
  }

  lemma FinishOneMore(q: Requests, ids: set<string>, id: string, outcome: Outcome)
    ensures FinishAll(q, ids + {id}, outcome) == Finish(FinishAll(q, ids, outcome), id, outcome)
  {
    var a, b := FinishAll(q, ids + {id}, outcome), Finish(FinishAll(q, ids, outcome), id, outcome);
    assert a.pending == b.pending && a.timers == b.timers && a.settled == b.settled;
  }

  lemma RejectingStep(q: Requests, device: string, ids: set<string>, id: string, outcome: Outcome)
    requires id in ids && ids <= q.pending.Keys
    ensures var r := Rejecting(q, device, ids, outcome);
            && id in r.pending
            && Rejecting(q, device, ids - {id}, outcome)
               == if r.pending[id] == device then Finish(r, id, outcome) else r
  {
    var doomed := Of(q.pending, device);
    if id in doomed {
      assert doomed - (ids - {id}) == (doomed - ids) + {id};
      FinishOneMore(q, doomed - ids, id, outcome);
    } else {
      assert doomed - (ids - {id}) == doomed - ids;
    }
  }

  function UpgradeStep(s: State, token: Option<string>, auth: Auth, socket: string, now: int): State {
    if token.None? || token.value !in auth then s else
    var device := auth[token.value];
    s.(live := s.live[device := socket],
       conns := s.conns[socket := Conn(device, token.value, now, now)],
       open := (if device in s.live then s.open - {s.live[device]} else s.open) + {socket})
  }

  function Seen(s: State, socket: string, now: int): State
    requires socket in s.conns
  {
    s.(conns := s.conns[socket := s.conns[socket].(lastSeenAt := now)])
  }

  function MessageStep(s: State, socket: string, msg: Message, auth: Auth, now: int): State
    requires socket in s.conns
  {
    if s.conns[socket].token !in auth then s.(open := s.open - {socket}) else
    match msg
    case Malformed => s.(open := s.open - {socket})
    case Beat => Seen(s, socket, now)
    case ExecuteResult(id, result) =>
      if id !in s.requests.pending || s.requests.pending[id] != s.conns[socket].device then s
      else Seen(s, socket, now).(requests := Finish(s.requests, id, Reported(result)))
    case Unsupported => s
  }

  function CloseStep(s: State, socket: string): State
    requires socket in s.conns
  {
    var device := s.conns[socket].device;
    State(if device in s.live && s.live[device] == socket then s.live - {device} else s.live,
          s.conns - {socket}, s.open - {socket},
          FinishAll(s.requests, Of(s.requests.pending, device), Rejected(DISCONNECTED)))
  }

  /** Sockets the sweep closes: their token is no longer accepted, or they were silent too long. */
  predicate Stale(s: State, socket: string, auth: Auth, now: int) {
    socket in s.conns && (s.conns[socket].token !in auth || now - s.conns[socket].lastSeenAt > SWEEP_AGE_MS)
  }

  function SweepStep(s: State, auth: Auth, now: int): State {
    s.(open := s.open - (set device | device in s.live && Stale(s, s.live[device], auth, now) :: s.live[device]))
  }

  predicate Online(s: State, device: string) {
    device in s.live && s.live[device] in s.open
  }

  function RequestFor(socket: string, id: string, limits: Limits): (r: Request)
    ensures 2000 <= r.timeoutMs <= 120000 && 4096 <= r.maxBytes <= 4194304
  {
    Request(socket, id, Clamp(limits.timeoutMs.GetOr(15000), 2000, 120000),
            Clamp(limits.maxBytes.GetOr(262144), 4096, 4194304))
  }

  function DispatchStep(s: State, device: string, limits: Limits, auth: Auth, id: string, now: int)
    : (State, Result<Request, DispatchError>)
    requires device in s.live ==> s.live[device] in s.conns
  {
    if !Online(s, device) then (s, Err(Offline))
    else if s.conns[s.live[device]].token !in auth then (s, Err(Revoked))
    else
      var request := RequestFor(s.live[device], id, limits);
      (s.(requests := s.requests.(pending := s.requests.pending[id := device],
                                  timers := s.requests.timers[id := now + request.timeoutMs + TIMEOUT_MARGIN_MS])),
       Ok(request))
  }

  function DisconnectStep(s: State, device: string): State {
    State(s.live - {device}, s.conns, if device in s.live then s.open - {s.live[device]} else s.open,
          FinishAll(s.requests, Of(s.requests.pending, device), Rejected(REVOKED)))
  }

  class Multiplexer {
    var live: map<string, string>
    var conns: map<string, Conn>
    var open: set<string>
    var pending: Pending
    var timers: map<string, int>
    var settled: map<string, Outcome>

    ghost function Contents(): State
      reads this
    {
      State(live, conns, open, Requests(pending, timers, settled))
    }

    ghost predicate Valid()
      reads this
    {
      forall device | device in live :: live[device] in conns && conns[live[device]].device == device
    }

    constructor ()
      ensures Valid() && Contents() == State(map[], map[], {}, Requests(map[], map[], map[]))
    {
      live, conns, open, pending, timers, settled := map[], map[], {}, map[], map[], map[];
    }

    method Settle(id: string, outcome: Outcome)
      modifies this`pending, this`timers, this`settled
      ensures Contents().requests == Finish(old(Contents()).requests, id, outcome)
    {
      timers := timers - {id};
      pending := pending - {id};
      if id !in settled {
        settled := settled[id := outcome];
      }
    }

    method RejectPendingForDevice(device: string, reason: string)
      modifies this`pending, this`timers, this`settled
      ensures Contents().requests
              == FinishAll(old(Contents()).requests, Of(old(pending), device), Rejected(reason))
    {
      ghost var before := Contents().requests;
      var ids := pending.Keys;
      RejectingStarts(before, device, Rejected(reason));
      while ids != {}
        invariant ids <= before.pending.Keys
        invariant Contents().requests == Rejecting(before, device, ids, Rejected(reason))
        decreases ids
      {
        var id :| id in ids;
        RejectingStep(before, device, ids, id, Rejected(reason));
        ids := ids - {id};
        if pending[id] == device {
          Settle(id, Rejected(reason));
        }
      }
      assert Of(before.pending, device) - {} == Of(before.pending, device);
    }

    method OnUpgrade(token: Option<string>, auth: Auth, socket: string, now: int) returns (accepted: bool)
      requires Valid() && socket !in conns
      modifies this
      ensures Valid() && Contents() == UpgradeStep(old(Contents()), token, auth, socket, now)
      ensures accepted <==> token.Some? && token.value in auth
    {
      if token.None? || token.value !in auth {
        return false;
      }
      var device := auth[token.value];
      if device in live {
        open := open - {live[device]};
      }
      conns := conns[socket := Conn(device, token.value, now, now)];
      live := live[device := socket];
      open := open + {socket};
      accepted := true;
    }

    method OnMessage(socket: string, msg: Message, auth: Auth, now: int)
      requires Valid() && socket in conns
      modifies this
      ensures Valid() && Contents() == MessageStep(old(Contents()), socket, msg, auth, now)
    {
      if conns[socket].token !in auth {
        open := open - {socket};
        return;
      }
      match msg
      case Malformed => open := open - {socket};
      case Beat => conns := conns[socket := conns[socket].(lastSeenAt := now)];
      case ExecuteResult(id, result) =>
        if id !in pending || pending[id] != conns[socket].device {
          return;
        }
        conns := conns[socket := conns[socket].(lastSeenAt := now)];
        Settle(id, Reported(result));
      case Unsupported =>
    }

    /** The handlers of a socket end with its close event. */
    method OnClose(socket: string)
      requires Valid() && socket in conns
      modifies this
      ensures Valid() && Contents() == CloseStep(old(Contents()), socket)
    {
      var device := conns[socket].device;
      if device in live && live[device] == socket {
        live := live - {device};
      }
      RejectPendingForDevice(device, DISCONNECTED);
      conns := conns - {socket};
      open := open - {socket};
    }

    method Sweep(auth: Auth, now: int)
      requires Valid()
      modifies this`open
      ensures Contents() == SweepStep(old(Contents()), auth, now)
    {
      var devices := live.Keys;
      while devices != {}
        invariant devices <= live.Keys
        invariant open == old(open) - (set device | device in live && device !in devices &&
                                                    Stale(old(Contents()), live[device], auth, now) :: live[device])
        decreases devices
      {
        var device :| device in devices;
        var conn := conns[live[device]];
        if conn.token !in auth || now - conn.lastSeenAt > SWEEP_AGE_MS {
          open := open - {live[device]};
        }
        devices := devices - {device};
      }
    }

    method Dispatch(device: string, limits: Limits, auth: Auth, id: string, now: int)
      returns (r: Result<Request, DispatchError>)
      requires Valid()
      modifies this`pending, this`timers
      ensures (Contents(), r) == DispatchStep(old(Contents()), device, limits, auth, id, now)
    {
      if device !in live || live[device] !in open {
        return Err(Offline);
      }
      if conns[live[device]].token !in auth {
        return Err(Revoked);
      }
      var request := RequestFor(live[device], id, limits);
      timers := timers[id := now + request.timeoutMs + TIMEOUT_MARGIN_MS];
      pending := pending[id := device];
      r := Ok(request);
    }

    method DisconnectAgentDevice(device: string)
      requires Valid()
      modifies this
      ensures Valid() && Contents() == DisconnectStep(old(Contents()), device)
    {
      if device in live {
        open := open - {live[device]};
      }
      live := live - {device};
      RejectPendingForDevice(device, REVOKED);
    }
  }
}
