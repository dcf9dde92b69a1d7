/**
  * The durable store of OAuth clients, codes and sessions. Functions on values say what each operation does; the class
  * performs them on fields and writes the file. Timestamps are positive, so a stored time is never falsy.
  */
module StateStore {
  import opened Wrappers

  const SESSION_RETENTION_MS := 90 * 24 * 3600000
  const TOUCH_INTERVAL_MS := 60000

  datatype Client = Client(redirectUris: seq<string>, createdAt: int, lastSeenAt: Option<int>, revokedAt: Option<int>)

  datatype AuthCode = AuthCode(
    clientId: string, redirectUri: string, challenge: Digest, resource: Option<string>, expiresAt: int)

  datatype Session = Session(
    clientId: string, createdAt: int, lastSeenAt: int, accessExpiresAt: int, refreshHash: Digest,
    refreshExpiresAt: int, resource: Option<string>, revokedAt: Option<int>)

  type Clients = map<string, Client>
  type Sessions = map<string, Session>

  datatype State = State(clients: Clients, codes: map<Digest, AuthCode>, sessions: Sessions)

  const EMPTY := State(map[], map[], map[])

  /** Memory, the per-process touch times, and the file. */
  datatype Store = Store(mem: State, touched: map<string, int>, disk: State)

  datatype Limits = Limits(maxClients: int, pendingTtlMs: int)

  function Persist(st: Store, mem: State): Store {
    st.(mem := mem, disk := mem)
  }

  /* Clients. */

  predicate Pending(clients: Clients, sessions: Sessions, id: string)
    requires id in clients
  {
    clients[id].lastSeenAt.None? && !exists sid | sid in sessions :: sessions[sid].clientId == id
  }

  function PruneClients(clients: Clients, sessions: Sessions, ttl: int, now: int): Clients {
    map id | id in clients && !(Pending(clients, sessions, id) && clients[id].createdAt + ttl < now) :: clients[id]
  }

  function RegisterStep(st: Store, id: string, client: Client, limits: Limits, now: int): (Store, bool) {
    var kept := PruneClients(st.mem.clients, st.mem.sessions, limits.pendingTtlMs, now);
    if |kept| >= limits.maxClients then
      (if kept != st.mem.clients then Persist(st, st.mem.(clients := kept)) else st, false)
    else (Persist(st, st.mem.(clients := kept[id := client])), true)
  }

  function Revoked(s: Session, now: int): Session {
    if s.revokedAt.Some? then s else s.(revokedAt := Some(now))
  }

  /** Revokes the sessions of one client, or of all when `id` is None. */
  function RevokeSessions(sessions: Sessions, id: Option<string>, now: int): Sessions {
    map sid | sid in sessions ::
      if id.None? || sessions[sid].clientId == id.value then Revoked(sessions[sid], now) else sessions[sid]
  }

  function RevokeClientStep(st: Store, id: string, now: int): (Store, bool) {
    if id !in st.mem.clients then (st, false) else
    var clients := st.mem.clients[id := st.mem.clients[id].(revokedAt := Some(now))];
    (Persist(st, st.mem.(clients := clients, sessions := RevokeSessions(st.mem.sessions, Some(id), now))), true)
  }

  function RevokeClients(clients: Clients, now: int): Clients {
    map id | id in clients ::
      if clients[id].revokedAt.Some? then clients[id] else clients[id].(revokedAt := Some(now))
  }

  function RevokeAllClientsStep(st: Store, now: int): Store {
    Persist(st, st.mem.(clients := RevokeClients(st.mem.clients, now),
      sessions := RevokeSessions(st.mem.sessions, None, now)))
  }

  /* Codes. */

  function PutCodeStep(st: Store, raw: string, code: AuthCode): Store {
    Persist(st, st.mem.(codes := st.mem.codes[Sha256(raw) := code]))
  }

  /** A stored code is removed whether or not it has expired. */
  function ConsumeCodeStep(st: Store, raw: string, now: int): (Store, Option<AuthCode>) {
    var hash := Sha256(raw);
    if hash !in st.mem.codes then (st, None)
    else
      var code := st.mem.codes[hash];
      (Persist(st, st.mem.(codes := st.mem.codes - {hash})), if code.expiresAt < now then None else Some(code))
  }

  /* Sessions. */

  function CreateSessionStep(st: Store, sid: string, session: Session): Store {
    Persist(st, st.mem.(sessions := st.mem.sessions[sid := session]))
  }

  ghost predicate HasHash(sessions: Sessions, sid: string, hash: Digest) {
    sid in sessions && sessions[sid].refreshHash == hash
  }

  ghost predicate UniqueHashes(sessions: Sessions) {
    forall sid, other | sid in sessions && other in sessions && sid != other ::
      sessions[sid].refreshHash != sessions[other].refreshHash
  }

  ghost function FindByHash(sessions: Sessions, hash: Digest): (r: Option<string>)
    ensures r.Some? ==> HasHash(sessions, r.value, hash)
    ensures r.None? ==> forall sid :: !HasHash(sessions, sid, hash)
  {
    if sid :| HasHash(sessions, sid, hash) then Some(sid) else None
  }

  function RotateStep(st: Store, sid: string, raw: string, refreshExpiresAt: int, accessExpiresAt: int, now: int)
    : (Store, bool)
  {
    if sid !in st.mem.sessions || st.mem.sessions[sid].revokedAt.Some? then (st, false)
    else
      var session := st.mem.sessions[sid].(refreshHash := Sha256(raw), refreshExpiresAt := refreshExpiresAt,
                                           accessExpiresAt := accessExpiresAt, lastSeenAt := now);
      (Persist(st, st.mem.(sessions := st.mem.sessions[sid := session])), true)
  }

  predicate SessionIsActive(s: State, sid: string, clientId: string, now: int) {
    && sid in s.sessions && s.sessions[sid].clientId == clientId
    && s.sessions[sid].revokedAt.None? && s.sessions[sid].refreshExpiresAt >= now
    && clientId in s.clients && s.clients[clientId].revokedAt.None?
  }

  function TouchSessionStep(st: Store, sid: string, now: int): Store {
    if sid !in st.mem.sessions || st.mem.sessions[sid].revokedAt.Some? then st else
    var last := if sid in st.touched then st.touched[sid] else 0;
    if now - last < TOUCH_INTERVAL_MS then st else
    var session := st.mem.sessions[sid];
    var id := session.clientId;
    var clients :=
      if id in st.mem.clients && st.mem.clients[id].revokedAt.None?
      then st.mem.clients[id := st.mem.clients[id].(lastSeenAt := Some(now))] else st.mem.clients;
    var mem := st.mem.(clients := clients, sessions := st.mem.sessions[sid := session.(lastSeenAt := now)]);
    Persist(st.(touched := st.touched[sid := now]), mem)
  }

  function RevokeSessionStep(st: Store, sid: string, now: int): (Store, bool) {
    if sid !in st.mem.sessions then (st, false)
    else
      (Persist(st, st.mem.(sessions := st.mem.sessions[sid := Revoked(st.mem.sessions[sid], now)])), true)
  }

  function RevokeAllSessionsStep(st: Store, now: int): Store {
    Persist(st, st.mem.(sessions := RevokeSessions(st.mem.sessions, None, now)))
  }

  /* Garbage collection and restart. */

  predicate Stale(s: Session, now: int) {
    s.revokedAt.GetOr(s.refreshExpiresAt) + SESSION_RETENTION_MS < now
  }

  function DropExpired(codes: map<Digest, AuthCode>, now: int): map<Digest, AuthCode> {
    map h | h in codes && codes[h].expiresAt >= now :: codes[h]
  }

  function DropStale(sessions: Sessions, now: int): Sessions {
    map sid | sid in sessions && !Stale(sessions[sid], now) :: sessions[sid]
  }

  /** Clients are pruned against the sessions as they were before stale ones go. */
  function Purge(s: State, ttl: int, now: int): State {
    State(PruneClients(s.clients, s.sessions, ttl, now), DropExpired(s.codes, now), DropStale(s.sessions, now))
  }

  function PurgeStep(st: Store, limits: Limits, now: int): Store {
    var mem := Purge(st.mem, limits.pendingTtlMs, now);
    if mem != st.mem then Persist(st, mem) else st
  }

  /** A new process: the file is read and purged in memory, without writing it back. */
  function RestartStep(st: Store, limits: Limits, now: int): Store {
    Store(Purge(st.disk, limits.pendingTtlMs, now), map[], st.disk)
  }

  class DurableStore {
    var clients: Clients
    var codes: map<Digest, AuthCode>
    var sessions: Sessions
    var touched: map<string, int>
    var disk: State
    const limits: Limits

    ghost function Contents(): Store
      reads this
    {
      Store(State(clients, codes, sessions), touched, disk)
    }

    constructor (limits: Limits)
      ensures Contents() == Store(EMPTY, map[], EMPTY) && this.limits == limits
    {
      this.limits := limits;
      clients, codes, sessions, touched, disk := map[], map[], map[], map[], EMPTY;
    }

    method WriteFile()
      modifies this`disk
      ensures disk == State(clients, codes, sessions)
    {
      disk := State(clients, codes, sessions);
    }

    method PrunePendingClients(now: int) returns (changed: bool)
      modifies this`clients
      ensures clients == PruneClients(old(clients), sessions, limits.pendingTtlMs, now)
      ensures changed <==> clients != old(clients)
    {
      var sessionClients := set sid | sid in sessions :: sessions[sid].clientId;
      changed := false;
      var ids := clients.Keys;
      while ids != {}
        invariant ids <= old(clients).Keys
        invariant clients == map id |
                    id in old(clients) &&
                    (id in ids || !(Pending(old(clients), sessions, id)
                                    && old(clients)[id].createdAt + limits.pendingTtlMs < now))
                    :: old(clients)[id]
        invariant changed <==> clients != old(clients)
        decreases ids
      {
        var id :| id in ids;
        assert Pending(old(clients), sessions, id) <==> clients[id].lastSeenAt.None? && id !in sessionClients;
        if clients[id].lastSeenAt.None? && id !in sessionClients && clients[id].createdAt + limits.pendingTtlMs < now {
          clients := clients - {id};
          changed := true;
          assert id in old(clients) && id !in clients;
        }
        ids := ids - {id};
      }
    }

    method RegisterClient(id: string, client: Client, now: int) returns (ok: bool)
      modifies this
      ensures (Contents(), ok) == RegisterStep(old(Contents()), id, client, limits, now)
    {
      var pruned := PrunePendingClients(now);
      if |clients| >= limits.maxClients {
        if pruned {
          WriteFile();
        }
        return false;
      }
      clients := clients[id := client];
      WriteFile();
      ok := true;
    }

    method RevokeSessionsOf(id: Option<string>, now: int)
      modifies this`sessions
      ensures sessions == RevokeSessions(old(sessions), id, now)
    {
      var sids := sessions.Keys;
      while sids != {}
        invariant sids <= old(sessions).Keys == sessions.Keys
        invariant forall sid | sid in sessions ::
                    sessions[sid] == if sid in sids then old(sessions)[sid]
                                     else RevokeSessions(old(sessions), id, now)[sid]
        decreases sids
      {
        var sid :| sid in sids;
        if (id.None? || sessions[sid].clientId == id.value) && sessions[sid].revokedAt.None? {
          sessions := sessions[sid := sessions[sid].(revokedAt := Some(now))];
        }
        sids := sids - {sid};
      }
    }

    method RevokeClient(id: string, now: int) returns (ok: bool)
      modifies this
      ensures (Contents(), ok) == RevokeClientStep(old(Contents()), id, now)
    {
      if id !in clients {
        return false;
      }
      clients := clients[id := clients[id].(revokedAt := Some(now))];
      RevokeSessionsOf(Some(id), now);
      WriteFile();
      ok := true;
    }

    method RevokeEveryClient(now: int) returns (count: nat)
      modifies this`clients
      ensures clients == RevokeClients(old(clients), now)
      ensures count == |set id | id in old(clients) && old(clients)[id].revokedAt.None?|
    {
      count := 0;
      ghost var counted: set<string> := {};
      var ids := clients.Keys;
      while ids != {}
        invariant ids <= old(clients).Keys == clients.Keys
        invariant forall id | id in clients ::
                    clients[id] == if id in ids then old(clients)[id] else RevokeClients(old(clients), now)[id]
        invariant counted == set id | id in old(clients) && id !in ids && old(clients)[id].revokedAt.None?
        invariant count == |counted|
        decreases ids
      {
        var id :| id in ids;
        if clients[id].revokedAt.None? {
          clients := clients[id := clients[id].(revokedAt := Some(now))];
          count := count + 1;
          counted := counted + {id};
        }
        ids := ids - {id};
      }
      assert counted == set id | id in old(clients) && old(clients)[id].revokedAt.None?;
    }

    method RevokeAllClients(now: int) returns (count: nat)
      modifies this
      ensures Contents() == RevokeAllClientsStep(old(Contents()), now)
      ensures count == |set id | id in old(clients) && old(clients)[id].revokedAt.None?|
    {
      count := RevokeEveryClient(now);
      RevokeSessionsOf(None, now);
      WriteFile();
    }

    method PutAuthCode(raw: string, code: AuthCode)
      modifies this
      ensures Contents() == PutCodeStep(old(Contents()), raw, code)
    {
      codes := codes[Sha256(raw) := code];
      WriteFile();
    }

    method ConsumeAuthCode(raw: string, now: int) returns (r: Option<AuthCode>)
      modifies this
      ensures (Contents(), r) == ConsumeCodeStep(old(Contents()), raw, now)
    {
      var hash := Sha256(raw);
      if hash !in codes {
        return None;
      }
      var code := codes[hash];
      codes := codes - {hash};
      WriteFile();
      r := if code.expiresAt < now then None else Some(code);
    }

    method CreateSession(sid: string, session: Session)
      modifies this
      ensures Contents() == CreateSessionStep(old(Contents()), sid, session)
    {
      sessions := sessions[sid := session];
      WriteFile();
    }

    method FindSessionByRefreshToken(raw: string) returns (r: Option<string>)
      requires UniqueHashes(sessions)
      ensures r == FindByHash(sessions, Sha256(raw))
    {
      var sids := sessions.Keys;
      while sids != {}
        invariant sids <= sessions.Keys
        invariant forall sid | sid in sessions && sid !in sids :: !HasHash(sessions, sid, Sha256(raw))
        decreases sids
      {
        var sid :| sid in sids;
        if sessions[sid].refreshHash == Sha256(raw) {
          assert HasHash(sessions, sid, Sha256(raw));
          return Some(sid);
        }
        sids := sids - {sid};
      }
      r := None;
    }

    method RotateRefreshToken(sid: string, raw: string, refreshExpiresAt: int, accessExpiresAt: int, now: int)
      returns (ok: bool)
      modifies this
      ensures (Contents(), ok) == RotateStep(old(Contents()), sid, raw, refreshExpiresAt, accessExpiresAt, now)
    {
      if sid !in sessions || sessions[sid].revokedAt.Some? {
        return false;
      }
      sessions := sessions[sid := sessions[sid].(refreshHash := Sha256(raw), refreshExpiresAt := refreshExpiresAt,
                                                 accessExpiresAt := accessExpiresAt, lastSeenAt := now)];
      WriteFile();
      ok := true;
    }

    method TouchSession(sid: string, now: int)
      modifies this
      ensures Contents() == TouchSessionStep(old(Contents()), sid, now)
    {
      if sid !in sessions || sessions[sid].revokedAt.Some? {
        return;
      }
      var last := if sid in touched then touched[sid] else 0;
      if now - last < TOUCH_INTERVAL_MS {
        return;
      }
      touched := touched[sid := now];
      var id := sessions[sid].clientId;
      sessions := sessions[sid := sessions[sid].(lastSeenAt := now)];
      if id in clients && clients[id].revokedAt.None? {
        clients := clients[id := clients[id].(lastSeenAt := Some(now))];
      }
      WriteFile();
    }

    method RevokeSession(sid: string, now: int) returns (ok: bool)
      modifies this
      ensures (Contents(), ok) == RevokeSessionStep(old(Contents()), sid, now)
    {
      if sid !in sessions {
        return false;
      }
      if sessions[sid].revokedAt.None? {
        sessions := sessions[sid := sessions[sid].(revokedAt := Some(now))];
      }
      assert sessions == old(sessions)[sid := Revoked(old(sessions)[sid], now)];
      WriteFile();
      ok := true;
    }

    method RevokeAllSessions(now: int)
      modifies this
      ensures Contents() == RevokeAllSessionsStep(old(Contents()), now)
    {
      RevokeSessionsOf(None, now);
      WriteFile();
    }

    method DropExpiredCodes(now: int) returns (changed: bool)
      modifies this`codes
      ensures codes == DropExpired(old(codes), now)
      ensures changed <==> codes != old(codes)
    {
      changed := false;
      var hashes := codes.Keys;
      while hashes != {}
        invariant hashes <= old(codes).Keys
        invariant codes == map h | h in old(codes) && (h in hashes || old(codes)[h].expiresAt >= now) :: old(codes)[h]
        invariant changed <==> codes != old(codes)
        decreases hashes
      {
        var h :| h in hashes;
        if codes[h].expiresAt < now {
          codes := codes - {h};
          changed := true;
          assert h in old(codes) && h !in codes;
        }
        hashes := hashes - {h};
      }
    }

    method DropStaleSessions(now: int) returns (changed: bool)
      modifies this`sessions
      ensures sessions == DropStale(old(sessions), now)
      ensures changed <==> sessions != old(sessions)
    {
      changed := false;
      var sids := sessions.Keys;
      while sids != {}
        invariant sids <= old(sessions).Keys
        invariant sessions ==
                  map sid |
                    sid in old(sessions) && (sid in sids || !Stale(old(sessions)[sid], now)) :: old(sessions)[sid]
        invariant changed <==> sessions != old(sessions)
        decreases sids
      {
        var sid :| sid in sids;
        var staleSince := sessions[sid].revokedAt.GetOr(sessions[sid].refreshExpiresAt);
        if staleSince + SESSION_RETENTION_MS < now {
          sessions := sessions - {sid};
          changed := true;
          assert sid in old(sessions) && sid !in sessions;
        }
        sids := sids - {sid};
      }
    }

    method PurgeState(doPersist: bool, now: int)
      modifies this
      ensures State(clients, codes, sessions) ==
              Purge(State(old(clients), old(codes), old(sessions)), limits.pendingTtlMs, now)
      ensures touched == old(touched)
      ensures disk == if doPersist && State(clients, codes, sessions) != State(old(clients), old(codes), old(sessions))
                      then State(clients, codes, sessions) else old(disk)
    {
      var changed := PrunePendingClients(now);
      var dropped := DropExpiredCodes(now);
      changed := changed || dropped;
      dropped := DropStaleSessions(now);
      changed := changed || dropped;
      if changed && doPersist {
        WriteFile();
      }
    }

    method CollectGarbage(now: int)
      modifies this
      ensures Contents() == PurgeStep(old(Contents()), limits, now)
    {
      PurgeState(true, now);
    }

    method Restart(now: int)
      modifies this
      ensures Contents() == RestartStep(old(Contents()), limits, now)
    {
      clients, codes, sessions, touched := disk.clients, disk.codes, disk.sessions, map[];
      PurgeState(false, now);
    }
  }
}
