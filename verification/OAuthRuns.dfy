/**
  * Whole runs of the OAuth store: any sequence of registrations, authorizations, grants, bearer requests, revocations,
  * garbage collections and restarts, on a clock that does not step back.
  */
module OAuthRuns {
  import opened OAuth
  import opened Sequences
  import opened StateStore
  import opened Wrappers

  datatype Op =
    | Register(id: string, client: Client, now: int)
    | Authorize(request: AuthorizeRequest, raw: string, now: int)
    | Token(req: TokenRequest, draw: Draw, now: int)
    | Bearer(token: AccessToken, now: int)
    | RevokeClient(clientId: string, now: int)
    | RevokeAllClients(now: int)
    | RevokeSession(sid: string, now: int)
    | RevokeAllSessions(now: int)
    | Collect(now: int)
    | Restart(now: int)

  /** The identifiers, codes and tokens an operation draws. */
  function Drawn(op: Op): set<string> {
    match op
    case Register(id, _, _) => {id}
    case Authorize(_, raw, _) => {raw}
    case Token(_, draw, _) => {draw.sid, draw.refreshToken}
    case _ => {}
  }

  ghost function Step(st: Store, op: Op, cfg: Config): Store {
    match op
    case Register(id, client, now) =>
      RegisterStep(st, id, client.(lastSeenAt := None, revokedAt := None), cfg.limits, now).0
    case Authorize(request, raw, now) => AuthorizeStep(st, request, raw, now, cfg).0
    case Token(req, draw, now) => TokenStep(st, req, draw, now, cfg).0
    case Bearer(token, now) => BearerStep(st, token, now, cfg)
    case RevokeClient(id, now) => RevokeClientStep(st, id, now).0
    case RevokeAllClients(now) => RevokeAllClientsStep(st, now)
    case RevokeSession(sid, now) => RevokeSessionStep(st, sid, now).0
    case RevokeAllSessions(now) => RevokeAllSessionsStep(st, now)
    case Collect(now) => PurgeStep(st, cfg.limits, now)
    case Restart(now) => RestartStep(st, cfg.limits, now)
  }

  /** What a token request is answered. */
  ghost function Answer(st: Store, op: Op, cfg: Config): Response
    requires op.Token?
  {
    TokenStep(st, op.req, op.draw, op.now, cfg).1
  }

  const START := Store(EMPTY, map[], EMPTY)

  ghost function Run(st: Store, ops: seq<Op>, cfg: Config): Store {
    if ops == [] then st else Step(Run(st, ops[..|ops| - 1], cfg), ops[|ops| - 1], cfg)
  }

  function DrawnBy(ops: seq<Op>): set<string> {
    if ops == [] then {} else DrawnBy(ops[..|ops| - 1]) + Drawn(ops[|ops| - 1])
  }

  /** Nothing is drawn twice, and time does not step back. */
  ghost predicate Possible(used: set<string>, clock: int, op: Op) {
    && Drawn(op) !! used && (op.Token? ==> op.draw.sid != op.draw.refreshToken)
    && 0 < op.now && clock <= op.now
  }

  function ClockAfter(clock: int, ops: seq<Op>): int {
    if ops == [] then clock else ops[|ops| - 1].now
  }

  ghost predicate PossibleAt(used: set<string>, clock: int, ops: seq<Op>, k: nat)
    requires k < |ops|
  {
    Possible(used + DrawnBy(ops[..k]), ClockAfter(clock, ops[..k]), ops[k])
  }

  /** The run can go on with `ops` when `used` has been drawn and the last reading was `clock`. */
  ghost predicate ValidFrom(used: set<string>, clock: int, ops: seq<Op>) {
    forall k | 0 <= k < |ops| :: PossibleAt(used, clock, ops, k)
  }

  ghost predicate Valid(ops: seq<Op>) {
    ValidFrom({}, 0, ops)
  }

  /* What every copy of the state satisfies. */

  ghost predicate DrawnHash(h: Digest, used: set<string>) {
    h.Sha256? && h.text in used
  }

  ghost predicate SessionsGood(s: State, used: set<string>) {
    && (forall sid | sid in s.sessions ::
          sid in used && s.sessions[sid].clientId in s.clients && DrawnHash(s.sessions[sid].refreshHash, used))
    && UniqueHashes(s.sessions)
  }

  ghost predicate Good(s: State, used: set<string>) {
    && (forall id | id in s.clients :: id in used)
    && (forall h | h in s.codes :: DrawnHash(h, used))
    && SessionsGood(s, used)
  }

  lemma GoodGrows(s: State, used: set<string>, more: set<string>)
    requires Good(s, used) && used <= more
    ensures Good(s, more)
  {
  }

  lemma PruneKeepsGood(s: State, used: set<string>, ttl: int, now: int)
    requires Good(s, used)
    ensures Good(s.(clients := PruneClients(s.clients, s.sessions, ttl, now)), used)
  {
  }

  lemma PurgeKeepsGood(s: State, used: set<string>, ttl: int, now: int)
    requires Good(s, used)
    ensures Good(Purge(s, ttl, now), used)
  {
    PruneKeepsGood(s, used, ttl, now);
  }

  lemma RevokeKeepsGood(s: State, used: set<string>, id: Option<string>, now: int)
    requires Good(s, used)
    ensures Good(s.(sessions := RevokeSessions(s.sessions, id, now)), used)
  {
  }

  /** A session is added, or one is changed: its hash is not in use elsewhere. */
  lemma PutSessionKeepsGood(s: State, used: set<string>, sid: string, session: Session)
    requires Good(s, used) && sid in used && session.clientId in s.clients && DrawnHash(session.refreshHash, used)
    requires forall other | other in s.sessions && other != sid :: s.sessions[other].refreshHash != session.refreshHash
    ensures Good(s.(sessions := s.sessions[sid := session]), used)
  {
  }

  lemma CodeGrantKeepsGood(st: Store, used: set<string>, op: Op, cfg: Config)
    requires op.Token? && op.req.CodeGrant? && Good(st.mem, used) && Drawn(op) !! used
    requires op.draw.sid != op.draw.refreshToken
    ensures Good(CodeGrantStep(st, op.req, op.draw, op.now, cfg).0.mem, used + Drawn(op))
  {
    var more := used + Drawn(op);
    var spent := ConsumeCodeStep(st, op.req.code, op.now).0;
    GoodGrows(st.mem, used, more);
    assert Good(spent.mem, more);
    var r := CodeGrantStep(st, op.req, op.draw, op.now, cfg).1;
    if r.Tokens? {
      assert forall sid | sid in st.mem.sessions :: st.mem.sessions[sid].refreshHash.text in used;
      PutSessionKeepsGood(spent.mem, more, op.draw.sid,
                          NewSession(op.req.clientId, r.resource, op.draw.refreshToken, op.now));
    }
  }

  lemma RefreshGrantKeepsGood(st: Store, used: set<string>, op: Op, cfg: Config)
    requires op.Token? && op.req.RefreshGrant? && Good(st.mem, used) && Drawn(op) !! used
    ensures Good(RefreshGrantStep(st, op.req, op.draw, op.now, cfg).0.mem, used + Drawn(op))
  {
    var more := used + Drawn(op);
    GoodGrows(st.mem, used, more);
    var found := FindByHash(st.mem.sessions, Sha256(op.req.refreshToken));
    if found.Some? {
      assert forall sid | sid in st.mem.sessions :: st.mem.sessions[sid].refreshHash.text in used;
      var s := st.mem.sessions[found.value];
      PutSessionKeepsGood(st.mem, more, found.value, s.(refreshHash := Sha256(op.draw.refreshToken),
        refreshExpiresAt := op.now + REFRESH_TTL_MS, accessExpiresAt := op.now + ACCESS_TTL_MS, lastSeenAt := op.now));
    }
  }

  lemma TokenKeepsGood(st: Store, used: set<string>, op: Op, cfg: Config)
    requires op.Token? && Good(st.mem, used) && Drawn(op) !! used && op.draw.sid != op.draw.refreshToken
    ensures Good(Step(st, op, cfg).mem, used + Drawn(op))
  {
    match op.req
    case CodeGrant(_, _, _, _, _) => CodeGrantKeepsGood(st, used, op, cfg);
    case RefreshGrant(_, _, _) => RefreshGrantKeepsGood(st, used, op, cfg);
    case OtherGrant(_) => GoodGrows(st.mem, used, used + Drawn(op));
  }

  lemma RevocationKeepsGood(st: Store, used: set<string>, op: Op, cfg: Config)
    requires op.RevokeClient? || op.RevokeAllClients? || op.RevokeSession? || op.RevokeAllSessions?
    requires Good(st.mem, used)
    ensures Good(Step(st, op, cfg).mem, used)
  {
    match op
    case RevokeClient(id, now) => RevokeKeepsGood(st.mem, used, Some(id), now);
    case RevokeAllClients(now) => RevokeKeepsGood(st.mem, used, None, now);
    case RevokeSession(_, _) =>
    case RevokeAllSessions(now) => RevokeKeepsGood(st.mem, used, None, now);
  }

  lemma RecordKeepsGood(st: Store, used: set<string>, op: Op, cfg: Config)
    requires op.Register? || op.Authorize? || op.Bearer?
    requires Good(st.mem, used) && Drawn(op) !! used
    ensures Good(Step(st, op, cfg).mem, used + Drawn(op))
  {
    GoodGrows(st.mem, used, used + Drawn(op));
    if op.Register? {
      PruneKeepsGood(st.mem, used + Drawn(op), cfg.limits.pendingTtlMs, op.now);
    }
  }

  lemma StepKeepsGood(st: Store, used: set<string>, op: Op, cfg: Config)
    requires Good(st.mem, used) && Good(st.disk, used) && Drawn(op) !! used
    requires op.Token? ==> op.draw.sid != op.draw.refreshToken
    ensures Good(Step(st, op, cfg).mem, used + Drawn(op))
  {
    if op.Token? {
      TokenKeepsGood(st, used, op, cfg);
    } else if op.Register? || op.Authorize? || op.Bearer? {
      RecordKeepsGood(st, used, op, cfg);
    } else if op.Collect? {
      PurgeKeepsGood(st.mem, used, cfg.limits.pendingTtlMs, op.now);
    } else if op.Restart? {
      PurgeKeepsGood(st.disk, used, cfg.limits.pendingTtlMs, op.now);
    } else {
      RevocationKeepsGood(st, used, op, cfg);
    }
  }

  /** Either the file is rewritten from memory or neither changes; a restart reads the file. */
  lemma FileFollowsMemory(st: Store, op: Op, cfg: Config)
    ensures var t := Step(st, op, cfg);
            if op.Restart? then t.disk == st.disk && t.mem == Purge(st.disk, cfg.limits.pendingTtlMs, op.now)
            else t.disk == t.mem || (t.disk == st.disk && t.mem == st.mem)
  {
  }

  /* Things that, once gone, stay gone. */

  /** A client or session that may no longer be used, a refresh token or code that matches nothing. */
  datatype Ban = OfClient(name: string) | OfSession(name: string) | OfToken(name: string) | OfCode(name: string)

  ghost predicate Banned(s: State, ban: Ban) {
    match ban
    case OfClient(id) => !ClientLive(s, id)
    case OfSession(sid) => sid !in s.sessions || s.sessions[sid].revokedAt.Some?
    case OfToken(raw) => forall sid | sid in s.sessions :: s.sessions[sid].refreshHash != Sha256(raw)
    case OfCode(raw) => Sha256(raw) !in s.codes
  }

  lemma PurgeKeepsBan(s: State, ban: Ban, ttl: int, now: int)
    requires Banned(s, ban)
    ensures Banned(Purge(s, ttl, now), ban)
  {
  }

  lemma GrantKeepsBan(st: Store, ban: Ban, op: Op, cfg: Config)
    requires op.Token? && Banned(st.mem, ban) && ban.name !in Drawn(op)
    ensures Banned(Step(st, op, cfg).mem, ban)
  {
    match op.req
    case CodeGrant(_, _, _, _, _) => assert Banned(CodeGrantStep(st, op.req, op.draw, op.now, cfg).0.mem, ban);
    case RefreshGrant(_, _, _) => assert Banned(RefreshGrantStep(st, op.req, op.draw, op.now, cfg).0.mem, ban);
    case OtherGrant(_) =>
  }

  /** No operation lifts a ban, unless it draws the banned name anew. */
  lemma StepKeepsBan(st: Store, ban: Ban, op: Op, cfg: Config)
    requires Banned(st.mem, ban) && Banned(st.disk, ban) && ban.name !in Drawn(op)
    ensures Banned(Step(st, op, cfg).mem, ban) && Banned(Step(st, op, cfg).disk, ban)
  {
    FileFollowsMemory(st, op, cfg);
    match op
    case Register(_, _, _) =>
    case Authorize(_, _, _) =>
    case Token(_, _, _) => GrantKeepsBan(st, ban, op, cfg);
    case Bearer(_, _) =>
    case RevokeClient(_, _) =>
    case RevokeAllClients(_) =>
    case RevokeSession(_, _) =>
    case RevokeAllSessions(_) =>
    case Collect(now) => PurgeKeepsBan(st.mem, ban, cfg.limits.pendingTtlMs, now);
    case Restart(now) => PurgeKeepsBan(st.disk, ban, cfg.limits.pendingTtlMs, now);
  }

  lemma DrawnStep(ops: seq<Op>, k: nat)
    requires k < |ops|
    ensures DrawnBy(ops[..k + 1]) == DrawnBy(ops[..k]) + Drawn(ops[k])
  {
    PrefixOfPrefix(ops, k);
  }

  lemma RunStep(st: Store, ops: seq<Op>, k: nat, cfg: Config)
    requires k < |ops|
    ensures Run(st, ops[..k + 1], cfg) == Step(Run(st, ops[..k], cfg), ops[k], cfg)
    ensures DrawnBy(ops[..k + 1]) == DrawnBy(ops[..k]) + Drawn(ops[k])
  {
    PrefixOfPrefix(ops, k);
  }

  lemma {:induction false} DrawnGrows(ops: seq<Op>, i: nat, k: nat)
    requires i <= k <= |ops|
    ensures DrawnBy(ops[..i]) <= DrawnBy(ops[..k])
  {
    if i < k {
      DrawnGrows(ops, i, k - 1);
      DrawnStep(ops, k - 1);
    }
  }

  lemma {:induction false} RunKeepsBan(ops: seq<Op>, ban: Ban, i: nat, k: nat, cfg: Config)
    requires Valid(ops) && i <= k <= |ops| && ban.name in DrawnBy(ops[..i])
    requires Banned(Run(START, ops[..i], cfg).mem, ban) && Banned(Run(START, ops[..i], cfg).disk, ban)
    ensures Banned(Run(START, ops[..k], cfg).mem, ban) && Banned(Run(START, ops[..k], cfg).disk, ban)
  {
    if i < k {
      RunKeepsBan(ops, ban, i, k - 1, cfg);
      DrawnGrows(ops, i, k - 1);
      RunStep(START, ops, k - 1, cfg);
      assert PossibleAt({}, 0, ops, k - 1);
      StepKeepsBan(Run(START, ops[..k - 1], cfg), ban, ops[k - 1], cfg);
    }
  }

  lemma {:induction false} RunFromKeepsGood(st: Store, used: set<string>, clock: int, ops: seq<Op>, k: nat, cfg: Config)
    requires Good(st.mem, used) && Good(st.disk, used) && ValidFrom(used, clock, ops) && k <= |ops|
    ensures Good(Run(st, ops[..k], cfg).mem, used + DrawnBy(ops[..k]))
    ensures Good(Run(st, ops[..k], cfg).disk, used + DrawnBy(ops[..k]))
  {
    if k > 0 {
      var before, drawn := Run(st, ops[..k - 1], cfg), used + DrawnBy(ops[..k - 1]);
      RunFromKeepsGood(st, used, clock, ops, k - 1, cfg);
      RunStep(st, ops, k - 1, cfg);
      assert PossibleAt(used, clock, ops, k - 1);
      StepKeepsGood(before, drawn, ops[k - 1], cfg);
      FileFollowsMemory(before, ops[k - 1], cfg);
      GoodGrows(before.disk, drawn, drawn + Drawn(ops[k - 1]));
      assert used + DrawnBy(ops[..k]) == drawn + Drawn(ops[k - 1]);
    }
  }

  lemma RunKeepsGood(ops: seq<Op>, k: nat, cfg: Config)
    requires Valid(ops) && k <= |ops|
    ensures Good(Run(START, ops[..k], cfg).mem, DrawnBy(ops[..k]))
    ensures Good(Run(START, ops[..k], cfg).disk, DrawnBy(ops[..k]))
  {
    RunFromKeepsGood(START, {}, 0, ops, k, cfg);
    assert {} + DrawnBy(ops[..k]) == DrawnBy(ops[..k]);
  }

  /* Single use. */

  /** The answer to operation k of a run. */
  ghost predicate Granted(ops: seq<Op>, k: nat, cfg: Config) {
    k < |ops| && ops[k].Token? && Answer(Run(START, ops[..k], cfg), ops[k], cfg).Tokens?
  }

  /** The request uses up a code or a token: a stored code presented by a live client, a token that is rotated. */
  ghost predicate Spends(st: Store, op: Op) {
    && op.Token?
    && match op.req
       case CodeGrant(clientId, code, _, _, _) => ClientLive(st.mem, clientId) && Sha256(code) in st.mem.codes
       case RefreshGrant(_, _, _) => exists sid :: Redeemable(st.mem, sid, op.req, op.now)
       case OtherGrant(_) => false
  }

  /** The name of what a token request presents. */
  function Presented(op: Op): Ban
    requires op.Token? && !op.req.OtherGrant?
  {
    if op.req.CodeGrant? then OfCode(op.req.code) else OfToken(op.req.refreshToken)
  }

  lemma SpendingBans(st: Store, used: set<string>, op: Op, cfg: Config)
    requires Good(st.mem, used) && Spends(st, op) && Drawn(op) !! used
    ensures Presented(op).name in used && !Banned(st.mem, Presented(op))
    ensures Banned(Step(st, op, cfg).mem, Presented(op)) && Banned(Step(st, op, cfg).disk, Presented(op))
  {
    match op.req
    case CodeGrant(_, _, _, _, _) => CodeGrantExactly(st, op.req, op.draw, op.now, cfg);
    case RefreshGrant(_, _, _) => RotationBans(st, used, op, cfg);
  }

  lemma RotationBans(st: Store, used: set<string>, op: Op, cfg: Config)
    requires Good(st.mem, used) && Spends(st, op) && op.req.RefreshGrant? && Drawn(op) !! used
    ensures op.req.refreshToken in used && !Banned(st.mem, OfToken(op.req.refreshToken))
    ensures Banned(Step(st, op, cfg).mem, OfToken(op.req.refreshToken))
    ensures Banned(Step(st, op, cfg).disk, OfToken(op.req.refreshToken))
  {
    var hash := Sha256(op.req.refreshToken);
    var sid :| Redeemable(st.mem, sid, op.req, op.now);
    FindUnique(st.mem.sessions, sid, hash);
    assert forall other | other in st.mem.sessions && other != sid :: st.mem.sessions[other].refreshHash != hash;
  }

  lemma GrantSpends(st: Store, op: Op, cfg: Config)
    requires op.Token? && Answer(st, op, cfg).Tokens?
    ensures Spends(st, op)
  {
    if op.req.RefreshGrant? {
      var sid := FindByHash(st.mem.sessions, Sha256(op.req.refreshToken)).value;
      assert Redeemable(st.mem, sid, op.req, op.now);
    }
  }

  ghost predicate SpendsAt(ops: seq<Op>, k: nat, cfg: Config) {
    k < |ops| && Spends(Run(START, ops[..k], cfg), ops[k])
  }

  /**
    * A code once presented by a live client, and a refresh token once rotated out, match nothing ever again, in memory
    * or on file, however the request was answered.
    */
  lemma SpentStaysSpent(ops: seq<Op>, j: nat, k: nat, cfg: Config)
    requires Valid(ops) && j < k <= |ops| && SpendsAt(ops, j, cfg)
    ensures var st := Run(START, ops[..k], cfg);
            Banned(st.mem, Presented(ops[j])) && Banned(st.disk, Presented(ops[j]))
  {
    var op := ops[j];
    RunKeepsGood(ops, j, cfg);
    RunStep(START, ops, j, cfg);
    assert PossibleAt({}, 0, ops, j);
    SpendingBans(Run(START, ops[..j], cfg), DrawnBy(ops[..j]), op, cfg);
    RunKeepsBan(ops, Presented(op), j + 1, k, cfg);
  }

  /** Each code is consumed at most once and each refresh token rotated at most once, for whatever answer. */
  lemma SpentOnce(ops: seq<Op>, j: nat, k: nat, cfg: Config)
    requires Valid(ops) && j < k && SpendsAt(ops, j, cfg) && SpendsAt(ops, k, cfg)
    ensures Presented(ops[j]) != Presented(ops[k])
  {
    SpentStaysSpent(ops, j, k, cfg);
    RunKeepsGood(ops, k, cfg);
    assert PossibleAt({}, 0, ops, k);
    SpendingBans(Run(START, ops[..k], cfg), DrawnBy(ops[..k]), ops[k], cfg);
  }

  /** Each authorization code opens at most one session, and each refresh token is redeemed at most once. */
  lemma GrantedOnce(ops: seq<Op>, j: nat, k: nat, cfg: Config)
    requires Valid(ops) && j < k && Granted(ops, j, cfg) && Granted(ops, k, cfg)
    ensures ops[j].req.CodeGrant? && ops[k].req.CodeGrant? ==> ops[j].req.code != ops[k].req.code
    ensures ops[j].req.RefreshGrant? && ops[k].req.RefreshGrant? ==> ops[j].req.refreshToken != ops[k].req.refreshToken
  {
    GrantSpends(Run(START, ops[..j], cfg), ops[j], cfg);
    GrantSpends(Run(START, ops[..k], cfg), ops[k], cfg);
    SpentOnce(ops, j, k, cfg);
  }

  /** In every reachable state refresh hashes are pairwise distinct and every session's client is present. */
  lemma SessionsStayDistinctAndOwned(ops: seq<Op>, cfg: Config)
    requires Valid(ops)
    ensures var s := Run(START, ops, cfg).mem;
            UniqueHashes(s.sessions) && forall sid | sid in s.sessions :: s.sessions[sid].clientId in s.clients
  {
    assert ops[..|ops|] == ops;
    RunKeepsGood(ops, |ops|, cfg);
  }

  /* The limit on clients. */

  ghost predicate ClientsWithin(st: Store, limit: int) {
    |st.mem.clients| <= limit && |st.disk.clients| <= limit
  }

  /** Only a registration adds a client. */
  lemma ClientsAfter(st: Store, op: Op, cfg: Config)
    requires !op.Register?
    ensures Step(st, op, cfg).mem.clients.Keys <= (if op.Restart? then st.disk.clients.Keys else st.mem.clients.Keys)
  {
    match op
    case Token(_, _, _) => TokenKeepsClients(st, op, cfg);
    case _ =>
  }

  lemma TokenKeepsClients(st: Store, op: Op, cfg: Config)
    requires op.Token?
    ensures Step(st, op, cfg).mem.clients == st.mem.clients
  {
  }

  lemma RegistrationStaysWithin(st: Store, id: string, client: Client, limits: Limits, now: int)
    requires |st.mem.clients| <= limits.maxClients
    ensures |RegisterStep(st, id, client, limits, now).0.mem.clients| <= limits.maxClients
  {
    var kept := PruneClients(st.mem.clients, st.mem.sessions, limits.pendingTtlMs, now);
    SubsetIsSmaller(kept.Keys, st.mem.clients.Keys);
    SubsetIsSmaller(kept[id := client].Keys, kept.Keys + {id});
  }

  lemma StepKeepsClientLimit(st: Store, op: Op, cfg: Config)
    requires ClientsWithin(st, cfg.limits.maxClients)
    ensures ClientsWithin(Step(st, op, cfg), cfg.limits.maxClients)
  {
    FileFollowsMemory(st, op, cfg);
    if op.Register? {
      RegistrationStaysWithin(st, op.id, op.client.(lastSeenAt := None, revokedAt := None), cfg.limits, op.now);
    } else {
      ClientsAfter(st, op, cfg);
      SubsetIsSmaller(Step(st, op, cfg).mem.clients.Keys,
                      if op.Restart? then st.disk.clients.Keys else st.mem.clients.Keys);
    }
  }

  /** Whatever is pruned, revoked or reloaded in between, no more clients are registered than the limit allows. */
  lemma {:induction false} ClientLimitHolds(ops: seq<Op>, cfg: Config)
    requires cfg.limits.maxClients >= 0
    ensures ClientsWithin(Run(START, ops, cfg), cfg.limits.maxClients)
  {
    if ops != [] {
      ClientLimitHolds(ops[..|ops| - 1], cfg);
      StepKeepsClientLimit(Run(START, ops[..|ops| - 1], cfg), ops[|ops| - 1], cfg);
    }
  }

  /* Revocation. */

  /** The revocation at k hits this client or session. */
  ghost predicate Hits(ops: seq<Op>, k: nat, ban: Ban, cfg: Config) {
    && k < |ops|
    && var s, op := Run(START, ops[..k], cfg).mem, ops[k];
       || (ban.OfClient? && ban.name in s.clients
           && (op.RevokeAllClients? || (op.RevokeClient? && op.clientId == ban.name)))
       || (ban.OfSession? && ban.name in s.sessions &&
           (|| op.RevokeAllClients? || op.RevokeAllSessions? || (op.RevokeSession? && op.sid == ban.name)
            || (op.RevokeClient? && op.clientId in s.clients && s.sessions[ban.name].clientId == op.clientId)))
  }

  lemma HitBans(ops: seq<Op>, k: nat, ban: Ban, cfg: Config)
    requires Hits(ops, k, ban, cfg)
    ensures var t := Step(Run(START, ops[..k], cfg), ops[k], cfg);
            Banned(t.mem, ban) && Banned(t.disk, ban)
  {
  }

  lemma BannedNeverVerifies(s: State, token: AccessToken, now: int, cfg: Config)
    requires token.Signed? && (Banned(s, OfClient(token.cid)) || Banned(s, OfSession(token.sid)))
    ensures !VerifyAccessToken(s, token, now, cfg)
  {
  }

  /**
    * Revocation is permanent: in no later state, at no time, does an access token of a revoked client or session
    * verify, whatever grants, rotations, collections and restarts lie between.
    */
  lemma RevocationIsPermanent(ops: seq<Op>, k: nat, ban: Ban, m: nat, token: AccessToken, now: int, cfg: Config)
    requires Valid(ops) && Hits(ops, k, ban, cfg) && k < m <= |ops|
    requires token.Signed? && (if ban.OfClient? then token.cid == ban.name else token.sid == ban.name)
    ensures !VerifyAccessToken(Run(START, ops[..m], cfg).mem, token, now, cfg)
  {
    RunKeepsGood(ops, k, cfg);
    DrawnGrows(ops, k, k + 1);
    RunStep(START, ops, k, cfg);
    HitBans(ops, k, ban, cfg);
    RunKeepsBan(ops, ban, k + 1, m, cfg);
    BannedNeverVerifies(Run(START, ops[..m], cfg).mem, token, now, cfg);
  }

  /* Garbage collection and restart are invisible. */

  ghost predicate Live(s: State, sid: string, now: int) {
    sid in s.sessions && SessionIsActive(s, sid, s.sessions[sid].clientId, now)
  }

  /** Equal but for the time last seen. */
  predicate Same(a: Session, b: Session) {
    a.(lastSeenAt := 0) == b.(lastSeenAt := 0)
  }

  /** As far as the session is concerned, two states can be told apart by nothing but touch times. */
  ghost predicate Alike(a: State, b: State, sid: string, now: int) {
    && Live(a, sid, now) == Live(b, sid, now)
    && (Live(a, sid, now) ==> Same(a.sessions[sid], b.sessions[sid]))
  }

  /** What becomes of a live session: None when the operation ends it. */
  ghost function Fate(session: Session, sid: string, op: Op): Option<Session> {
    match op
    case Token(req, draw, now) =>
      if req.RefreshGrant? && session.refreshHash == Sha256(req.refreshToken) && session.clientId == req.clientId then
        Some(session.(refreshHash := Sha256(draw.refreshToken), refreshExpiresAt := now + REFRESH_TTL_MS,
                      accessExpiresAt := now + ACCESS_TTL_MS))
      else Some(session)
    case RevokeClient(id, _) => if session.clientId == id then None else Some(session)
    case RevokeAllClients(_) => None
    case RevokeSession(id, _) => if id == sid then None else Some(session)
    case RevokeAllSessions(_) => None
    case _ => Some(session)
  }

  ghost predicate Meets(s: State, sid: string, now: int, fate: Option<Session>) {
    if fate.None? then !Live(s, sid, now) else Live(s, sid, now) && Same(s.sessions[sid], fate.value)
  }

  lemma LiveSurvivesPurge(s: State, sid: string, ttl: int, now: int)
    requires Live(s, sid, now)
    ensures Live(Purge(s, ttl, now), sid, now) && Purge(s, ttl, now).sessions[sid] == s.sessions[sid]
  {
    assert !Pending(s.clients, s.sessions, s.sessions[sid].clientId);
  }

  lemma DeadStaysDeadInPurge(s: State, sid: string, ttl: int, now: int)
    requires !Live(s, sid, now)
    ensures !Live(Purge(s, ttl, now), sid, now)
  {
  }

  lemma PurgeIsAlike(s: State, sid: string, ttl: int, now: int)
    ensures Alike(s, Purge(s, ttl, now), sid, now)
  {
    if Live(s, sid, now) {
      LiveSurvivesPurge(s, sid, ttl, now);
    } else {
      DeadStaysDeadInPurge(s, sid, ttl, now);
    }
  }

  lemma CodeGrantFate(st: Store, sid: string, op: Op, cfg: Config)
    requires op.Token? && op.req.CodeGrant? && sid !in Drawn(op) && Live(st.mem, sid, op.now)
    ensures var after := CodeGrantStep(st, op.req, op.draw, op.now, cfg).0.mem;
            Live(after, sid, op.now) && after.sessions[sid] == st.mem.sessions[sid]
  {
  }

  lemma RefreshGrantFate(st: Store, sid: string, op: Op, cfg: Config)
    requires op.Token? && op.req.RefreshGrant? && UniqueHashes(st.mem.sessions) && Live(st.mem, sid, op.now)
    ensures Meets(RefreshGrantStep(st, op.req, op.draw, op.now, cfg).0.mem, sid, op.now,
                  Fate(st.mem.sessions[sid], sid, op))
  {
    if HasHash(st.mem.sessions, sid, Sha256(op.req.refreshToken)) {
      FindUnique(st.mem.sessions, sid, Sha256(op.req.refreshToken));
    }
  }

  lemma TokenFate(st: Store, used: set<string>, sid: string, op: Op, cfg: Config)
    requires op.Token? && Good(st.mem, used) && sid in used && Drawn(op) !! used && Live(st.mem, sid, op.now)
    ensures Meets(Step(st, op, cfg).mem, sid, op.now, Fate(st.mem.sessions[sid], sid, op))
  {
    match op.req
    case CodeGrant(_, _, _, _, _) => CodeGrantFate(st, sid, op, cfg);
    case RefreshGrant(_, _, _) => RefreshGrantFate(st, sid, op, cfg);
    case OtherGrant(_) =>
  }

  lemma RevocationFate(st: Store, sid: string, op: Op, cfg: Config)
    requires op.RevokeClient? || op.RevokeAllClients? || op.RevokeSession? || op.RevokeAllSessions?
    requires Live(st.mem, sid, op.now)
    ensures Meets(Step(st, op, cfg).mem, sid, op.now, Fate(st.mem.sessions[sid], sid, op))
  {
  }

  lemma RecordFate(st: Store, sid: string, op: Op, cfg: Config)
    requires op.Register? || op.Authorize? || op.Bearer? || op.Collect?
    requires Live(st.mem, sid, op.now)
    ensures Meets(Step(st, op, cfg).mem, sid, op.now, Fate(st.mem.sessions[sid], sid, op))
  {
    match op
    case Register(_, _, now) => assert !Pending(st.mem.clients, st.mem.sessions, st.mem.sessions[sid].clientId);
    case Collect(now) => LiveSurvivesPurge(st.mem, sid, cfg.limits.pendingTtlMs, now);
    case Authorize(_, _, _) =>
    case Bearer(_, _) =>
  }

  lemma LiveMeetsFate(st: Store, used: set<string>, sid: string, op: Op, cfg: Config)
    requires Good(st.mem, used) && sid in used && Drawn(op) !! used && Live(st.mem, sid, op.now) && !op.Restart?
    ensures Meets(Step(st, op, cfg).mem, sid, op.now, Fate(st.mem.sessions[sid], sid, op))
  {
    if op.Token? {
      TokenFate(st, used, sid, op, cfg);
    } else if op.Register? || op.Authorize? || op.Bearer? || op.Collect? {
      RecordFate(st, sid, op, cfg);
    } else {
      RevocationFate(st, sid, op, cfg);
    }
  }

  lemma DeadStaysDeadInToken(st: Store, used: set<string>, sid: string, op: Op, cfg: Config)
    requires op.Token? && sid in used && Drawn(op) !! used && !Live(st.mem, sid, op.now)
    ensures !Live(Step(st, op, cfg).mem, sid, op.now)
  {
    match op.req
    case CodeGrant(_, _, _, _, _) =>
    case RefreshGrant(_, _, _) =>
    case OtherGrant(_) =>
  }

  lemma DeadStaysDead(st: Store, used: set<string>, sid: string, op: Op, cfg: Config)
    requires Good(st.mem, used) && sid in used && Drawn(op) !! used && !Live(st.mem, sid, op.now) && !op.Restart?
    ensures !Live(Step(st, op, cfg).mem, sid, op.now)
  {
    match op
    case Token(_, _, _) => DeadStaysDeadInToken(st, used, sid, op, cfg);
    case Collect(now) => DeadStaysDeadInPurge(st.mem, sid, cfg.limits.pendingTtlMs, now);
    case _ =>
  }

  lemma AlikeLater(a: State, b: State, sid: string, clock: int, now: int)
    requires Alike(a, b, sid, clock) && clock <= now
    ensures Alike(a, b, sid, now)
  {
  }

  lemma StepsAlike(a: Store, b: Store, used: set<string>, sid: string, op: Op, cfg: Config)
    requires Good(a.mem, used) && Good(b.mem, used) && sid in used && Drawn(op) !! used && !op.Restart?
    requires Alike(a.mem, b.mem, sid, op.now)
    ensures Alike(Step(a, op, cfg).mem, Step(b, op, cfg).mem, sid, op.now)
  {
    if Live(a.mem, sid, op.now) {
      LiveMeetsFate(a, used, sid, op, cfg);
      LiveMeetsFate(b, used, sid, op, cfg);
    } else {
      DeadStaysDead(a, used, sid, op, cfg);
      DeadStaysDead(b, used, sid, op, cfg);
    }
  }

  /** Two stores, memories and files, that agree on the session. */
  ghost predicate Tied(a: Store, b: Store, sid: string, now: int) {
    Alike(a.mem, b.mem, sid, now) && Alike(a.disk, a.mem, sid, now) && Alike(b.disk, b.mem, sid, now)
  }

  ghost predicate BothGood(st: Store, used: set<string>) {
    Good(st.mem, used) && Good(st.disk, used)
  }

  lemma FileStaysAlike(a: Store, sid: string, op: Op, cfg: Config)
    requires Alike(a.disk, a.mem, sid, op.now)
    ensures Alike(Step(a, op, cfg).disk, Step(a, op, cfg).mem, sid, op.now)
  {
    FileFollowsMemory(a, op, cfg);
    if op.Restart? {
      PurgeIsAlike(a.disk, sid, cfg.limits.pendingTtlMs, op.now);
    }
  }

  lemma StepKeepsTied(a: Store, b: Store, used: set<string>, sid: string, clock: int, op: Op, cfg: Config)
    requires BothGood(a, used) && BothGood(b, used) && sid in used && Possible(used, clock, op)
    requires Tied(a, b, sid, clock)
    ensures Tied(Step(a, op, cfg), Step(b, op, cfg), sid, op.now)
  {
    AlikeLater(a.mem, b.mem, sid, clock, op.now);
    AlikeLater(a.disk, a.mem, sid, clock, op.now);
    AlikeLater(b.disk, b.mem, sid, clock, op.now);
    FileStaysAlike(a, sid, op, cfg);
    FileStaysAlike(b, sid, op, cfg);
    if op.Restart? {
      PurgeIsAlike(a.disk, sid, cfg.limits.pendingTtlMs, op.now);
      PurgeIsAlike(b.disk, sid, cfg.limits.pendingTtlMs, op.now);
    } else {
      StepsAlike(a, b, used, sid, op, cfg);
    }
  }

  ghost predicate TiedAfter(a: Store, b: Store, clock: int, sid: string, ops: seq<Op>, k: nat, cfg: Config)
    requires k <= |ops|
  {
    Tied(Run(a, ops[..k], cfg), Run(b, ops[..k], cfg), sid, ClockAfter(clock, ops[..k]))
  }

  lemma NextStaysTied(
    a: Store, b: Store, used: set<string>, clock: int, sid: string, ops: seq<Op>, k: nat, cfg: Config)
    requires BothGood(a, used) && BothGood(b, used) && sid in used && ValidFrom(used, clock, ops) && k < |ops|
    requires TiedAfter(a, b, clock, sid, ops, k, cfg)
    ensures TiedAfter(a, b, clock, sid, ops, k + 1, cfg)
  {
    RunFromKeepsGood(a, used, clock, ops, k, cfg);
    RunFromKeepsGood(b, used, clock, ops, k, cfg);
    RunStep(a, ops, k, cfg);
    RunStep(b, ops, k, cfg);
    PrefixOfPrefix(ops, k);
    assert PossibleAt(used, clock, ops, k);
    StepKeepsTied(Run(a, ops[..k], cfg), Run(b, ops[..k], cfg), used + DrawnBy(ops[..k]), sid,
                  ClockAfter(clock, ops[..k]), ops[k], cfg);
  }

  lemma {:induction false} RunsStayTied(
    a: Store, b: Store, used: set<string>, clock: int, sid: string, ops: seq<Op>, m: nat, cfg: Config)
    requires BothGood(a, used) && BothGood(b, used) && sid in used && ValidFrom(used, clock, ops) && m <= |ops|
    requires Tied(a, b, sid, clock)
    ensures TiedAfter(a, b, clock, sid, ops, m, cfg)
  {
    if m > 0 {
      RunsStayTied(a, b, used, clock, sid, ops, m - 1, cfg);
      NextStaysTied(a, b, used, clock, sid, ops, m - 1, cfg);
    }
  }

  ghost predicate FileAgreesAt(ops: seq<Op>, k: nat, sid: string, cfg: Config)
    requires k <= |ops|
  {
    Alike(Run(START, ops[..k], cfg).disk, Run(START, ops[..k], cfg).mem, sid, ClockAfter(0, ops[..k]))
  }

  lemma NextFileAgrees(ops: seq<Op>, k: nat, sid: string, cfg: Config)
    requires Valid(ops) && k < |ops| && FileAgreesAt(ops, k, sid, cfg)
    ensures FileAgreesAt(ops, k + 1, sid, cfg)
  {
    RunStep(START, ops, k, cfg);
    PrefixOfPrefix(ops, k);
    assert PossibleAt({}, 0, ops, k);
    var st := Run(START, ops[..k], cfg);
    AlikeLater(st.disk, st.mem, sid, ClockAfter(0, ops[..k]), ops[k].now);
    FileStaysAlike(st, sid, ops[k], cfg);
  }

  /** In a reachable store a session stored in memory is alike on file. */
  lemma {:induction false} FileAgrees(ops: seq<Op>, k: nat, sid: string, cfg: Config)
    requires Valid(ops) && k <= |ops|
    ensures FileAgreesAt(ops, k, sid, cfg)
  {
    if k > 0 {
      FileAgrees(ops, k - 1, sid, cfg);
      NextFileAgrees(ops, k - 1, sid, cfg);
    }
  }

  /** The operation redeems a refresh token on this session. */
  ghost predicate RedeemsOn(st: Store, sid: string, op: Op, cfg: Config) {
    op.Token? && op.req.RefreshGrant? && Answer(st, op, cfg).Tokens? && Answer(st, op, cfg).sid == sid
  }

  lemma AlikeRedeems(a: Store, b: Store, used: set<string>, sid: string, op: Op, cfg: Config)
    requires Good(a.mem, used) && Good(b.mem, used) && Alike(a.mem, b.mem, sid, op.now)
    ensures RedeemsOn(a, sid, op, cfg) ==> RedeemsOn(b, sid, op, cfg)
  {
    if RedeemsOn(a, sid, op, cfg) {
      assert Redeemable(a.mem, sid, op.req, op.now);
      assert Redeemable(b.mem, sid, op.req, op.now);
      RefreshGrantExactly(a, op.req, op.draw, op.now, cfg);
      RefreshGrantExactly(b, op.req, op.draw, op.now, cfg);
    }
  }

  lemma AlikeActive(a: State, b: State, sid: string, clock: int, clientId: string, t: int)
    requires Alike(a, b, sid, clock) && clock <= t
    ensures SessionIsActive(a, sid, clientId, t) == SessionIsActive(b, sid, clientId, t)
  {
    AlikeLater(a, b, sid, clock, t);
  }

  /**
    * A collection or a restart inserted anywhere in a run is invisible to a session known then: after any further
    * operations its activity check answers the same at every later time, and the next redemption on it succeeds or
    * fails the same.
    */
  lemma CollectionAndRestartAreInvisible(
    ops: seq<Op>, inserted: Op, more: seq<Op>, m: nat, sid: string, clientId: string, t: int, cfg: Config)
    requires Valid(ops) && (inserted.Collect? || inserted.Restart?)
    requires Possible(DrawnBy(ops), ClockAfter(0, ops), inserted) && ValidFrom(DrawnBy(ops), inserted.now, more)
    requires m <= |more| && sid in Run(START, ops, cfg).mem.sessions && ClockAfter(inserted.now, more[..m]) <= t
    ensures var without := Run(Run(START, ops, cfg), more[..m], cfg);
            var with := Run(Step(Run(START, ops, cfg), inserted, cfg), more[..m], cfg);
            && SessionIsActive(without.mem, sid, clientId, t) == SessionIsActive(with.mem, sid, clientId, t)
            && (m < |more| ==> RedeemsOn(without, sid, more[m], cfg) == RedeemsOn(with, sid, more[m], cfg))
  {
    var st, used := Run(START, ops, cfg), DrawnBy(ops);
    var st' := Step(st, inserted, cfg);
    var clock := ClockAfter(0, ops);
    assert ops[..|ops|] == ops;
    RunKeepsGood(ops, |ops|, cfg);
    FileAgrees(ops, |ops|, sid, cfg);
    InsertionTies(st, used, sid, clock, inserted, cfg);
    RunsStayTied(st, st', used, inserted.now, sid, more, m, cfg);
    var without, with := Run(st, more[..m], cfg), Run(st', more[..m], cfg);
    AlikeActive(without.mem, with.mem, sid, ClockAfter(inserted.now, more[..m]), clientId, t);
    if m < |more| {
      RunFromKeepsGood(st, used, inserted.now, more, m, cfg);
      RunFromKeepsGood(st', used, inserted.now, more, m, cfg);
      assert PossibleAt(used, inserted.now, more, m);
      AlikeLater(without.mem, with.mem, sid, ClockAfter(inserted.now, more[..m]), more[m].now);
      AlikeRedeems(without, with, used + DrawnBy(more[..m]), sid, more[m], cfg);
      AlikeRedeems(with, without, used + DrawnBy(more[..m]), sid, more[m], cfg);
    }
  }

  lemma InsertionTies(st: Store, used: set<string>, sid: string, clock: int, inserted: Op, cfg: Config)
    requires BothGood(st, used) && (inserted.Collect? || inserted.Restart?) && clock <= inserted.now
    requires Alike(st.disk, st.mem, sid, clock)
    ensures Tied(st, Step(st, inserted, cfg), sid, inserted.now) && BothGood(Step(st, inserted, cfg), used)
  {
    AlikeLater(st.disk, st.mem, sid, clock, inserted.now);
    PurgeIsAlike(st.mem, sid, cfg.limits.pendingTtlMs, inserted.now);
    PurgeIsAlike(st.disk, sid, cfg.limits.pendingTtlMs, inserted.now);
    PurgeKeepsGood(st.mem, used, cfg.limits.pendingTtlMs, inserted.now);
    PurgeKeepsGood(st.disk, used, cfg.limits.pendingTtlMs, inserted.now);
  }
}
