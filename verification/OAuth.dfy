/** The authorization and token endpoints and the bearer check, over the store. One clock reading per request. */
module OAuth {
  import opened StateStore
  import opened Wrappers

  const ACCESS_TTL_MS := 3600000
  const REFRESH_TTL_MS := 30 * 24 * 3600000
  const CODE_TTL_MS := 600000
  const MIN_VERIFIER := 43

  /** `mcp` is the one protected resource; `trim` and `redirectOk` are the platform's string and URL functions. */
  datatype Config = Config(
    mcp: string, issuer: string, limits: Limits, trim: string -> string, redirectOk: string -> bool)

  /** `challenge` is the S256 challenge sent; `methodOk` and `scopeOk` say that method and scope are supported. */
  datatype AuthorizeRequest = AuthorizeRequest(
    clientId: string, redirectUri: string, challenge: Digest, challengeLength: nat, methodOk: bool, scopeOk: bool,
    resource: Option<string>, passwordOk: bool)

  datatype TokenRequest =
    | CodeGrant(clientId: string, code: string, verifier: string, redirectUri: string, resource: Option<string>)
    | RefreshGrant(clientId: string, refreshToken: string, resource: Option<string>)
    | OtherGrant(clientId: string)

  datatype Response =
    | InvalidClient
    | InvalidGrant
    | InvalidTarget
    | UnsupportedGrant
    | Tokens(sid: string, clientId: string, refreshToken: string, accessExpiresAt: int, resource: string)

  /** What the random source yields for one request. */
  datatype Draw = Draw(sid: string, refreshToken: string)

  predicate ClientLive(s: State, id: string) {
    id in s.clients && s.clients[id].revokedAt.None?
  }

  /** Blank means the default; anything else must be the protected resource. */
  function NormalizeResource(raw: string, cfg: Config): Option<string> {
    var t := cfg.trim(raw);
    var resource := if t == "" then cfg.mcp else t;
    if resource == cfg.mcp then Some(resource) else None
  }

  /** The code is stored with the resource as sent, not as normalized. */
  function AuthorizeStep(st: Store, req: AuthorizeRequest, raw: string, now: int, cfg: Config): (Store, bool) {
    if && ClientLive(st.mem, req.clientId)
       && req.redirectUri in st.mem.clients[req.clientId].redirectUris && cfg.redirectOk(req.redirectUri)
       && req.methodOk && req.challengeLength >= MIN_VERIFIER && req.scopeOk
       && NormalizeResource(req.resource.GetOr(cfg.mcp), cfg).Some? && req.passwordOk
    then
      var code := AuthCode(req.clientId, req.redirectUri, req.challenge, Some(req.resource.GetOr(cfg.mcp)),
                           now + CODE_TTL_MS);
      (PutCodeStep(st, raw, code), true)
    else (st, false)
  }

  predicate CodeMatches(code: AuthCode, req: TokenRequest, resource: string, cfg: Config)
    requires req.CodeGrant?
  {
    && code.clientId == req.clientId && code.redirectUri == req.redirectUri
    && code.resource.GetOr(cfg.mcp) == resource
    && |req.verifier| >= MIN_VERIFIER && code.challenge == Sha256(req.verifier)
  }

  function NewSession(clientId: string, resource: string, refreshToken: string, now: int): Session {
    Session(clientId, now, now, now + ACCESS_TTL_MS, Sha256(refreshToken), now + REFRESH_TTL_MS, Some(resource), None)
  }

  /** The code goes first, whatever the other parameters turn out to be. */
  function CodeGrantStep(st: Store, req: TokenRequest, draw: Draw, now: int, cfg: Config): (Store, Response)
    requires req.CodeGrant?
  {
    if !ClientLive(st.mem, req.clientId) then (st, InvalidClient) else
    var (spent, code) := ConsumeCodeStep(st, req.code, now);
    var fallback := if code.Some? then code.value.resource.GetOr(cfg.mcp) else cfg.mcp;
    match NormalizeResource(req.resource.GetOr(fallback), cfg)
    case None => (spent, InvalidTarget)
    case Some(resource) =>
      if code.None? || !CodeMatches(code.value, req, resource, cfg) then (spent, InvalidGrant)
      else
        (CreateSessionStep(spent, draw.sid, NewSession(req.clientId, resource, draw.refreshToken, now)),
         Tokens(draw.sid, req.clientId, draw.refreshToken, now + ACCESS_TTL_MS, resource))
  }

  /** The token is rotated before the resource is looked at. */
  ghost function RefreshGrantStep(st: Store, req: TokenRequest, draw: Draw, now: int, cfg: Config): (Store, Response)
    requires req.RefreshGrant?
  {
    if !ClientLive(st.mem, req.clientId) then (st, InvalidClient) else
    match FindByHash(st.mem.sessions, Sha256(req.refreshToken))
    case None => (st, InvalidGrant)
    case Some(sid) =>
      var session := st.mem.sessions[sid];
      if session.clientId != req.clientId || session.revokedAt.Some? || session.refreshExpiresAt < now
      then (st, InvalidGrant) else
      var (rotated, ok) := RotateStep(st, sid, draw.refreshToken, now + REFRESH_TTL_MS, now + ACCESS_TTL_MS, now);
      if !ok then (rotated, InvalidGrant) else
      var bound := session.resource.GetOr(cfg.mcp);
      match NormalizeResource(req.resource.GetOr(bound), cfg)
      case None => (rotated, InvalidTarget)
      case Some(resource) =>
        if bound != resource then (rotated, InvalidTarget)
        else (rotated, Tokens(sid, req.clientId, draw.refreshToken, now + ACCESS_TTL_MS, resource))
  }

  ghost function TokenStep(st: Store, req: TokenRequest, draw: Draw, now: int, cfg: Config): (Store, Response) {
    match req
    case CodeGrant(_, _, _, _, _) => CodeGrantStep(st, req, draw, now, cfg)
    case RefreshGrant(_, _, _) => RefreshGrantStep(st, req, draw, now, cfg)
    case OtherGrant(id) => (st, if ClientLive(st.mem, id) then UnsupportedGrant else InvalidClient)
  }

  /** An access token: its payload under the server's key, or something else. Times are in seconds. */
  datatype AccessToken =
    | Signed(cid: string, sid: string, iat: int, exp: int, iss: string, aud: string)
    | Foreign

  predicate VerifyAccessToken(s: State, t: AccessToken, nowMs: int, cfg: Config) {
    var now := nowMs / 1000;
    && t.Signed? && now < t.exp && t.iat <= now + 60 && t.iss == cfg.issuer && t.aud == cfg.mcp
    && t.cid != "" && t.sid != "" && SessionIsActive(s, t.sid, t.cid, nowMs)
  }

  /** A bearer request: the session is touched only when the token verifies. */
  function BearerStep(st: Store, t: AccessToken, now: int, cfg: Config): Store {
    if VerifyAccessToken(st.mem, t, now, cfg) then TouchSessionStep(st, t.sid, now) else st
  }

  /* What the two grants come to. */

  /** A code grant issues tokens exactly when everything the code was bound to is presented in time. */
  lemma CodeGrantExactly(st: Store, req: TokenRequest, draw: Draw, now: int, cfg: Config)
    requires req.CodeGrant?
    ensures var (after, r) := CodeGrantStep(st, req, draw, now, cfg);
            && (r.Tokens? <==>
                && ClientLive(st.mem, req.clientId) && Sha256(req.code) in st.mem.codes
                && var code := st.mem.codes[Sha256(req.code)];
                   && code.expiresAt >= now && code.clientId == req.clientId && code.redirectUri == req.redirectUri
                   && |req.verifier| >= MIN_VERIFIER && code.challenge == Sha256(req.verifier)
                   && code.resource.GetOr(cfg.mcp) == cfg.mcp
                   && cfg.trim(req.resource.GetOr(cfg.mcp)) in ["", cfg.mcp])
            && (ClientLive(st.mem, req.clientId) ==> Sha256(req.code) !in after.mem.codes)
  {
  }

  /** Some token request, made in this state, redeems the code. */
  ghost predicate CanRedeem(st: Store, code: string, cfg: Config) {
    exists req: TokenRequest, draw: Draw, now: int ::
      req.CodeGrant? && req.code == code && CodeGrantStep(st, req, draw, now, cfg).1.Tokens?
  }

  /** The challenge is the hash of a verifier long enough. */
  ghost predicate Answerable(challenge: Digest) {
    challenge.Sha256? && |challenge.text| >= MIN_VERIFIER
  }

  /** Where the resource is not sent, or sent literally, the platform's trimming changes nothing. */
  ghost predicate TrimsMcp(cfg: Config) {
    cfg.trim(cfg.mcp) == cfg.mcp
  }

  /**
    * An accepted authorization gives a code that can be redeemed exactly if the resource was left out or sent
    * literally, and the challenge has a verifier. Padded and blank resources are accepted too; their codes are dead.
    */
  lemma AuthorizedCodeRedeems(st: Store, req: AuthorizeRequest, raw: string, now: int, cfg: Config)
    requires AuthorizeStep(st, req, raw, now, cfg).1 && TrimsMcp(cfg)
    ensures CanRedeem(AuthorizeStep(st, req, raw, now, cfg).0, raw, cfg)
            <==> req.resource.GetOr(cfg.mcp) == cfg.mcp && Answerable(req.challenge)
  {
    var after := AuthorizeStep(st, req, raw, now, cfg).0;
    if req.resource.GetOr(cfg.mcp) == cfg.mcp && Answerable(req.challenge) {
      var grant := CodeGrant(req.clientId, raw, req.challenge.text, req.redirectUri, None);
      CodeGrantExactly(after, grant, Draw("", ""), now, cfg);
      assert CodeGrantStep(after, grant, Draw("", ""), now, cfg).1.Tokens?;
    }
    forall grant: TokenRequest, draw: Draw, at: int
      | grant.CodeGrant? && grant.code == raw && CodeGrantStep(after, grant, draw, at, cfg).1.Tokens?
      ensures req.resource.GetOr(cfg.mcp) == cfg.mcp && Answerable(req.challenge)
    {
      CodeGrantExactly(after, grant, draw, at, cfg);
    }
  }

  /** A blank before the resource, or nothing but a blank: authorized like the literal one, and never redeemed. */
  lemma PaddedResourceIsAccepted(st: Store, req: AuthorizeRequest, padded: string, raw: string, now: int, cfg: Config)
    requires AuthorizeStep(st, req, raw, now, cfg).1 && TrimsMcp(cfg)
    requires padded in [" " + cfg.mcp, " "] && cfg.mcp != " "
    requires cfg.trim(" " + cfg.mcp) == cfg.mcp && cfg.trim(" ") == ""
    ensures AuthorizeStep(st, req.(resource := Some(padded)), raw, now, cfg).1
    ensures !CanRedeem(AuthorizeStep(st, req.(resource := Some(padded)), raw, now, cfg).0, raw, cfg)
  {
    assert |" " + cfg.mcp| == |cfg.mcp| + 1;
    AuthorizedCodeRedeems(st, req.(resource := Some(padded)), raw, now, cfg);
  }

  ghost predicate Redeemable(s: State, sid: string, req: TokenRequest, now: int)
    requires req.RefreshGrant?
  {
    && HasHash(s.sessions, sid, Sha256(req.refreshToken)) && SessionIsActive(s, sid, req.clientId, now)
  }

  lemma FindUnique(sessions: Sessions, sid: string, hash: Digest)
    requires UniqueHashes(sessions) && HasHash(sessions, sid, hash)
    ensures FindByHash(sessions, hash) == Some(sid)
  {
    assert HasHash(sessions, FindByHash(sessions, hash).value, hash);
  }

  /**
    * A refresh token is spent exactly when it belongs to an active session of that client. It then yields tokens for
    * that session, unless another resource was named: then it is spent for nothing.
    */
  lemma RefreshGrantExactly(st: Store, req: TokenRequest, draw: Draw, now: int, cfg: Config)
    requires req.RefreshGrant? && UniqueHashes(st.mem.sessions)
    ensures var (after, r) := RefreshGrantStep(st, req, draw, now, cfg);
            && (forall sid | Redeemable(st.mem, sid, req, now) ::
                  && after.mem.sessions.Keys == st.mem.sessions.Keys
                  && after.mem.sessions[sid].refreshHash == Sha256(draw.refreshToken)
                  && var bound := st.mem.sessions[sid].resource.GetOr(cfg.mcp);
                     r == if NormalizeResource(req.resource.GetOr(bound), cfg) == Some(bound)
                          then Tokens(sid, req.clientId, draw.refreshToken, now + ACCESS_TTL_MS, bound)
                          else InvalidTarget)
            && ((forall sid :: !Redeemable(st.mem, sid, req, now)) ==>
                after == st && (r.InvalidClient? || r.InvalidGrant?))
  {
    forall sid | Redeemable(st.mem, sid, req, now)
      ensures FindByHash(st.mem.sessions, Sha256(req.refreshToken)) == Some(sid)
    {
      FindUnique(st.mem.sessions, sid, Sha256(req.refreshToken));
    }
    var found := FindByHash(st.mem.sessions, Sha256(req.refreshToken));
    if found.Some? {
      assert Redeemable(st.mem, found.value, req, now) <==> SessionIsActive(st.mem, found.value, req.clientId, now);
    }
  }

  class TokenEndpoint {
    const store: DurableStore
    const cfg: Config

    constructor (store: DurableStore, cfg: Config)
      ensures this.store == store && this.cfg == cfg
    {
      this.store := store;
      this.cfg := cfg;
    }

    method RedeemCode(req: TokenRequest, draw: Draw, now: int) returns (r: Response)
      requires req.CodeGrant?
      modifies store
      ensures (store.Contents(), r) == CodeGrantStep(old(store.Contents()), req, draw, now, cfg)
    {
      if req.clientId !in store.clients || store.clients[req.clientId].revokedAt.Some? {
        return InvalidClient;
      }
      var code := store.ConsumeAuthCode(req.code, now);
      var fallback := if code.Some? then code.value.resource.GetOr(cfg.mcp) else cfg.mcp;
      var resource := NormalizeResource(req.resource.GetOr(fallback), cfg);
      if resource.None? {
        return InvalidTarget;
      }
      if code.None? || !CodeMatches(code.value, req, resource.value, cfg) {
        return InvalidGrant;
      }
      store.CreateSession(draw.sid, NewSession(req.clientId, resource.value, draw.refreshToken, now));
      r := Tokens(draw.sid, req.clientId, draw.refreshToken, now + ACCESS_TTL_MS, resource.value);
    }

    method RedeemRefresh(req: TokenRequest, draw: Draw, now: int) returns (r: Response)
      requires req.RefreshGrant? && UniqueHashes(store.sessions)
      modifies store
      ensures (store.Contents(), r) == RefreshGrantStep(old(store.Contents()), req, draw, now, cfg)
    {
      if req.clientId !in store.clients || store.clients[req.clientId].revokedAt.Some? {
        return InvalidClient;
      }
      var sid := store.FindSessionByRefreshToken(req.refreshToken);
      if sid.None? {
        return InvalidGrant;
      }
      var session := store.sessions[sid.value];
      if session.clientId != req.clientId || session.revokedAt.Some? || session.refreshExpiresAt < now {
        return InvalidGrant;
      }
      var ok := store.RotateRefreshToken(sid.value, draw.refreshToken, now + REFRESH_TTL_MS, now + ACCESS_TTL_MS, now);
      if !ok {
        return InvalidGrant;
      }
      var bound := session.resource.GetOr(cfg.mcp);
      var resource := NormalizeResource(req.resource.GetOr(bound), cfg);
      if resource != Some(bound) {
        return InvalidTarget;
      }
      r := Tokens(sid.value, req.clientId, draw.refreshToken, now + ACCESS_TTL_MS, bound);
    }

    method Token(req: TokenRequest, draw: Draw, now: int) returns (r: Response)
      requires UniqueHashes(store.sessions)
      modifies store
      ensures (store.Contents(), r) == TokenStep(old(store.Contents()), req, draw, now, cfg)
    {
      match req
      case CodeGrant(_, _, _, _, _) => r := RedeemCode(req, draw, now);
      case RefreshGrant(_, _, _) => r := RedeemRefresh(req, draw, now);
      case OtherGrant(id) =>
        r := if id in store.clients && store.clients[id].revokedAt.None? then UnsupportedGrant else InvalidClient;
    }

    method RequireBearer(t: AccessToken, now: int) returns (ok: bool)
      modifies store
      ensures ok == VerifyAccessToken(old(store.Contents()).mem, t, now, cfg)
      ensures store.Contents() == BearerStep(old(store.Contents()), t, now, cfg)
    {
      ok := VerifyAccessToken(State(store.clients, store.codes, store.sessions), t, now, cfg);
      if ok {
        store.TouchSession(t.sid, now);
      }
    }
  }
}
