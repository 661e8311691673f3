/**
  The authentication handlers and the token gates, as functions on the store and the registry.
  None of the handlers awaits anything, so each runs as one step of the event loop. Every clock
  reading a handler takes is a parameter, as are the answers of the credential provider and of
  the policy function, the new session id, and the outcome of persisting a token.
 */
module AuthSpec {
  import opened Basics
  import opened PyText
  import opened Tokens
  import opened TokenStore
  import opened Sessions

  datatype Config = Config(codec: Codec, instanceId: string, ttl: int)

  /** The codec is bed's, and a token lives for some time: the ttl is max(1, int(ttl)) seconds. */
  ghost predicate Good(cfg: Config) {
    Faithful(cfg.codec) && cfg.ttl >= 1
  }

  /** Who a session belongs to: the part of a member that tokens and states both carry. */
  datatype Identity = Identity(moniker: string, isSysop: bool, loginid: Option<string>)

  datatype MemberInfo = MemberInfo(who: Identity, balance: Option<int>)

  datatype Code =
    | MissingCredentials | BadCredentials | TokenInvalid | TokenExpired | TokenRevoked
    | InstanceMismatch | NotAuthenticated | Forbidden

  datatype Reply =
    | Error(code: Code, recoverable: bool)
    | AuthResult(who: Identity, sessionId: string, token: string, expiresAt: int)
    | ReconnectResult(who: Identity, sessionId: string, token: string, expiresAt: int, replayed: Option<string>)
    | RevokeResult(success: bool, failure: Option<Code>, retry: bool)
    | Raised

  datatype Bed<R(==)> = Bed(store: Records, reg: Registry<R>)

  // ------------------------------------------------------------- minting

  function MintClaims(cfg: Config, who: Identity, sid: string, ws: string, now: int): Claims {
    Claims(who.moniker, now, now + cfg.ttl, sid, who.isSysop, cfg.instanceId, ws, who.loginid)
  }

  function Mint(cfg: Config, who: Identity, sid: string, ws: string, now: int): TokenRecord {
    var c := MintClaims(cfg, who, sid, ws, now);
    TokenRecord(cfg.codec.encode(c), who.moniker, sid, now, now + cfg.ttl, who.isSysop,
      cfg.instanceId, ws, c, who.loginid)
  }

  /** How token_store.put ended: normally, or raising before or after the store took the record. */
  datatype PutOutcome = Kept | RaisedBefore | RaisedAfter

  function Persisted(s: Records, rec: TokenRecord, put: PutOutcome): Records {
    if put == RaisedBefore then s else Stored(s, rec)
  }

  function IdentityOf(rec: TokenRecord): Identity {
    Identity(rec.moniker, rec.isSysop, rec.loginid)
  }

  // ------------------------------------------------------------ handlers

  /** The registry after one state object changes its token. */
  function WithToken<R(==)>(reg: Registry<R>, r: R, token: Option<string>): Registry<R>
    requires r in reg.heap
  {
    reg.(heap := reg.heap[r := reg.heap[r].(authServiceToken := token)])
  }

  function LoginArgs(info: MemberInfo, sid: string, ws: string): BindArgs {
    BindArgs(sid, ws, info.who.moniker, info.who.isSysop, info.balance, info.who.loginid, None, None)
  }

  /** _handle_auth */
  function Login<R(==)>(cfg: Config, bed: Bed<R>, spare: R, moniker: string, password: string, allow: bool,
                        found: Option<MemberInfo>, sid: string, ws: string, now: int, put: PutOutcome,
                        balance: Option<int>): (Bed<R>, Reply)
    requires Keyed(bed.reg)
  {
    if Strip(moniker) == "" || password == "" then (bed, Error(MissingCredentials, false))
    else if !allow then (bed, Error(Forbidden, false))
    else
      match found
      case None => (bed, Error(BadCredentials, false))
      case Some(info) =>
        var r := BoundRef(bed.reg, spare, LoginArgs(info, sid, ws));
        var reg := Bind(bed.reg, spare, LoginArgs(info, sid, ws));
        var rec := Mint(cfg, info.who, sid, ws, now);
        var store := Persisted(bed.store, rec, put);
        if put != Kept then (Bed(store, WithToken(reg, r, None)), Raised)
        else
          var reg := WithToken(reg, r, Some(rec.token));
          (Bed(store, if balance.Some? then WithBalance(reg, r, balance) else reg),
           AuthResult(info.who, sid, rec.token, rec.expiresAt))
  }

  /** The balance read after the token exists, when the read succeeds. */
  function WithBalance<R(==)>(reg: Registry<R>, r: R, balance: Option<int>): Registry<R>
    requires r in reg.heap
  {
    reg.(heap := reg.heap[r := reg.heap[r].(balance := balance)])
  }

  /** The clock readings of one call, in the order the call takes them. */
  datatype Reads = Reads(check: int, lookup: int, mint: int)

  function ReconnectArgs(rec: TokenRecord, ws: string): BindArgs {
    BindArgs(rec.sessionId, ws, rec.moniker, rec.isSysop, None, rec.loginid, None, None)
  }

  /** What reconnect and refresh check about a presented token, and the store they leave. */
  datatype Presented = Refused(store: Records, reply: Reply) | Valid(store: Records, rec: TokenRecord)

  function Present(cfg: Config, store: Records, token: string, at: Reads): Presented {
    match cfg.codec.decode(token)
    case Invalid => Refused(store, Error(TokenInvalid, false))
    case Escapes => Refused(store, Raised)
    case Decoded(claims) =>
      if claims.expiresAt <= at.check then Refused(Removed(store, token), Error(TokenExpired, true))
      else
        match Live(store, token, at.lookup)
        case None => Refused(AfterGet(store, token, at.lookup), Error(TokenRevoked, false))
        case Some(rec) =>
          if rec.instanceId != cfg.instanceId then Refused(Removed(store, token), Error(InstanceMismatch, false))
          else Valid(store, rec)
  }

  /** A refused reconnect forgets the session's un-acked request when the token is dead. */
  function ForgetPending<R(==)>(cfg: Config, reg: Registry<R>, token: string, reply: Reply): Registry<R>
    requires Keyed(reg)
  {
    if reply == Error(TokenExpired, true) || reply == Error(TokenRevoked, false) then
      match cfg.codec.decode(token)
      case Decoded(claims) => RecordPending(reg, claims.sessionId, None)
      case _ => reg
    else reg
  }

  /** The store after a rotation that went through, and after one that raised and was rolled back. */
  function Rotated(store: Records, token: string, rec: TokenRecord): Records {
    Removed(Stored(store, rec), token)
  }

  function RolledBack(store: Records, rec: TokenRecord, put: PutOutcome): Records {
    Removed(Persisted(store, rec, put), rec.token)
  }

  /** _handle_reconnect */
  function Reconnect<R(==)>(cfg: Config, bed: Bed<R>, spare: R, token: string, ws: string, at: Reads,
                            allow: bool, put: PutOutcome): (Bed<R>, Reply)
    requires Keyed(bed.reg)
  {
    if token == "" then (bed, Error(TokenInvalid, false))
    else
      match Present(cfg, bed.store, token, at)
      case Refused(store, reply) => (Bed(store, ForgetPending(cfg, bed.reg, token, reply)), reply)
      case Valid(store, rec) =>
        if !allow then (Bed(store, bed.reg), Error(Forbidden, false))
        else
          var r := BoundRef(bed.reg, spare, ReconnectArgs(rec, ws));
          var reg := Bind(bed.reg, spare, ReconnectArgs(rec, ws));
          var rotated := Mint(cfg, IdentityOf(rec), rec.sessionId, ws, at.mint);
          if put != Kept then (Bed(RolledBack(store, rotated, put), reg), Raised)
          else
            var pending := reg.heap[r].pendingRequest;
            var s := reg.heap[r].(authServiceToken := Some(rotated.token), pendingRequest := None);
            (Bed(Rotated(store, token, rotated), reg.(heap := reg.heap[r := s])),
             ReconnectResult(IdentityOf(rec), rec.sessionId, rotated.token, rotated.expiresAt, pending))
  }

  /**
    The refresh policy lives in bbsengine6.auth.access; what is relied on is that it allows a
    refresh only when the socket's live state is of the session the claims name.
   */
  predicate MayRefresh<R(==)>(reg: Registry<R>, ws: string, sid: string, allow: bool)
    requires ws in reg.byWebsocket ==> reg.byWebsocket[ws] in reg.heap
  {
    allow && ws in reg.byWebsocket && reg.heap[reg.byWebsocket[ws]].sessionId == sid
  }

  /** _handle_auth_refresh; ws is None when there is no live websocket. */
  function Refresh<R(==)>(cfg: Config, bed: Bed<R>, token: string, ws: Option<string>, at: Reads,
                          allow: bool, put: PutOutcome): (Bed<R>, Reply)
    requires Keyed(bed.reg)
  {
    if ws.None? then (bed, Error(NotAuthenticated, true))
    else
      match Present(cfg, bed.store, token, at)
      case Refused(store, reply) => (Bed(store, bed.reg), reply)
      case Valid(store, rec) =>
        var claims := cfg.codec.decode(token).claims;
        if !MayRefresh(bed.reg, ws.value, claims.sessionId, allow) then
          (Bed(store, bed.reg), Error(NotAuthenticated, true))
        else Refreshed(cfg, Bed(store, bed.reg), bed.reg.byWebsocket[ws.value], token, rec, ws.value, at.mint, put)
  }

  /** The rotation a refresh performs for the socket's live state r. */
  function Refreshed<R(==)>(cfg: Config, bed: Bed<R>, r: R, token: string, rec: TokenRecord, ws: string,
                            now: int, put: PutOutcome): (Bed<R>, Reply)
    requires r in bed.reg.heap
  {
    var rotated := Mint(cfg, IdentityOf(rec), rec.sessionId, ws, now);
    if put != Kept then (Bed(RolledBack(bed.store, rotated, put), bed.reg), Raised)
    else
      (Bed(Rotated(bed.store, token, rotated), WithToken(bed.reg, r, Some(rotated.token))),
       AuthResult(IdentityOf(rec), rec.sessionId, rotated.token, rotated.expiresAt))
  }

  /** _handle_auth_revoke */
  function Revoke(cfg: Config, store: Records, token: string, allow: bool): (Records, Reply) {
    if token == "" then (store, Error(TokenInvalid, false))
    else
      match cfg.codec.decode(token)
      case Invalid => (store, RevokeResult(false, Some(TokenInvalid), false))
      case Escapes => (store, Raised)
      case Decoded(_) =>
        if !allow then (store, RevokeResult(false, Some(Forbidden), false))
        else if token in store then (Removed(store, token), RevokeResult(true, None, false))
        else (store, RevokeResult(false, Some(TokenRevoked), true))
  }

  // --------------------------------------------------------------- gates

  /** gate.py serves the bank, casino and whiteboard families; message.py has its own copy. */
  datatype Gate = FamilyGate | MessageGate

  datatype Verdict =
    | NoToken
    | Accepted(claims: Claims)
    | Rejected(code: Code, recoverable: bool)
    | Escaped

  /** gate.py _validate_token_against_store: the store is asked first, expiry checked last. */
  function FamilyValidate(cfg: Config, store: Records, token: string, lookup: int, check: int): (Records, Verdict) {
    var t := Strip(token);
    if t == "" then (store, NoToken)
    else
      match cfg.codec.decode(t)
      case Invalid => (store, Rejected(TokenInvalid, false))
      case Escapes => (store, Escaped)
      case Decoded(claims) =>
        match Live(store, t, lookup)
        case None => (AfterGet(store, t, lookup), Rejected(TokenRevoked, false))
        case Some(rec) =>
          if rec.instanceId != cfg.instanceId then (Removed(store, t), Rejected(InstanceMismatch, false))
          else if rec.expiresAt <= check then (Removed(store, t), Rejected(TokenExpired, true))
          else (store, Accepted(claims))
  }

  /** message.py _validate_token_against_store: expiry is read off the claims, then the store asked. */
  function MessageValidate(cfg: Config, store: Records, token: string, check: int, lookup: int): (Records, Verdict) {
    var t := Strip(token);
    if t == "" then (store, NoToken)
    else
      match cfg.codec.decode(t)
      case Invalid => (store, Rejected(TokenInvalid, false))
      case Escapes => (store, Escaped)
      case Decoded(claims) =>
        if claims.expiresAt <= check then (Removed(store, t), Rejected(TokenExpired, true))
        else
          match Live(store, t, lookup)
          case None => (AfterGet(store, t, lookup), Rejected(TokenRevoked, false))
          case Some(rec) =>
            if rec.instanceId != cfg.instanceId then (Removed(store, t), Rejected(InstanceMismatch, false))
            else (store, Accepted(claims))
  }

  /** Either gate's validator; `first` and `second` are its two clock readings in order. */
  function Validate(gate: Gate, cfg: Config, store: Records, token: string, first: int, second: int): (Records, Verdict)
  {
    if gate == FamilyGate then FamilyValidate(cfg, store, token, first, second)
    else MessageValidate(cfg, store, token, first, second)
  }

  /** Python's `a or b` on text and on an optional login id. */
  function OrText(a: string, b: string): string { if a != "" then a else b }

  function OrLogin(a: Option<string>, b: Option<string>): Option<string> {
    if a.Some? && a.value != "" then a else b
  }

  /** The arguments the lazy bind passes, from the claims and the session already registered. */
  function LazyArgs<R(==)>(reg: Registry<R>, c: Claims, ws: string): BindArgs
    requires Keyed(reg)
  {
    var sid := Strip(c.sessionId);
    if sid in reg.bySession then
      var s := StateOf(reg, sid);
      BindArgs(sid, ws, OrText(s.moniker, Strip(c.moniker)), s.isSysop || c.isSysop, None,
        OrLogin(s.loginid, c.loginid), None, None)
    else BindArgs(sid, ws, Strip(c.moniker), c.isSysop, None, c.loginid, None, None)
  }

  /** The state a call acts as, with the claims it was bound from; or the refusal. */
  datatype Access<R> = Granted(state: R, claims: Option<Claims>) | Denied(verdict: Verdict)

  const NOT_AUTHENTICATED: Verdict := Rejected(NotAuthenticated, true)

  /** The lazy bind of a socket that carries no session, from the claims of an accepted token. */
  function LazyBind<R(==)>(bed: Bed<R>, spare: R, claims: Claims, ws: string, token: string): (r: (Bed<R>, Access<R>))
    requires Keyed(bed.reg)
    ensures r.1.Granted? && r.1.state in r.0.reg.heap
  {
    var args := LazyArgs(bed.reg, claims, ws);
    var r := BoundRef(bed.reg, spare, args);
    (bed.(reg := WithToken(Bind(bed.reg, spare, args), r, Some(Strip(token)))), Granted(r, Some(claims)))
  }

  /** _get_or_bind_session_for */
  function Resolve<R(==)>(gate: Gate, cfg: Config, bed: Bed<R>, spare: R, ws: Option<string>, token: string,
                          first: int, second: int): (r: (Bed<R>, Access<R>))
    requires Keyed(bed.reg)
    ensures r.1.Granted? ==> r.1.state in r.0.reg.heap
  {
    if ws.None? then (bed, Denied(NOT_AUTHENTICATED))
    else if ws.value in bed.reg.byWebsocket then (bed, Granted(bed.reg.byWebsocket[ws.value], None))
    else if Strip(token) == "" then (bed, Denied(NOT_AUTHENTICATED))
    else
      var (store, verdict) := Validate(gate, cfg, bed.store, token, first, second);
      if !verdict.Accepted? then (Bed(store, bed.reg), Denied(if verdict.NoToken? then NOT_AUTHENTICATED else verdict))
      else if Strip(verdict.claims.sessionId) == "" then (Bed(store, bed.reg), Denied(NOT_AUTHENTICATED))
      else LazyBind(Bed(store, bed.reg), spare, verdict.claims, ws.value, token)
  }

  /**
    _check_access up to the claims: the session, then the wire token, and the session's own
    token only when the message carries none. Messages arrive without claims of their own.
   */
  function CheckAccess<R(==)>(gate: Gate, cfg: Config, bed: Bed<R>, spare: R, ws: Option<string>, token: string,
                              first: int, second: int): (Bed<R>, Access<R>)
    requires Keyed(bed.reg)
  {
    var (bed, access) := Resolve(gate, cfg, bed, spare, ws, token, first, second);
    if access.Denied? || access.claims.Some? then (bed, access)
    else
      var (store, wire) := Validate(gate, cfg, bed.store, token, first, second);
      match wire
      case Accepted(c) => (bed.(store := store), Granted(access.state, Some(c)))
      case Rejected(_, _) => (bed.(store := store), Denied(wire))
      case Escaped => (bed.(store := store), Denied(wire))
      case NoToken =>
        var own := bed.reg.heap[access.state].authServiceToken;
        var (store, verdict) := Validate(gate, cfg, store, if own.Some? then own.value else "", first, second);
        match verdict
        case Accepted(c) => (bed.(store := store), Granted(access.state, Some(c)))
        case NoToken => (bed.(store := store), access)
        case _ => (bed.(store := store), Denied(verdict))
  }
}
