/**
  AuthService and the gates as the daemon runs them: methods that update the token store, the
  registry and the session states step by step, each proved against its function in AuthSpec.
 */
module AuthService {
  import opened Basics
  import opened PyText
  import opened Tokens
  import opened TokenStore
  import opened Sessions
  import opened SessionRegistry
  import opened AuthSpec

  class AuthService {
    const cfg: Config
    const tokenStore: InMemoryTokenStore
    const sessions: SessionRegistry

    constructor (cfg: Config, tokenStore: InMemoryTokenStore, sessions: SessionRegistry)
      requires sessions.Valid()
      ensures this.cfg == cfg && this.tokenStore == tokenStore && this.sessions == sessions && Valid()
    {
      this.cfg, this.tokenStore, this.sessions := cfg, tokenStore, sessions;
    }

    ghost predicate Valid()
      reads sessions, sessions.states
    {
      sessions.Valid()
    }

    /** The service's state as a value. */
    ghost function Snapshot(): Bed<SessionState?>
      reads tokenStore, sessions, sessions.states
    {
      Bed(tokenStore.records, sessions.Snapshot())
    }

    /** _persist; false stands for the exception it lets through. */
    method Persist(rec: TokenRecord, put: PutOutcome) returns (kept: bool)
      modifies tokenStore
      ensures kept == (put == Kept)
      ensures tokenStore.records == Persisted(old(tokenStore.records), rec, put)
    {
      if put != RaisedBefore { tokenStore.Put(rec); }
      return put == Kept;
    }

    /** state.auth_service_token = token */
    method SetToken(state: SessionState, token: Option<string>)
      requires Valid() && state in sessions.states
      modifies state
      ensures Valid() && sessions.Snapshot() == WithToken(old(sessions.Snapshot()), state, token)
    {
      state.authServiceToken := token;
      assert sessions.Snapshot().heap == old(sessions.Snapshot()).heap[state := state.Value()];
    }

    /** state.balance = balance */
    method SetBalance(state: SessionState, balance: Option<int>)
      requires Valid() && state in sessions.states
      modifies state
      ensures Valid() && sessions.Snapshot() == WithBalance(old(sessions.Snapshot()), state, balance)
    {
      state.balance := balance;
      assert sessions.Snapshot().heap == old(sessions.Snapshot()).heap[state := state.Value()];
    }

    /** _handle_auth. `spare` is the state a bind allocated or found, null when there was no bind. */
    method HandleAuth(moniker: string, password: string, allow: bool, found: Option<MemberInfo>, sid: string,
                      ws: string, now: int, put: PutOutcome, balance: Option<int>)
      returns (reply: Reply, ghost spare: SessionState?)
      requires Valid()
      modifies tokenStore, sessions, sessions.states
      ensures Valid()
      ensures spare == null || spare in old(sessions.states) || fresh(spare)
      ensures (Snapshot(), reply)
           == Login(cfg, old(Snapshot()), spare, moniker, password, allow, found, sid, ws, now, put, balance)
    {
      if Strip(moniker) == "" || password == "" {
        return Error(MissingCredentials, false), null;
      }
      if !allow {
        return Error(Forbidden, false), null;
      }
      if found.None? {
        return Error(BadCredentials, false), null;
      }
      hide *;
      ghost var before := Snapshot();
      reply, spare := StartSession(found.value, sid, ws, now, put, balance);
      LoginBound(cfg, before, spare, moniker, password, found.value, sid, ws, now, put, balance);
    }

    /** _handle_auth once the credentials are good: bind, mint, persist, and hand the token out. */
    method StartSession(info: MemberInfo, sid: string, ws: string, now: int, put: PutOutcome, balance: Option<int>)
      returns (reply: Reply, ghost state: SessionState)
      requires Valid()
      modifies tokenStore, sessions, sessions.states
      ensures Valid()
      ensures state in old(sessions.states) || fresh(state)
      ensures BoundRef(old(sessions.Snapshot()), state, LoginArgs(info, sid, ws)) == state
      ensures (Snapshot(), reply) == Started(cfg, old(Snapshot()), state, info, sid, ws, now, put, balance)
    {
      hide Sessions.Bind, BoundRef, Keyed, Mint, LoginArgs, Persisted, WithToken, WithBalance, SessionRegistry.Snapshot;
      ghost var before := Snapshot();
      var bound := sessions.Bind(LoginArgs(info, sid, ws));
      state := bound;
      SetToken(bound, None);
      var rec := Mint(cfg, info.who, sid, ws, now);
      var kept := Persist(rec, put);
      if kept {
        SetToken(bound, Some(rec.token));
        if balance.Some? { SetBalance(bound, balance); }
      }
      reply := if kept then AuthResult(info.who, sid, rec.token, rec.expiresAt) else Raised;
    }

    /** The checks reconnect and refresh share, each deleting what it finds dead. */
    method Check(token: string, at: Reads) returns (r: Presented)
      modifies tokenStore
      ensures r == Present(cfg, old(tokenStore.records), token, at)
      ensures tokenStore.records == r.store
    {
      var decoded := cfg.codec.decode(token);
      match decoded
      case Invalid => return Refused(tokenStore.records, Error(TokenInvalid, false));
      case Escapes => return Refused(tokenStore.records, Raised);
      case Decoded(claims) =>
        if claims.expiresAt <= at.check {
          var _ := tokenStore.Delete(token);
          return Refused(tokenStore.records, Error(TokenExpired, true));
        }
        var rec := tokenStore.Get(token, at.lookup);
        if rec.None? {
          return Refused(tokenStore.records, Error(TokenRevoked, false));
        }
        if rec.value.instanceId != cfg.instanceId {
          var _ := tokenStore.Delete(token);
          return Refused(tokenStore.records, Error(InstanceMismatch, false));
        }
        return AuthSpec.Valid(tokenStore.records, rec.value);
    }

    /** The store side of a rotation: keep the new record and delete the old, or roll back. */
    method Rotate(token: string, rotated: TokenRecord, put: PutOutcome) returns (kept: bool)
      modifies tokenStore
      ensures kept == (put == Kept)
      ensures tokenStore.records
           == if kept then Rotated(old(tokenStore.records), token, rotated)
              else RolledBack(old(tokenStore.records), rotated, put)
    {
      kept := Persist(rotated, put);
      if !kept {
        var _ := tokenStore.Delete(rotated.token);
      } else {
        var _ := tokenStore.Delete(token);
      }
    }

    /** _handle_reconnect */
    method HandleReconnect(token: string, ws: string, at: Reads, allow: bool, put: PutOutcome)
      returns (reply: Reply, ghost spare: SessionState?)
      requires Valid()
      modifies tokenStore, sessions, sessions.states
      ensures Valid()
      ensures spare == null || spare in old(sessions.states) || fresh(spare)
      ensures (Snapshot(), reply) == Reconnect(cfg, old(Snapshot()), spare, token, ws, at, allow, put)
    {
      if token == "" {
        return Error(TokenInvalid, false), null;
      }
      hide Sessions.Bind, BoundRef, Mint, Present, Sessions.RecordPending, Keyed, SessionRegistry.Snapshot;
      var presented := Check(token, at);
      if presented.Refused? {
        reply := presented.reply;
        if reply == Error(TokenExpired, true) || reply == Error(TokenRevoked, false) {
          var decoded := cfg.codec.decode(token);
          if decoded.Decoded? {
            sessions.RecordPending(decoded.claims.sessionId, None);
          }
        }
        return reply, null;
      }
      if !allow {
        return Error(Forbidden, false), null;
      }
      ghost var checked := Snapshot();
      reply, spare := MoveSession(token, presented.rec, ws, at.mint, put);
      ReconnectMoves(cfg, old(Snapshot()), spare, token, ws, at, put);
      hide *;
    }

    /** _handle_reconnect once the token has been accepted: bind, rotate, and replay what is pending. */
    method MoveSession(token: string, rec: TokenRecord, ws: string, now: int, put: PutOutcome)
      returns (reply: Reply, ghost state: SessionState)
      requires Valid()
      modifies tokenStore, sessions, sessions.states
      ensures Valid()
      ensures state in old(sessions.states) || fresh(state)
      ensures rec.sessionId in old(Snapshot()).reg.bySession || state !in old(Snapshot()).reg.heap
      ensures BoundRef(old(sessions.Snapshot()), state, ReconnectArgs(rec, ws)) == state
      ensures (Snapshot(), reply) == Moved(cfg, old(Snapshot()), state, token, rec, ws, now, put)
    {
      hide Sessions.Bind, BoundRef, Keyed, Mint, Persisted, WithToken, Sessions.RecordPending,
        PendingOf, Rotated, RolledBack, SessionRegistry.Snapshot;
      var bound := sessions.Bind(ReconnectArgs(rec, ws));
      state := bound;
      var rotated := Mint(cfg, IdentityOf(rec), rec.sessionId, ws, now);
      var kept := Rotate(token, rotated, put);
      if !kept {
        return Raised, state;
      }
      SetToken(bound, Some(rotated.token));
      var pending := sessions.TakePending(rec.sessionId);
      return ReconnectResult(IdentityOf(rec), rec.sessionId, rotated.token, rotated.expiresAt, pending), state;
    }

    /** _handle_auth_refresh */
    method HandleRefresh(token: string, ws: Option<string>, at: Reads, allow: bool, put: PutOutcome)
      returns (reply: Reply)
      requires Valid()
      modifies tokenStore, sessions.states
      ensures Valid()
      ensures (Snapshot(), reply) == Refresh(cfg, old(Snapshot()), token, ws, at, allow, put)
    {
      if ws.None? {
        return Error(NotAuthenticated, true);
      }
      hide SessionRegistry.Snapshot, Keyed, Present, Refreshed, MayRefresh, WithToken, Mint;
      var presented := Check(token, at);
      if presented.Refused? {
        return presented.reply;
      }
      var claims := cfg.codec.decode(token).claims;
      var live := AuthorizeRefresh(ws.value, claims.sessionId, allow);
      if live == null {
        return Error(NotAuthenticated, true);
      }
      reply := RotateFor(live, token, presented.rec, ws.value, at.mint, put);
    }

    /** _handle_auth_refresh once the token and the policy have been checked. */
    method RotateFor(live: SessionState, token: string, rec: TokenRecord, ws: string, now: int, put: PutOutcome)
      returns (reply: Reply)
      requires Valid() && live in sessions.states
      modifies tokenStore, live
      ensures Valid() && live in old(sessions.Snapshot()).heap
      ensures (Snapshot(), reply) == Refreshed(cfg, old(Snapshot()), live, token, rec, ws, now, put)
    {
      assert live in sessions.Snapshot().heap;
      hide SessionRegistry.Snapshot, Keyed, Mint, Rotated, RolledBack, WithToken;
      var rotated := Mint(cfg, IdentityOf(rec), rec.sessionId, ws, now);
      var kept := Rotate(token, rotated, put);
      if !kept {
        return Raised;
      }
      SetToken(live, Some(rotated.token));
      return AuthResult(IdentityOf(rec), rec.sessionId, rotated.token, rotated.expiresAt);
    }

    /** The refresh policy on the socket's live state: that state when it allows the refresh, else null. */
    method AuthorizeRefresh(ws: string, sid: string, allow: bool) returns (live: SessionState?)
      requires Valid()
      ensures live != null <==> MayRefresh(sessions.Snapshot(), ws, sid, allow)
      ensures live != null ==> live in sessions.states && live == sessions.Snapshot().byWebsocket[ws]
    {
      live := sessions.GetByWebsocket(ws);
      if live != null {
        assert live in sessions.Snapshot().heap;
        if !allow || live.sessionId != sid { live := null; }
      }
    }

    /** _handle_auth_revoke */
    method HandleRevoke(token: string, allow: bool) returns (reply: Reply)
      modifies tokenStore
      ensures (tokenStore.records, reply) == Revoke(cfg, old(tokenStore.records), token, allow)
    {
      if token == "" {
        return Error(TokenInvalid, false);
      }
      var decoded := cfg.codec.decode(token);
      match decoded
      case Invalid => return RevokeResult(false, Some(TokenInvalid), false);
      case Escapes => return Raised;
      case Decoded(_) =>
        if !allow {
          return RevokeResult(false, Some(Forbidden), false);
        }
        var deleted := tokenStore.Delete(token);
        if deleted {
          return RevokeResult(true, None, false);
        }
        assert Removed(old(tokenStore.records), token) == old(tokenStore.records);
        return RevokeResult(false, Some(TokenRevoked), true);
    }

    // ------------------------------------------------------------- gates

    /** gate.py _validate_token_against_store */
    method FamilyGateValidate(token: string, lookup: int, check: int) returns (v: Verdict)
      modifies tokenStore
      ensures (tokenStore.records, v) == FamilyValidate(cfg, old(tokenStore.records), token, lookup, check)
    {
      var t := Strip(token);
      if t == "" {
        return NoToken;
      }
      var decoded := cfg.codec.decode(t);
      match decoded
      case Invalid => return Rejected(TokenInvalid, false);
      case Escapes => return Escaped;
      case Decoded(claims) =>
        var rec := tokenStore.Get(t, lookup);
        if rec.None? {
          return Rejected(TokenRevoked, false);
        }
        if rec.value.instanceId != cfg.instanceId {
          var _ := tokenStore.Delete(t);
          return Rejected(InstanceMismatch, false);
        }
        if rec.value.expiresAt <= check {
          var _ := tokenStore.Delete(t);
          return Rejected(TokenExpired, true);
        }
        return Accepted(claims);
    }

    /** message.py _validate_token_against_store */
    method MessageGateValidate(token: string, check: int, lookup: int) returns (v: Verdict)
      modifies tokenStore
      ensures (tokenStore.records, v) == MessageValidate(cfg, old(tokenStore.records), token, check, lookup)
    {
      var t := Strip(token);
      if t == "" {
        return NoToken;
      }
      var decoded := cfg.codec.decode(t);
      match decoded
      case Invalid => return Rejected(TokenInvalid, false);
      case Escapes => return Escaped;
      case Decoded(claims) =>
        if claims.expiresAt <= check {
          var _ := tokenStore.Delete(t);
          return Rejected(TokenExpired, true);
        }
        var rec := tokenStore.Get(t, lookup);
        if rec.None? {
          return Rejected(TokenRevoked, false);
        }
        if rec.value.instanceId != cfg.instanceId {
          var _ := tokenStore.Delete(t);
          return Rejected(InstanceMismatch, false);
        }
        return Accepted(claims);
    }

    method GateValidate(gate: Gate, token: string, first: int, second: int) returns (v: Verdict)
      modifies tokenStore
      ensures (tokenStore.records, v) == Validate(gate, cfg, old(tokenStore.records), token, first, second)
    {
      if gate == FamilyGate {
        v := FamilyGateValidate(token, first, second);
      } else {
        v := MessageGateValidate(token, first, second);
      }
    }

    /** _get_or_bind_session_for */
    method GetOrBindSessionFor(gate: Gate, ws: Option<string>, token: string, first: int, second: int)
      returns (access: Access<SessionState?>, ghost spare: SessionState?)
      requires Valid()
      modifies tokenStore, sessions, sessions.states
      ensures Valid() && fresh(sessions.states - old(sessions.states))
      ensures (Snapshot(), access) == Resolve(gate, cfg, old(Snapshot()), spare, ws, token, first, second)
      ensures spare == null || spare in old(sessions.states) || fresh(spare)
    {
      if ws.None? {
        return Denied(NOT_AUTHENTICATED), null;
      }
      var state := sessions.GetByWebsocket(ws.value);
      assert state != null <==> ws.value in sessions.Snapshot().byWebsocket;
      hide Validate, Keyed, LazyBind, SessionRegistry.Snapshot;
      if state != null {
        return Granted(state, None), null;
      }
      if Strip(token) == "" {
        return Denied(NOT_AUTHENTICATED), null;
      }
      var verdict := GateValidate(gate, token, first, second);
      if !verdict.Accepted? {
        return Denied(if verdict.NoToken? then NOT_AUTHENTICATED else verdict), null;
      }
      if Strip(verdict.claims.sessionId) == "" {
        return Denied(NOT_AUTHENTICATED), null;
      }
      access, spare := BindLazily(verdict.claims, ws.value, token);
    }

    method BindLazily(claims: Claims, ws: string, token: string)
      returns (access: Access<SessionState?>, ghost spare: SessionState?)
      requires Valid()
      modifies sessions, sessions.states
      ensures Valid() && fresh(sessions.states - old(sessions.states))
      ensures spare in old(sessions.states) || fresh(spare)
      ensures (Snapshot(), access) == LazyBind(old(Snapshot()), spare, claims, ws, token)
    {
      hide Sessions.Bind, BoundRef, Keyed, LazyArgs, WithToken, SessionRegistry.Snapshot;
      var args := ArgsForLazyBind(claims, ws);
      var bound := sessions.Bind(args);
      SetToken(bound, Some(Strip(token)));
      return Granted(bound, Some(claims)), bound;
    }

    /** What the lazy bind passes on: the registered session's fields first, the claims' where it has none. */
    method ArgsForLazyBind(claims: Claims, ws: string) returns (args: BindArgs)
      requires Valid()
      ensures args == LazyArgs(sessions.Snapshot(), claims, ws)
    {
      var sid := Strip(claims.sessionId);
      var existing := sessions.GetBySession(sid);
      if existing == null {
        return BindArgs(sid, ws, Strip(claims.moniker), claims.isSysop, None, claims.loginid, None, None);
      }
      assert existing in sessions.Snapshot().heap;
      return BindArgs(sid, ws, OrText(existing.moniker, Strip(claims.moniker)),
          existing.isSysop || claims.isSysop, None, OrLogin(existing.loginid, claims.loginid), None, None);
    }

    /** _check_access, up to the claims it stashes on the message. */
    method CheckMessageAccess(gate: Gate, ws: Option<string>, token: string, first: int, second: int)
      returns (access: Access<SessionState?>, ghost spare: SessionState?)
      requires Valid()
      modifies tokenStore, sessions, sessions.states
      ensures Valid()
      ensures (Snapshot(), access) == CheckAccess(gate, cfg, old(Snapshot()), spare, ws, token, first, second)
      ensures spare == null || spare in old(sessions.states) || fresh(spare)
    {
      hide Resolve, Validate;
      access, spare := GetOrBindSessionFor(gate, ws, token, first, second);
      if access.Denied? || access.claims.Some? {
        return;
      }
      var state := access.state;
      var wire := GateValidate(gate, token, first, second);
      match wire
      case Accepted(c) => access := Granted(state, Some(c));
      case Rejected(_, _) => access := Denied(wire);
      case Escaped => access := Denied(wire);
      case NoToken =>
        assert state in sessions.Snapshot().heap;
        var own := state.authServiceToken;
        var verdict := GateValidate(gate, if own.Some? then own.value else "", first, second);
        match verdict
        case Accepted(c) => access := Granted(state, Some(c));
        case NoToken => access := Granted(state, None);
        case _ => access := Denied(verdict);
    }
  }
  /** The state and reply once bind returned r, step by step. */
  ghost function Started<R>(cfg: Config, bed: Bed<R>, r: R, info: MemberInfo, sid: string, ws: string, now: int,
                            put: PutOutcome, balance: Option<int>): (Bed<R>, Reply)
    requires Keyed(bed.reg)
    requires BoundRef(bed.reg, r, LoginArgs(info, sid, ws)) == r
  {
    var rec := Mint(cfg, info.who, sid, ws, now);
    var store := Persisted(bed.store, rec, put);
    var bound := WithToken(Sessions.Bind(bed.reg, r, LoginArgs(info, sid, ws)), r, None);
    if put != Kept then (Bed(store, bound), Raised)
    else
      var kept := WithToken(bound, r, Some(rec.token));
      (Bed(store, if balance.Some? then WithBalance(kept, r, balance) else kept),
       AuthResult(info.who, sid, rec.token, rec.expiresAt))
  }

  /** Those steps are Login once its checks have passed. */
  lemma LoginBound<R>(cfg: Config, bed: Bed<R>, r: R, moniker: string, password: string, info: MemberInfo,
                      sid: string, ws: string, now: int, put: PutOutcome, balance: Option<int>)
    requires Keyed(bed.reg) && Strip(moniker) != "" && password != ""
    requires BoundRef(bed.reg, r, LoginArgs(info, sid, ws)) == r
    ensures Login(cfg, bed, r, moniker, password, true, Some(info), sid, ws, now, put, balance)
         == Started(cfg, bed, r, info, sid, ws, now, put, balance)
  {
    var reg := Sessions.Bind(bed.reg, r, LoginArgs(info, sid, ws));
    assert r in reg.heap;
    hide Sessions.Bind, BoundRef, Keyed, Mint, LoginArgs;
    var token := Some(Mint(cfg, info.who, sid, ws, now).token);
    assert WithToken(WithToken(reg, r, None), r, token) == WithToken(reg, r, token);
  }

  /** The state and reply of an accepted reconnect once bind returned r, step by step. */
  ghost function Moved<R>(cfg: Config, bed: Bed<R>, r: R, token: string, rec: TokenRecord, ws: string, now: int,
                          put: PutOutcome): (Bed<R>, Reply)
    requires Keyed(bed.reg) && (rec.sessionId in bed.reg.bySession || r !in bed.reg.heap)
    requires BoundRef(bed.reg, r, ReconnectArgs(rec, ws)) == r
  {
    var rotated := Mint(cfg, IdentityOf(rec), rec.sessionId, ws, now);
    var bound := Sessions.Bind(bed.reg, r, ReconnectArgs(rec, ws));
    if put != Kept then (Bed(RolledBack(bed.store, rotated, put), bound), Raised)
    else
      BindKeyedAt(bed.reg, r, ReconnectArgs(rec, ws));
      var kept := WithToken(bound, r, Some(rotated.token));
      (Bed(Rotated(bed.store, token, rotated), Sessions.RecordPending(kept, rec.sessionId, None)),
       ReconnectResult(IdentityOf(rec), rec.sessionId, rotated.token, rotated.expiresAt,
         PendingOf(kept, rec.sessionId)))
  }

  /** Binding at the reference it returns files the session there. */
  lemma BindKeyedAt<R>(reg: Registry<R>, r: R, a: BindArgs)
    requires Keyed(reg) && BoundRef(reg, r, a) == r && (a.sessionId in reg.bySession || r !in reg.heap)
    ensures var post := Sessions.Bind(reg, r, a);
      Keyed(post) && r in post.heap && a.sessionId in post.bySession && post.bySession[a.sessionId] == r
  {
    BindKeyed(reg, r, a);
    hide Keyed, Indexed, Updated, NewSession, Evicted;
  }

  /** Those steps are Reconnect once the token is accepted. */
  lemma ReconnectMoves<R>(cfg: Config, bed: Bed<R>, r: R, token: string, ws: string, at: Reads, put: PutOutcome)
    requires Keyed(bed.reg) && token != "" && Present(cfg, bed.store, token, at).Valid?
    requires Present(cfg, bed.store, token, at).rec.sessionId in bed.reg.bySession || r !in bed.reg.heap
    requires BoundRef(bed.reg, r, ReconnectArgs(Present(cfg, bed.store, token, at).rec, ws)) == r
    ensures var p := Present(cfg, bed.store, token, at);
      Reconnect(cfg, bed, r, token, ws, at, true, put)
        == Moved(cfg, Bed(p.store, bed.reg), r, token, p.rec, ws, at.mint, put)
  {
    var p := Present(cfg, bed.store, token, at);
    BindKeyedAt(bed.reg, r, ReconnectArgs(p.rec, ws));
    TokenThenTake(Sessions.Bind(bed.reg, r, ReconnectArgs(p.rec, ws)), r, p.rec.sessionId,
      Some(Mint(cfg, IdentityOf(p.rec), p.rec.sessionId, ws, at.mint).token));
    hide Sessions.Bind, BoundRef, Keyed, Mint, Present, WithToken, Sessions.RecordPending, PendingOf;
  }

  /** Setting the token and then taking the pending request is one update of the state. */
  lemma TokenThenTake<R>(reg: Registry<R>, r: R, sid: string, token: Option<string>)
    requires Keyed(reg) && sid in reg.bySession && reg.bySession[sid] == r
    ensures var kept := WithToken(reg, r, token);
      && Keyed(kept)
      && Sessions.RecordPending(kept, sid, None)
           == reg.(heap := reg.heap[r := reg.heap[r].(authServiceToken := token, pendingRequest := None)])
      && PendingOf(kept, sid) == reg.heap[r].pendingRequest
  {
    var heap := reg.heap[r := reg.heap[r].(authServiceToken := token)];
    var s := heap[r].(pendingRequest := None);
    assert heap[r := s] == reg.heap[r := s];
  }
}
