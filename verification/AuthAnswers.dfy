/** Which answer each call gets, and what an answer promises the client. */
module AuthAnswers {
  import opened Basics
  import opened PyText
  import opened Tokens
  import opened TokenStore
  import opened Sessions
  import opened AuthSpec
  import opened AuthRuns
  import opened AuthInvariant
  import opened AuthTheorems
  import opened AuthAgreement

  // ------------------------------------------------------- presented tokens

  /** Signed here and, by its own claims, in time. */
  predicate InTime(cfg: Config, token: string, now: int) {
    cfg.codec.decode(token).Decoded? && now < cfg.codec.decode(token).claims.expiresAt
  }

  predicate StoredLive(s: Records, token: string, now: int) {
    token in s && now < s[token].expiresAt
  }

  /** In time at the first reading, stored and live at the second, and of this instance. */
  predicate Usable(cfg: Config, s: Records, token: string, at: Reads) {
    InTime(cfg, token, at.check) && StoredLive(s, token, at.lookup) && s[token].instanceId == cfg.instanceId
  }

  /** The refusals a presented token gets before the policy is asked, the same from reconnect and refresh. */
  ghost predicate Refusals(cfg: Config, s: Records, token: string, at: Reads, reply: Reply) {
    var d := cfg.codec.decode(token);
    && (reply == Error(TokenExpired, true) <==> d.Decoded? && !InTime(cfg, token, at.check))
    && (reply == Error(TokenRevoked, false) <==> InTime(cfg, token, at.check) && !StoredLive(s, token, at.lookup))
    && (reply == Error(InstanceMismatch, false) <==>
          InTime(cfg, token, at.check) && StoredLive(s, token, at.lookup) && s[token].instanceId != cfg.instanceId)
  }

  /** A token refused as expired, revoked or foreign is not stored any more; nothing else leaves the store. */
  predicate DropsDead(s: Records, token: string, reply: Reply, post: Records) {
    && (reply.Error? && reply.code in {TokenExpired, TokenRevoked, InstanceMismatch} ==> post == s - {token})
    && (reply.Error? && reply.code !in {TokenExpired, TokenRevoked, InstanceMismatch} ==> post == s)
  }

  /** A refusal takes the un-acked request from the state, if any, registered for a dead token's session. */
  predicate LosesPending<R(==)>(cfg: Config, reg: Registry<R>, token: string, reply: Reply, r: R) {
    && (reply == Error(TokenExpired, true) || reply == Error(TokenRevoked, false))
    && cfg.codec.decode(token).Decoded?
    && var sid := cfg.codec.decode(token).claims.sessionId; sid in reg.bySession && reg.bySession[sid] == r
  }

  ghost predicate ForgetsOnly<R>(cfg: Config, reg: Registry<R>, token: string, reply: Reply, post: Registry<R>) {
    && post.(heap := reg.heap) == reg && post.heap.Keys == reg.heap.Keys
    && (forall r :: r in reg.heap ==>
          post.heap[r] == if LosesPending(cfg, reg, token, reply, r) then reg.heap[r].(pendingRequest := None)
                          else reg.heap[r])
  }

  lemma ForgetPendingOnly<R>(cfg: Config, reg: Registry<R>, token: string, reply: Reply)
    requires Keyed(reg)
    ensures ForgetsOnly(cfg, reg, token, reply, ForgetPending(cfg, reg, token, reply))
  {
  }

  /** Every answer of a reconnect, by the input that gets it; a refusal writes at most a pending request. */
  lemma ReconnectAnswersIff<R>(cfg: Config, bed: Bed<R>, spare: R, token: string, ws: string, at: Reads,
                               allow: bool, put: PutOutcome)
    requires Keyed(bed.reg)
    ensures var (post, reply) := Reconnect(cfg, bed, spare, token, ws, at, allow, put);
      var d, usable := cfg.codec.decode(token), Usable(cfg, bed.store, token, at);
      && (reply == Error(TokenInvalid, false) <==> token == "" || d.Invalid?)
      && (token != "" ==> Refusals(cfg, bed.store, token, at, reply))
      && (reply == Error(Forbidden, false) <==> token != "" && usable && !allow)
      && (reply == Raised <==> token != "" && (d.Escapes? || (usable && allow && put != Kept)))
      && (reply.ReconnectResult? <==> token != "" && usable && allow && put == Kept)
      && DropsDead(bed.store, token, reply, post.store)
      && (reply.Error? ==> ForgetsOnly(cfg, bed.reg, token, reply, post.reg))
      && (reply == Raised && d.Escapes? ==> post == bed)
  {
    DeadLeaves(cfg, bed.store, token, at);
    var p := Present(cfg, bed.store, token, at);
    if p.Refused? { ForgetPendingOnly(cfg, bed.reg, token, p.reply); }
    hide Bind, BoundRef, Mint, Rotated, RolledBack, ForgetPending;
  }

  lemma DeadLeaves(cfg: Config, s: Records, token: string, at: Reads)
    ensures var p := Present(cfg, s, token, at);
      && (p.Refused? ==> DropsDead(s, token, p.reply, p.store) && (p.reply.Raised? ==> p.store == s))
      && (p.Valid? ==> p.store == s)
  {
    if token !in s { assert s - {token} == s; }
  }

  /** Every answer of a refresh; a refusal leaves the registry as it was. */
  lemma RefreshAnswersIff<R>(cfg: Config, bed: Bed<R>, token: string, ws: Option<string>, at: Reads,
                             allow: bool, put: PutOutcome)
    requires Keyed(bed.reg)
    ensures var (post, reply) := Refresh(cfg, bed, token, ws, at, allow, put);
      var d, usable := cfg.codec.decode(token), Usable(cfg, bed.store, token, at);
      var own := usable && ws.Some? && ws.value in bed.reg.byWebsocket
        && bed.reg.heap[bed.reg.byWebsocket[ws.value]].sessionId == d.claims.sessionId;
      && (reply == Error(NotAuthenticated, true) <==> ws.None? || (usable && !(allow && own)))
      && (reply == Error(TokenInvalid, false) <==> ws.Some? && d.Invalid?)
      && (ws.Some? ==> Refusals(cfg, bed.store, token, at, reply))
      && (reply == Raised <==> ws.Some? && (d.Escapes? || (own && allow && put != Kept)))
      && (reply.AuthResult? <==> own && allow && put == Kept)
      && DropsDead(bed.store, token, reply, post.store)
      && (!reply.AuthResult? ==> post.reg == bed.reg)
      && (reply == Raised && d.Escapes? ==> post == bed)
  {
    DeadLeaves(cfg, bed.store, token, at);
    hide Mint, Rotated, RolledBack, WithToken;
  }

  /** Every answer of a login; a refusal changes nothing. */
  lemma LoginAnswersIff<R>(cfg: Config, bed: Bed<R>, spare: R, moniker: string, password: string, allow: bool,
                           found: Option<MemberInfo>, sid: string, ws: string, now: int, put: PutOutcome,
                           balance: Option<int>)
    requires Keyed(bed.reg)
    ensures var (post, reply) := Login(cfg, bed, spare, moniker, password, allow, found, sid, ws, now, put, balance);
      var given := Strip(moniker) != "" && password != "";
      && (reply == Error(MissingCredentials, false) <==> !given)
      && (reply == Error(Forbidden, false) <==> given && !allow)
      && (reply == Error(BadCredentials, false) <==> given && allow && found.None?)
      && (reply == Raised <==> given && allow && found.Some? && put != Kept)
      && (reply.AuthResult? <==> given && allow && found.Some? && put == Kept)
      && (reply.Error? ==> post == bed)
  {
    hide Bind, BoundRef, Mint, Persisted, Strip, WithToken, WithBalance, LoginArgs;
  }

  /** Every answer of a revocation, and which of them takes the token. */
  lemma RevokeAnswersIff(cfg: Config, s: Records, token: string, allow: bool)
    ensures var (post, reply) := Revoke(cfg, s, token, allow);
      var d := cfg.codec.decode(token);
      && (reply == Error(TokenInvalid, false) <==> token == "")
      && (reply == RevokeResult(false, Some(TokenInvalid), false) <==> token != "" && d.Invalid?)
      && (reply == Raised <==> token != "" && d.Escapes?)
      && (reply == RevokeResult(false, Some(Forbidden), false) <==> token != "" && d.Decoded? && !allow)
      && (reply == RevokeResult(true, None, false) <==> token != "" && d.Decoded? && allow && token in s)
      && (reply == RevokeResult(false, Some(TokenRevoked), true) <==> token != "" && d.Decoded? && allow && token !in s)
      && post == (if reply == RevokeResult(true, None, false) then s - {token} else s)
  {
  }

  // ----------------------------------------------------------- the validators

  /** Every verdict of gate.py's validator; the refusals of a signed token drop it. */
  lemma FamilyVerdictsIff(cfg: Config, s: Records, token: string, lookup: int, check: int)
    ensures var (post, v) := FamilyValidate(cfg, s, token, lookup, check);
      var t := Strip(token);
      var d := cfg.codec.decode(t);
      var live := t != "" && d.Decoded? && StoredLive(s, t, lookup);
      && (v == NoToken <==> t == "")
      && (v == Rejected(TokenInvalid, false) <==> t != "" && d.Invalid?)
      && (v == Escaped <==> t != "" && d.Escapes?)
      && (v == Rejected(TokenRevoked, false) <==> t != "" && d.Decoded? && !StoredLive(s, t, lookup))
      && (v == Rejected(InstanceMismatch, false) <==> live && s[t].instanceId != cfg.instanceId)
      && (v == Rejected(TokenExpired, true) <==> live && s[t].instanceId == cfg.instanceId && s[t].expiresAt <= check)
      && (v.Accepted? <==> live && s[t].instanceId == cfg.instanceId && check < s[t].expiresAt)
      && (v.Accepted? ==> v.claims == d.claims)
      && post == (if v.Rejected? && d.Decoded? then s - {t} else s)
  {
    if Strip(token) !in s { assert s - {Strip(token)} == s; }
    hide Strip;
  }

  /** Every verdict of message.py's validator. */
  lemma MessageVerdictsIff(cfg: Config, s: Records, token: string, check: int, lookup: int)
    ensures var (post, v) := MessageValidate(cfg, s, token, check, lookup);
      var t := Strip(token);
      var d := cfg.codec.decode(t);
      var live := t != "" && InTime(cfg, t, check) && StoredLive(s, t, lookup);
      && (v == NoToken <==> t == "")
      && (v == Rejected(TokenInvalid, false) <==> t != "" && d.Invalid?)
      && (v == Escaped <==> t != "" && d.Escapes?)
      && (v == Rejected(TokenExpired, true) <==> t != "" && d.Decoded? && !InTime(cfg, t, check))
      && (v == Rejected(TokenRevoked, false) <==> t != "" && InTime(cfg, t, check) && !StoredLive(s, t, lookup))
      && (v == Rejected(InstanceMismatch, false) <==> live && s[t].instanceId != cfg.instanceId)
      && (v.Accepted? <==> live && s[t].instanceId == cfg.instanceId)
      && (v.Accepted? ==> v.claims == d.claims)
      && post == (if v.Rejected? && d.Decoded? then s - {t} else s)
  {
    if Strip(token) !in s { assert s - {Strip(token)} == s; }
    hide Strip;
  }

  // ------------------------------------------------------------------ access

  /** The token a gate goes by: the message's, or the session's own when the message carries none. */
  function GateToken(reg: Registry<nat>, ws: Option<string>, token: string): string
    requires Keyed(reg)
  {
    if ws.None? then ""
    else if Strip(token) != "" || ws.value !in reg.byWebsocket then token
    else
      var own := reg.heap[reg.byWebsocket[ws.value]].authServiceToken;
      if own.Some? then own.value else ""
  }

  lemma BlankIsNoToken(gate: Gate, cfg: Config, s: Records, token: string, first: int, second: int)
    ensures Strip("") == ""
    ensures Validate(gate, cfg, s, token, first, second).1 == NoToken <==> Strip(token) == ""
    ensures Strip(token) == "" ==> Validate(gate, cfg, s, token, first, second) == (s, NoToken)
  {
    hide Live, AfterGet, Removed;
  }

  /** Without a token a call is let in exactly on a socket that has a session, and acts as that session. */
  lemma BareAccessIff(gate: Gate, cfg: Config, bed: Bed<nat>, spare: nat, ws: Option<string>, token: string,
                      first: int, second: int)
    requires Keyed(bed.reg) && Strip(GateToken(bed.reg, ws, token)) == ""
    ensures CheckAccess(gate, cfg, bed, spare, ws, token, first, second)
      == (bed, if ws.Some? && ws.value in bed.reg.byWebsocket then Granted(bed.reg.byWebsocket[ws.value], None)
               else Denied(Rejected(NotAuthenticated, true)))
  {
    BlankIsNoToken(gate, cfg, bed.store, token, first, second);
    BlankIsNoToken(gate, cfg, bed.store, GateToken(bed.reg, ws, token), first, second);
    hide Validate, LazyBind, Strip, Keyed;
  }

  /** With one, the gate's validator decides; a socket with a session keeps it. */
  lemma BoundAccess(gate: Gate, cfg: Config, bed: Bed<nat>, spare: nat, ws: string, token: string,
                    first: int, second: int)
    requires Keyed(bed.reg) && ws in bed.reg.byWebsocket && Strip(GateToken(bed.reg, Some(ws), token)) != ""
    ensures var (s, v) := Validate(gate, cfg, bed.store, GateToken(bed.reg, Some(ws), token), first, second);
      CheckAccess(gate, cfg, bed, spare, Some(ws), token, first, second)
        == (bed.(store := s), if v.Accepted? then Granted(bed.reg.byWebsocket[ws], Some(v.claims)) else Denied(v))
  {
    BlankIsNoToken(gate, cfg, bed.store, token, first, second);
    BlankIsNoToken(gate, cfg, bed.store, GateToken(bed.reg, Some(ws), token), first, second);
    hide Validate, LazyBind, Strip, Keyed;
  }

  lemma FreshAccess(gate: Gate, cfg: Config, bed: Bed<nat>, spare: nat, ws: string, token: string,
                    first: int, second: int)
    requires Keyed(bed.reg) && ws !in bed.reg.byWebsocket && Strip(token) != ""
    ensures var (s, v) := Validate(gate, cfg, bed.store, token, first, second);
      CheckAccess(gate, cfg, bed, spare, Some(ws), token, first, second)
        == if !v.Accepted? then (bed.(store := s), Denied(v))
           else if Strip(v.claims.sessionId) == "" then (bed.(store := s), Denied(Rejected(NotAuthenticated, true)))
           else LazyBind(bed.(store := s), spare, v.claims, ws, token)
  {
    BlankIsNoToken(gate, cfg, bed.store, token, first, second);
    hide Validate, LazyArgs, Bind, BoundRef, Strip, Keyed;
  }

  /** A stored token is one of this instance, filed with the claims it is signed with. */
  lemma StoredIsOurs(cfg: Config, w: World, t: string)
    requires Inv(cfg, w) && t in w.bed.store
    ensures t != "" && Strip(t) == t && cfg.codec.decode(t) == Decoded(w.bed.store[t].claims)
    ensures var rec := w.bed.store[t];
      && rec.instanceId == cfg.instanceId && rec.claims.expiresAt == rec.expiresAt
      && rec.claims.sessionId == rec.sessionId && rec.sessionId != "" && Strip(rec.sessionId) == rec.sessionId
      && Identity(rec.claims.moniker, rec.claims.isSysop, rec.claims.loginid) == IdentityOf(rec)
  {
    ReachableIsMirrored(cfg, w);
    AcceptsStored(FamilyGate, cfg, w, t, w.bed.store[t].expiresAt - 1);
    assert Genuine(cfg, w.members, t, w.bed.store[t]);
    assert w.bed.store[t].sessionId in w.members;
    hide StoreInv, MintedInv, RegInv, Validate, Strip, Mirrored;
  }

  /**
    Who a gate lets in, in every reachable state. With a token to go by: exactly if that token is
    stored and live at the gate's last reading, and then with its record's claims; otherwise with
    that token's own refusal. Without one: exactly if the socket has a session, and then without claims.
   */
  lemma AccessIff(cfg: Config, w: World, a: Action)
    requires Inv(cfg, w) && Enabled(w, a) && a.DoGate?
    ensures Keyed(w.bed.reg)
    ensures var s, given, access := w.bed.store, GateToken(w.bed.reg, a.ws, a.token), Step(cfg, w, a).1.access;
      var t, bound := Strip(given), a.ws.Some? && a.ws.value in w.bed.reg.byWebsocket;
      if t == "" then
        && (access.Granted? <==> bound)
        && (bound ==> access == Granted(w.bed.reg.byWebsocket[a.ws.value], None))
        && (!bound ==> access == Denied(Rejected(NotAuthenticated, true)))
      else
        && (access.Granted? <==> StoredLive(s, t, a.second) && s[t].instanceId == cfg.instanceId)
        && (access.Granted? ==> access.claims == Some(s[t].claims))
        && (access.Denied? ==> access == Denied(Validate(a.gate, cfg, s, given, a.first, a.second).1))
  {
    InvKeyed(cfg, w);
    var given := GateToken(w.bed.reg, a.ws, a.token);
    var t, v := Strip(given), Validate(a.gate, cfg, w.bed.store, given, a.first, a.second).1;
    if t == "" {
      BareAccessIff(a.gate, cfg, w.bed, a.spare, a.ws, a.token, a.first, a.second);
    } else {
      ReachableIsMirrored(cfg, w);
      AcceptedMeansLive(a.gate, cfg, w.bed.store, given, a.first, a.second);
      if v.Accepted? {
        AcceptedIsStored(a.gate, cfg, w.members, w.minted, w.lastMint, w.bed.store, given, a.first, a.second);
      }
      if t in w.bed.store { StoredIsOurs(cfg, w, t); }
      if a.ws.value in w.bed.reg.byWebsocket {
        BoundAccess(a.gate, cfg, w.bed, a.spare, a.ws.value, a.token, a.first, a.second);
      } else {
        FreshAccess(a.gate, cfg, w.bed, a.spare, a.ws.value, a.token, a.first, a.second);
      }
    }
    hide CheckAccess, Validate, LazyArgs, Bind, BoundRef, Strip, Inv, Keyed, Mirrored;
  }

  /** What the call acts as, and what it leaves. */
  lemma AccessLeaves(cfg: Config, w: World, a: Action)
    requires Inv(cfg, w) && Enabled(w, a) && a.DoGate?
    ensures Keyed(w.bed.reg)
    ensures var reg, post, access := w.bed.reg, Next(cfg, w, a).bed, Step(cfg, w, a).1.access;
      var given := GateToken(reg, a.ws, a.token);
      && post.store == Validate(a.gate, cfg, w.bed.store, given, a.first, a.second).0
      && (access.Granted? ==> post.store == w.bed.store && a.ws.Some?)
      && (access.Denied? || a.ws.value in reg.byWebsocket ==> post.reg == reg)
      && (access.Granted? ==>
            && a.ws.value in post.reg.byWebsocket && post.reg.byWebsocket[a.ws.value] == access.state
            && access.state in post.reg.heap
            && (a.ws.value !in reg.byWebsocket ==>
                  var s, t := post.reg.heap[access.state], Strip(a.token);
                  && t in w.bed.store && s.authServiceToken == Some(t)
                  && s.sessionId == w.bed.store[t].sessionId && StateIdentity(s) == IdentityOf(w.bed.store[t])))
  {
    InvKeyed(cfg, w);
    var given := GateToken(w.bed.reg, a.ws, a.token);
    var t, v := Strip(given), Validate(a.gate, cfg, w.bed.store, given, a.first, a.second).1;
    BlankIsNoToken(a.gate, cfg, w.bed.store, given, a.first, a.second);
    if t == "" {
      BareAccessIff(a.gate, cfg, w.bed, a.spare, a.ws, a.token, a.first, a.second);
    } else {
      if v.Accepted? {
        AcceptedIsStored(a.gate, cfg, w.members, w.minted, w.lastMint, w.bed.store, given, a.first, a.second);
        StoredIsOurs(cfg, w, t);
        LazyArgsAreReconnectArgs(cfg, w, t, a.ws.value);
        BoundByBind(cfg, w, a.spare, a.ws.value, t);
      }
      if a.ws.value in w.bed.reg.byWebsocket {
        BoundAccess(a.gate, cfg, w.bed, a.spare, a.ws.value, a.token, a.first, a.second);
      } else {
        FreshAccess(a.gate, cfg, w.bed, a.spare, a.ws.value, a.token, a.first, a.second);
      }
    }
    hide CheckAccess, Validate, LazyArgs, ReconnectArgs, Bind, BoundRef, Strip, Inv, Keyed;
  }

  // ------------------------------------------------- when a rotation succeeds

  /** In a reachable state a token is usable exactly if it is stored and live. */
  lemma UsableIff(cfg: Config, w: World, token: string, at: Reads)
    requires Inv(cfg, w) && at.check <= at.lookup
    ensures Usable(cfg, w.bed.store, token, at) <==> StoredLive(w.bed.store, token, at.lookup)
    ensures token == "" ==> token !in w.bed.store
  {
    if token in w.bed.store { StoredIsOurs(cfg, w, token); }
    hide Inv, Strip;
  }

  lemma ReconnectSucceedsIff(cfg: Config, w: World, a: Action)
    requires Inv(cfg, w) && Enabled(w, a) && a.DoReconnect?
    ensures Step(cfg, w, a).1.reply.ReconnectResult?
       <==> StoredLive(w.bed.store, a.token, a.at.lookup) && a.allow && a.put == Kept
  {
    InvKeyed(cfg, w);
    UsableIff(cfg, w, a.token, a.at);
    ReconnectAnswersIff(cfg, w.bed, a.spare, a.token, a.socket, a.at, a.allow, a.put);
    hide Inv, Reconnect, Usable, Refusals, DropsDead, ForgetsOnly;
  }

  /** A refresh also has to come from the socket of the token's session. */
  lemma RefreshSucceedsIff(cfg: Config, w: World, a: Action)
    requires Inv(cfg, w) && Enabled(w, a) && a.DoRefresh?
    ensures Keyed(w.bed.reg)
    ensures var s, reg := w.bed.store, w.bed.reg;
      Step(cfg, w, a).1.reply.AuthResult? <==>
        && a.ws.Some? && StoredLive(s, a.token, a.at.lookup) && a.allow && a.put == Kept
        && a.ws.value in reg.byWebsocket && reg.heap[reg.byWebsocket[a.ws.value]].sessionId == s[a.token].sessionId
  {
    InvKeyed(cfg, w);
    UsableIff(cfg, w, a.token, a.at);
    if a.token in w.bed.store { StoredIsOurs(cfg, w, a.token); }
    RefreshAnswersIff(cfg, w.bed, a.token, a.ws, a.at, a.allow, a.put);
    hide Inv, Refresh, Usable, Refusals, DropsDead;
  }

  // -------------------------------------------------- what an answer promises

  /** The token is signed for this member, session and socket, at this reading, and for the configured time. */
  ghost predicate SignedFor(cfg: Config, token: string, who: Identity, sid: string, ws: string, now: int) {
    cfg.codec.decode(token)
      == Decoded(Claims(who.moniker, now, now + cfg.ttl, sid, who.isSysop, cfg.instanceId, ws, who.loginid))
  }

  /** The record filed under the token says what the answer says. */
  ghost predicate FiledAs(s: Records, reply: Reply)
    requires reply.AuthResult? || reply.ReconnectResult?
  {
    && reply.token in s
    && var rec := s[reply.token];
       IdentityOf(rec) == reply.who && rec.sessionId == reply.sessionId && rec.expiresAt == reply.expiresAt
  }

  /**
    A login answers with a stored token for the member it found, and the session it registers
    carries that token, on that socket, with nothing pending.
   */
  lemma LoginPromise(cfg: Config, w: World, a: Action)
    requires Inv(cfg, w) && Enabled(w, a) && a.DoLogin? && Step(cfg, w, a).1.reply.AuthResult?
    ensures var reply, post := Step(cfg, w, a).1.reply, Next(cfg, w, a).bed;
      && a.found.Some? && reply.who == a.found.value.who && reply.sessionId == a.sid
      && reply.expiresAt == a.now + cfg.ttl && SignedFor(cfg, reply.token, reply.who, a.sid, a.socket, a.now)
      && FiledAs(post.store, reply) && post.store - {reply.token} == w.bed.store
      && Keyed(post.reg) && a.sid in post.reg.bySession
      && a.socket in post.reg.byWebsocket && post.reg.byWebsocket[a.socket] == post.reg.bySession[a.sid]
      && var s := StateOf(post.reg, a.sid);
         && s.authServiceToken == Some(reply.token) && s.websocketId == a.socket && StateIdentity(s) == reply.who
         && s.balance == (if a.balance.Some? then a.balance else a.found.value.balance)
         && s.pendingRequest == None && s.requestIdCounter == 0 && s.tableMoniker == None && s.spectatorOf == {}
  {
    LoginReplies(cfg, w, a);
    LoginSets(cfg, w, a);
    InvNext(cfg, w, a);
    InvKeyed(cfg, w);
    InvKeyed(cfg, Next(cfg, w, a));
    UnknownSession(cfg, w, a.sid);
    var args := LoginArgs(a.found.value, a.sid, a.socket);
    BindSessions(w.bed.reg, a.spare, args);
    BindFields(w.bed.reg, a.spare, args);
    BindSockets(w.bed.reg, a.spare, args);
    hide Bind, BoundRef, Inv, Step, Next, MintOf, Enabled, Updated, NewSession, Mint;
  }

  lemma UnknownSession(cfg: Config, w: World, sid: string)
    requires Inv(cfg, w) && sid !in w.members
    ensures sid !in w.bed.reg.bySession && forall t :: t in w.bed.store ==> w.bed.store[t].sessionId != sid
  {
  }

  lemma LoginReplies(cfg: Config, w: World, a: Action)
    requires Inv(cfg, w) && Enabled(w, a) && a.DoLogin? && Step(cfg, w, a).1.reply.AuthResult?
    ensures a.found.Some? && a.put == Kept && MintOf(cfg, w, a).Some?
    ensures var reply, rec := Step(cfg, w, a).1.reply, MintOf(cfg, w, a).value;
      && reply.who == a.found.value.who && reply.sessionId == a.sid && reply.token == rec.token
      && reply.expiresAt == a.now + cfg.ttl && SignedFor(cfg, reply.token, reply.who, a.sid, a.socket, a.now)
      && var post := Stored(w.bed.store, rec); FiledAs(post, reply) && post - {reply.token} == w.bed.store
  {
    NewToken(cfg, w, a);
    hide Inv, Step, MintOf, Enabled, SignedFor, Mint, IdentityOf, Good, Keyed, Stored;
    InvKeyed(cfg, w);
    InvGood(cfg, w);
    LoginSays(cfg, w, a);
    MintSays(cfg, a.found.value.who, a.sid, a.socket, a.now);
    StoredAnew(w.bed.store, MintOf(cfg, w, a).value);
  }

  lemma NewToken(cfg: Config, w: World, a: Action)
    requires Inv(cfg, w) && Enabled(w, a) && a.DoLogin? && a.found.Some?
    ensures Mint(cfg, a.found.value.who, a.sid, a.socket, a.now).token !in w.bed.store
  {
    hide Inv, Mint, SignedFor, IdentityOf, Strip;
    InvGood(cfg, w);
    UnknownSession(cfg, w, a.sid);
    var token := Mint(cfg, a.found.value.who, a.sid, a.socket, a.now).token;
    MintSays(cfg, a.found.value.who, a.sid, a.socket, a.now);
    SignedSession(cfg, token, a.found.value.who, a.sid, a.socket, a.now);
    if token in w.bed.store { StoredIsOurs(cfg, w, token); }
  }

  lemma SignedSession(cfg: Config, token: string, who: Identity, sid: string, ws: string, now: int)
    requires SignedFor(cfg, token, who, sid, ws, now)
    ensures cfg.codec.decode(token).Decoded? && cfg.codec.decode(token).claims.sessionId == sid
  {
  }

  lemma StoredAnew(s: Records, rec: TokenRecord)
    requires rec.token !in s
    ensures rec.token in Stored(s, rec) && Stored(s, rec)[rec.token] == rec && Stored(s, rec) - {rec.token} == s
  {
  }

  lemma InvGood(cfg: Config, w: World)
    requires Inv(cfg, w)
    ensures Good(cfg)
  {
  }

  lemma LoginSays(cfg: Config, w: World, a: Action)
    requires Keyed(w.bed.reg) && Enabled(w, a) && a.DoLogin? && Step(cfg, w, a).1.reply.AuthResult?
    ensures a.found.Some? && a.put == Kept
    ensures var rec, reply := Mint(cfg, a.found.value.who, a.sid, a.socket, a.now), Step(cfg, w, a).1.reply;
      && MintOf(cfg, w, a) == Some(rec)
      && reply.who == a.found.value.who && reply.sessionId == a.sid && reply.token == rec.token
      && reply.expiresAt == rec.expiresAt
  {
    hide Bind, BoundRef, Strip, WithBalance, WithToken, LoginArgs, Mint, Keyed, Persisted;
  }

  /** What a successful reconnect or refresh answers with, and what it leaves in the store. */
  ghost predicate Swapped(cfg: Config, s: Records, token: string, ws: string, now: int, reply: Reply, post: Records)
    requires reply.AuthResult? || reply.ReconnectResult?
  {
    && token in s && reply.who == IdentityOf(s[token]) && reply.sessionId == s[token].sessionId
    && reply.expiresAt == now + cfg.ttl && SignedFor(cfg, reply.token, reply.who, reply.sessionId, ws, now)
    && (reply.token == token <==> now == s[token].issuedAt && ws == s[token].websocketId)
    && token !in post && (reply.token != token ==> FiledAs(post, reply))
    && post - {reply.token} == s - {token}
  }

  lemma RotationSwapped(cfg: Config, w: World, a: Action, ws: string)
    requires Inv(cfg, w) && Enabled(w, a) && (a.DoReconnect? || a.DoRefresh?)
    requires a.DoReconnect? ==> a.socket == ws
    requires a.DoRefresh? ==> a.ws == Some(ws)
    requires Step(cfg, w, a).1.reply.AuthResult? || Step(cfg, w, a).1.reply.ReconnectResult?
    ensures MintOf(cfg, w, a).Some? && a.put == Kept
    ensures Step(cfg, w, a).1.reply.token == MintOf(cfg, w, a).value.token
    ensures Swapped(cfg, w.bed.store, TokenOf(a), ws, a.at.mint, Step(cfg, w, a).1.reply, Step(cfg, w, a).0.store)
  {
    SucceedsIffMints(cfg, w, a);
    RotationReplies(cfg, w, a, ws);
    RotatedTokenIff(cfg, w, a);
    RotationSwapsTokens(cfg, w, a);
    hide *;
    SwapIsSwapped(cfg, w.bed.store, TokenOf(a), MintOf(cfg, w, a).value, ws, a.at.mint, Step(cfg, w, a).1.reply,
      Step(cfg, w, a).0.store);
  }

  lemma SwapIsSwapped(cfg: Config, s: Records, token: string, rec: TokenRecord, ws: string, now: int, reply: Reply,
                      post: Records)
    requires reply.AuthResult? || reply.ReconnectResult?
    requires token in s && reply.who == IdentityOf(s[token]) == IdentityOf(rec)
    requires reply.sessionId == s[token].sessionId == rec.sessionId && reply.token == rec.token
    requires reply.expiresAt == now + cfg.ttl == rec.expiresAt && rec.issuedAt == now && rec.websocketId == ws
    requires SignedFor(cfg, reply.token, reply.who, reply.sessionId, ws, now)
    requires rec.token == token <==> now == s[token].issuedAt && ws == s[token].websocketId
    requires if rec.token == token then post == s - {token}
      else post == (s - {token})[rec.token := rec] && rec.token !in s
    ensures Swapped(cfg, s, token, ws, now, reply, post)
  {
    var base := s - {token};
    if rec.token == token {
      assert base - {token} == base;
    } else {
      assert base[rec.token := rec] - {rec.token} == base;
    }
    hide SignedFor, IdentityOf;
  }

  lemma RotationReplies(cfg: Config, w: World, a: Action, ws: string)
    requires Inv(cfg, w) && Enabled(w, a) && (a.DoReconnect? || a.DoRefresh?)
    requires a.DoReconnect? ==> a.socket == ws
    requires a.DoRefresh? ==> a.ws == Some(ws)
    requires MintOf(cfg, w, a).Some? && a.put == Kept
    requires Step(cfg, w, a).1.reply.AuthResult? || Step(cfg, w, a).1.reply.ReconnectResult?
    ensures var reply, rec, s, token := Step(cfg, w, a).1.reply, MintOf(cfg, w, a).value, w.bed.store, TokenOf(a);
      && token in s && reply.who == IdentityOf(s[token]) == IdentityOf(rec)
      && reply.sessionId == s[token].sessionId == rec.sessionId && reply.token == rec.token
      && reply.expiresAt == a.at.mint + cfg.ttl == rec.expiresAt
      && rec.issuedAt == a.at.mint && rec.websocketId == ws
      && SignedFor(cfg, reply.token, reply.who, reply.sessionId, ws, a.at.mint)
  {
    hide Inv, Step, MintOf, Enabled, Mint, SignedFor, IdentityOf, Good, Keyed;
    InvKeyed(cfg, w);
    InvGood(cfg, w);
    if a.DoReconnect? { ReconnectSays(cfg, w, a); } else { RefreshSays(cfg, w, a); }
    var presented := w.bed.store[TokenOf(a)];
    MintSays(cfg, IdentityOf(presented), presented.sessionId, ws, a.at.mint);
  }

  lemma MintSays(cfg: Config, who: Identity, sid: string, ws: string, now: int)
    requires Good(cfg)
    ensures var rec := Mint(cfg, who, sid, ws, now);
      && SignedFor(cfg, rec.token, who, sid, ws, now) && IdentityOf(rec) == who && rec.sessionId == sid
      && rec.issuedAt == now && rec.expiresAt == now + cfg.ttl && rec.websocketId == ws
  {
    var rec := Mint(cfg, who, sid, ws, now);
    assert cfg.codec.decode(cfg.codec.encode(rec.claims)) == Decoded(rec.claims);
  }

  lemma ReconnectSays(cfg: Config, w: World, a: Action)
    requires Keyed(w.bed.reg) && Enabled(w, a) && a.DoReconnect? && MintOf(cfg, w, a).Some? && a.put == Kept
    ensures a.token in w.bed.store
    ensures var presented, rec, reply := w.bed.store[a.token], MintOf(cfg, w, a).value, Step(cfg, w, a).1.reply;
      && rec == Mint(cfg, IdentityOf(presented), presented.sessionId, a.socket, a.at.mint)
      && reply.ReconnectResult? && reply.who == IdentityOf(presented) && reply.sessionId == presented.sessionId
      && reply.token == rec.token && reply.expiresAt == rec.expiresAt
  {
    PresentedIsStored(cfg, w.bed.store, a.token, a.at);
    hide Bind, BoundRef, Present, Rotated, ForgetPending, Mint, IdentityOf, Keyed;
  }

  lemma RefreshSays(cfg: Config, w: World, a: Action)
    requires Keyed(w.bed.reg) && Enabled(w, a) && a.DoRefresh? && MintOf(cfg, w, a).Some? && a.put == Kept
    ensures a.token in w.bed.store && a.ws.Some?
    ensures var presented, rec, reply := w.bed.store[a.token], MintOf(cfg, w, a).value, Step(cfg, w, a).1.reply;
      && rec == Mint(cfg, IdentityOf(presented), presented.sessionId, a.ws.value, a.at.mint)
      && reply.AuthResult? && reply.who == IdentityOf(presented) && reply.sessionId == presented.sessionId
      && reply.token == rec.token && reply.expiresAt == rec.expiresAt
  {
    PresentedIsStored(cfg, w.bed.store, a.token, a.at);
    hide Present, Rotated, WithToken, Mint, IdentityOf;
  }

  lemma PresentedIsStored(cfg: Config, s: Records, token: string, at: Reads)
    ensures var p := Present(cfg, s, token, at); p.Valid? ==> token in s && p.rec == s[token]
  {
  }

  /**
    A successful reconnect: the session registered afterwards carries the answered token on the new
    socket, its un-acked request is handed over, and a session that was registered keeps its
    counter, balance, seat and tables.
   */
  lemma ReconnectPromise(cfg: Config, w: World, a: Action)
    requires Inv(cfg, w) && Enabled(w, a) && a.DoReconnect? && Step(cfg, w, a).1.reply.ReconnectResult?
    ensures var reply, post, reg := Step(cfg, w, a).1.reply, Next(cfg, w, a).bed, w.bed.reg;
      && Swapped(cfg, w.bed.store, a.token, a.socket, a.at.mint, reply, post.store)
      && Keyed(reg) && Keyed(post.reg) && reply.sessionId in post.reg.bySession
      && a.socket in post.reg.byWebsocket && post.reg.byWebsocket[a.socket] == post.reg.bySession[reply.sessionId]
      && var s := StateOf(post.reg, reply.sessionId);
         && s.authServiceToken == Some(reply.token) && s.websocketId == a.socket && StateIdentity(s) == reply.who
         && s.pendingRequest == None
         && (if reply.sessionId in reg.bySession then
               var before := StateOf(reg, reply.sessionId);
               && reply.replayed == before.pendingRequest
               && s.requestIdCounter == before.requestIdCounter && s.balance == before.balance
               && s.tableMoniker == before.tableMoniker && s.spectatorOf == before.spectatorOf
             else
               && reply.replayed == None && s.requestIdCounter == 0 && s.balance == None
               && s.tableMoniker == None && s.spectatorOf == {})
  {
    RotationSwapped(cfg, w, a, a.socket);
    ReconnectSets(cfg, w, a);
    ReconnectReplies(cfg, w, a);
    InvNext(cfg, w, a);
    InvKeyed(cfg, w);
    InvKeyed(cfg, Next(cfg, w, a));
    RotationReplies(cfg, w, a, a.socket);
    NextIdentity(cfg, w, a);
    var args := ReconnectArgs(Present(cfg, w.bed.store, a.token, a.at).rec, a.socket);
    BindSessions(w.bed.reg, a.spare, args);
    BindFields(w.bed.reg, a.spare, args);
    BindSockets(w.bed.reg, a.spare, args);
    assert args.balance.None? && args.tableMoniker.None? && args.spectatorOf.None? && args.websocketId == a.socket;
    hide Bind, BoundRef, Inv, Step, Next, MintOf, Enabled, Updated, NewSession, Mint, Present, Swapped, SignedFor,
      ReconnectArgs, IdentityOf;
  }

  /** Whoever is registered for the session of a successful rotation is the member the answer names. */
  lemma NextIdentity(cfg: Config, w: World, a: Action)
    requires Inv(cfg, w) && Enabled(w, a) && (a.DoReconnect? || a.DoRefresh?) && MintOf(cfg, w, a).Some?
    ensures var reg, rec := Next(cfg, w, a).bed.reg, MintOf(cfg, w, a).value;
      Keyed(reg) && (rec.sessionId in reg.bySession ==> StateIdentity(StateOf(reg, rec.sessionId)) == IdentityOf(rec))
  {
    InvNext(cfg, w, a);
    MintIsGenuine(cfg, w, a);
    hide Step, MintOf, Enabled, Next, StoreInv, MintedInv;
  }

  /** A successful refresh: the state the socket leads to carries the answered token, and nothing else is written. */
  lemma RefreshPromise(cfg: Config, w: World, a: Action)
    requires Inv(cfg, w) && Enabled(w, a) && a.DoRefresh? && Step(cfg, w, a).1.reply.AuthResult?
    ensures a.ws.Some? && a.ws.value in w.bed.reg.byWebsocket
    ensures var reply, post, reg := Step(cfg, w, a).1.reply, Next(cfg, w, a).bed, w.bed.reg;
      var r := reg.byWebsocket[a.ws.value];
      && Swapped(cfg, w.bed.store, a.token, a.ws.value, a.at.mint, reply, post.store)
      && r in reg.heap && reg.heap[r].sessionId == reply.sessionId
      && post.reg == reg.(heap := reg.heap[r := reg.heap[r].(authServiceToken := Some(reply.token))])
  {
    SucceedsIffMints(cfg, w, a);
    RefreshSets(cfg, w, a);
    RotationSwapped(cfg, w, a, a.ws.value);
    RotationReplies(cfg, w, a, a.ws.value);
    hide Inv, Step, MintOf, Enabled, Swapped, SignedFor, Mint;
  }
}
