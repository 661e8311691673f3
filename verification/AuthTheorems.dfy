/** What holds of tokens over every run of the daemon. */
module AuthTheorems {
  import opened Basics
  import opened PyText
  import opened Tokens
  import opened TokenStore
  import opened Sessions
  import opened AuthSpec
  import opened AuthRuns
  import opened AuthInvariant

  // ------------------------------------------------- tokens that left the store

  /** A mint repeats a token exactly when session, socket and clock reading repeat. */
  lemma MintRepeatsIff(cfg: Config, w: World, a: Action)
    requires Inv(cfg, w) && Enabled(w, a) && MintOf(cfg, w, a).Some?
    ensures var rec := MintOf(cfg, w, a).value;
      rec.token in w.minted <==>
        exists t :: t in w.minted && cfg.codec.decode(t).Decoded?
          && cfg.codec.decode(t).claims.sessionId == rec.sessionId
          && cfg.codec.decode(t).claims.websocketId == rec.websocketId
          && cfg.codec.decode(t).claims.issuedAt == rec.issuedAt
  {
    MintIsGenuine(cfg, w, a);
    hide Step, MintOf, Next, RegInv, StoreInv;
    var rec := MintOf(cfg, w, a).value;
    assert cfg.codec.decode(cfg.codec.encode(rec.claims)) == Decoded(rec.claims);
  }

  /** A token that is not stored opens nothing: no reconnect, no refresh, no gate. */
  lemma AbsentIsRefused(cfg: Config, s: Records, t: string, at: Reads)
    requires t !in s
    ensures Present(cfg, s, t, at).Refused?
    ensures forall gate, token, first, second :: Strip(token) == t ==>
      !Validate(gate, cfg, s, token, first, second).1.Accepted?
  {
  }

  /** Every token ever stored was minted, so the theorem covers every token that leaves. */
  lemma StoredWasMinted(cfg: Config, w: World, t: string)
    requires Inv(cfg, w) && t in w.bed.store
    ensures t in w.minted
  {
  }

  /**
    In a reachable state a revocation succeeds exactly when it is allowed and the token is stored;
    then the token is gone and every other record is kept. Any other outcome changes nothing.
   */
  lemma RevokeSucceedsIff(cfg: Config, w: World, a: Action)
    requires Inv(cfg, w) && Enabled(w, a) && a.DoRevoke?
    ensures var answer, post := Step(cfg, w, a).1, Next(cfg, w, a);
      && (answer == Replied(RevokeResult(true, None, false)) <==> a.allow && a.token in w.bed.store)
      && (answer == Replied(RevokeResult(true, None, false)) ==>
            post.bed.store == w.bed.store - {a.token} && a.token in post.minted)
      && (answer != Replied(RevokeResult(true, None, false)) ==> post.bed.store == w.bed.store)
      && post.bed.reg == w.bed.reg
  {
    if a.token in w.bed.store {
      AcceptsStored(FamilyGate, cfg, w, a.token, w.bed.store[a.token].expiresAt - 1);
      ReachableIsMirrored(cfg, w);
      StoredWasMinted(cfg, w, a.token);
    }
    hide Inv, Validate, Strip, Enabled;
    RevokeRemoves(cfg, w.bed.store, a.token, a.allow);
    hide Revoke;
  }

  lemma RevokeRemoves(cfg: Config, s: Records, token: string, allow: bool)
    requires token in s ==> token != "" && cfg.codec.decode(token).Decoded?
    ensures var (post, reply) := Revoke(cfg, s, token, allow);
      && (reply == RevokeResult(true, None, false) <==> allow && token in s)
      && post == if allow && token in s then s - {token} else s
  {
  }

  // ------------------------------------------------------------- rotation

  /** A reconnect or refresh succeeds exactly when it mints and the new record is kept. */
  lemma SucceedsIffMints(cfg: Config, w: World, a: Action)
    requires Inv(cfg, w) && Enabled(w, a) && (a.DoReconnect? || a.DoRefresh?)
    ensures var answer := Step(cfg, w, a).1;
      (answer.Replied? && (answer.reply.ReconnectResult? || answer.reply.AuthResult?))
        <==> MintOf(cfg, w, a).Some? && a.put == Kept
    ensures MintOf(cfg, w, a).Some? && a.put == Kept ==>
      Step(cfg, w, a).1.reply.token == MintOf(cfg, w, a).value.token
  {
    hide Bind, BoundRef, ForgetPending, StoreInv, MintedInv;
  }

  /** The rotated token is the presented one exactly when neither clock nor socket moved. */
  lemma RotatedTokenIff(cfg: Config, w: World, a: Action)
    requires Inv(cfg, w) && Enabled(w, a) && (a.DoReconnect? || a.DoRefresh?) && MintOf(cfg, w, a).Some?
    ensures var token, rec := TokenOf(a), MintOf(cfg, w, a).value;
      && token in w.bed.store
      && (rec.token == token <==>
            rec.issuedAt == w.bed.store[token].issuedAt && rec.websocketId == w.bed.store[token].websocketId)
      && (rec.token != token ==> rec.token !in w.bed.store)
  {
    StepStore(cfg, w, a);
    MintIsGenuine(cfg, w, a);
    var token, rec := TokenOf(a), MintOf(cfg, w, a).value;
    assert Genuine(cfg, w.members, token, w.bed.store[token]);
    EncodeInjective(cfg.codec, rec.claims, w.bed.store[token].claims);
    hide Step, MintOf, Next, RegInv, MintedInv;
    if rec.token in w.bed.store {
      assert Genuine(cfg, w.members, rec.token, w.bed.store[rec.token]);
      assert cfg.codec.decode(cfg.codec.encode(rec.claims)) == Decoded(rec.claims);
      var stored := w.bed.store[rec.token].claims;
      assert cfg.codec.decode(cfg.codec.encode(stored)) == Decoded(stored);
    }
  }

  /**
    A successful reconnect or refresh swaps the old token for the new one and changes nothing
    else in the store; when neither clock nor socket moved it removes the token it answers with.
   */
  lemma RotationSwapsTokens(cfg: Config, w: World, a: Action)
    requires Inv(cfg, w) && Enabled(w, a) && (a.DoReconnect? || a.DoRefresh?)
    requires MintOf(cfg, w, a).Some? && a.put == Kept
    ensures var s, post, token, rec := w.bed.store, Step(cfg, w, a).0.store, TokenOf(a), MintOf(cfg, w, a).value;
      && token in s
      && (if rec.issuedAt == s[token].issuedAt && rec.websocketId == s[token].websocketId
          then post == s - {token} && rec.token == token
          else post == (s - {token})[rec.token := rec] && rec.token !in s && token !in post && |post| == |s|)
  {
    StepStore(cfg, w, a);
    RotatedTokenIff(cfg, w, a);
    RotatesSwaps(w.bed.store, TokenOf(a), MintOf(cfg, w, a).value, a.put, Step(cfg, w, a).0.store);
    hide *;
  }

  lemma RotatesSwaps(s: Records, token: string, rec: TokenRecord, put: PutOutcome, post: Records)
    requires Rotates(s, token, rec, put, post)
    ensures put == Kept && rec.token == token ==> post == s - {token}
    ensures put == Kept && rec.token !in s ==>
      post == (s - {token})[rec.token := rec] && token !in post && |post| == |s|
    ensures put != Kept && rec.token == token ==> post != s && token !in post
    ensures put != Kept && rec.token !in s ==> post == s
  {
    if put == Kept && rec.token !in s {
      SwapKeepsSize(s, token, rec);
      assert post == (s - {token})[rec.token := rec];
    }
  }

  lemma SwapKeepsSize(s: Records, token: string, rec: TokenRecord)
    requires token in s && rec.token !in s
    ensures |(s - {token})[rec.token := rec]| == |s|
  {
    var base := s - {token};
    assert base.Keys == s.Keys - {token};
    assert base[rec.token := rec].Keys == base.Keys + {rec.token};
  }

  /**
    A rotation whose persist raises leaves the store as it was exactly when the clock or the
    socket moved; otherwise the rollback deletes the presented token.
   */
  lemma RollbackRestoresIff(cfg: Config, w: World, a: Action)
    requires Inv(cfg, w) && Enabled(w, a) && (a.DoReconnect? || a.DoRefresh?)
    requires MintOf(cfg, w, a).Some? && a.put != Kept
    ensures var s, post, token, rec := w.bed.store, Step(cfg, w, a).0.store, TokenOf(a), MintOf(cfg, w, a).value;
      && token in s
      && (post == s <==> rec.issuedAt != s[token].issuedAt || rec.websocketId != s[token].websocketId)
      && (token in post <==> rec.issuedAt != s[token].issuedAt || rec.websocketId != s[token].websocketId)
  {
    StepStore(cfg, w, a);
    RotatedTokenIff(cfg, w, a);
    RotatesSwaps(w.bed.store, TokenOf(a), MintOf(cfg, w, a).value, a.put, Step(cfg, w, a).0.store);
    hide *;
  }

  // ------------------------------------------------------------ the gates

  /** Each stored record says what its own token's signed claims say. */
  ghost predicate Mirrored(cfg: Config, s: Records) {
    forall t :: t in s ==>
      cfg.codec.decode(t) == Decoded(s[t].claims) && s[t].claims.expiresAt == s[t].expiresAt
  }

  lemma ReachableIsMirrored(cfg: Config, w: World)
    requires Inv(cfg, w)
    ensures Mirrored(cfg, w.bed.store)
  {
    forall t | t in w.bed.store
      ensures cfg.codec.decode(t) == Decoded(w.bed.store[t].claims)
      ensures w.bed.store[t].claims.expiresAt == w.bed.store[t].expiresAt
    {
      assert Genuine(cfg, w.members, t, w.bed.store[t]);
      assert cfg.codec.decode(cfg.codec.encode(w.bed.store[t].claims)) == Decoded(w.bed.store[t].claims);
    }
  }

  /**
    The two validators read at one clock value accept the same tokens with the same claims and
    leave the same store; their answers differ exactly on a decodable expired token, which one
    calls revoked and the other expired.
   */
  lemma GatesAgree(cfg: Config, s: Records, token: string, now: int)
    requires Mirrored(cfg, s)
    ensures var f, m := FamilyValidate(cfg, s, token, now, now), MessageValidate(cfg, s, token, now, now);
      && f.0 == m.0
      && (f.1.Accepted? <==> m.1.Accepted?)
      && (f.1 == m.1 <==> !(Strip(token) != "" && cfg.codec.decode(Strip(token)).Decoded?
                            && cfg.codec.decode(Strip(token)).claims.expiresAt <= now))
      && (f.1 != m.1 ==> f.1 == Rejected(TokenRevoked, false) && m.1 == Rejected(TokenExpired, true))
  {
    var t := Strip(token);
    if t !in s { assert Removed(s, t) == s; }
  }

  /** What an accepting gate has checked: the token is stored, live, and of this instance. */
  lemma AcceptedMeansLive(gate: Gate, cfg: Config, s: Records, token: string, first: int, second: int)
    requires Mirrored(cfg, s) && first <= second
    ensures var v := Validate(gate, cfg, s, token, first, second).1; var t := Strip(token);
      v.Accepted? <==>
        t != "" && t in s && second < s[t].expiresAt && s[t].instanceId == cfg.instanceId
  {
  }

  // ---------------------------------------------------------- who a token is

  /** A registered session and any stored token of it name the same member. */
  lemma IdentityAgreement(cfg: Config, w: World, sid: string, t: string)
    requires Inv(cfg, w) && sid in w.bed.reg.bySession && t in w.bed.store && w.bed.store[t].sessionId == sid
    ensures StateIdentity(StateOf(w.bed.reg, sid)) == IdentityOf(w.bed.store[t])
    ensures w.bed.store[t].claims.moniker == StateOf(w.bed.reg, sid).moniker
  {
    assert Genuine(cfg, w.members, t, w.bed.store[t]);
  }

  lemma LazyArgsAreReconnectArgs(cfg: Config, w: World, token: string, ws: string)
    requires Inv(cfg, w) && token in w.bed.store
    ensures LazyArgs(w.bed.reg, w.bed.store[token].claims, ws) == ReconnectArgs(w.bed.store[token], ws)
  {
    var rec := w.bed.store[token];
    assert Genuine(cfg, w.members, token, rec);
    assert rec.sessionId in w.members;
  }

  /** Both validators accept a stored, live token, and so does the check of reconnect. */
  lemma AcceptsStored(gate: Gate, cfg: Config, w: World, token: string, now: int)
    requires Inv(cfg, w) && token in w.bed.store && now < w.bed.store[token].expiresAt
    ensures Strip(token) == token
    ensures Validate(gate, cfg, w.bed.store, token, now, now) == (w.bed.store, Accepted(w.bed.store[token].claims))
    ensures token != "" && Strip(w.bed.store[token].claims.sessionId) == w.bed.store[token].sessionId != ""
  {
    var rec := w.bed.store[token];
    assert Genuine(cfg, w.members, token, rec);
    assert rec.sessionId in w.members;
    var t := cfg.codec.encode(rec.claims);
    assert cfg.codec.decode(t) == Decoded(rec.claims) && t != "" && Strip(t) == t;
    hide MintedInv, RegInv, Strip;
  }

  lemma PresentsStored(cfg: Config, w: World, token: string, at: Reads)
    requires Inv(cfg, w) && token in w.bed.store
    requires at.check < w.bed.store[token].expiresAt && at.lookup < w.bed.store[token].expiresAt
    ensures Present(cfg, w.bed.store, token, at) == Valid(w.bed.store, w.bed.store[token])
  {
    var rec := w.bed.store[token];
    assert Genuine(cfg, w.members, token, rec);
    assert cfg.codec.decode(cfg.codec.encode(rec.claims)) == Decoded(rec.claims);
    hide MintedInv, RegInv, Strip;
  }

  /** What a bind with a record's own identity leaves in the state it binds. */
  lemma BoundIdentity(reg: Registry<nat>, rec: TokenRecord, ws: string, members: map<string, Identity>)
    requires RegInv(members, reg) && rec.sessionId in members && members[rec.sessionId] == IdentityOf(rec)
    ensures var a := ReconnectArgs(rec, ws);
      var s := if a.sessionId in reg.bySession then Updated(StateOf(reg, a.sessionId), a) else NewSession(a);
      s.sessionId == rec.sessionId && StateIdentity(s) == IdentityOf(rec)
  {
  }

  /** The state a live token is bound to, by either route. */
  ghost predicate BoundBy(reg: Registry<nat>, r: nat, rec: TokenRecord, ws: string) {
    && r in reg.heap
    && reg.heap[r].sessionId == rec.sessionId && StateIdentity(reg.heap[r]) == IdentityOf(rec)
    && ws in reg.byWebsocket && reg.byWebsocket[ws] == r
  }

  lemma BoundByBind(cfg: Config, w: World, spare: nat, ws: string, token: string)
    requires Inv(cfg, w) && spare !in w.bed.reg.heap && token in w.bed.store
    ensures var args := ReconnectArgs(w.bed.store[token], ws);
      BoundBy(Bind(w.bed.reg, spare, args), BoundRef(w.bed.reg, spare, args), w.bed.store[token], ws)
  {
    var rec := w.bed.store[token];
    assert Genuine(cfg, w.members, token, rec);
    BindSessions(w.bed.reg, spare, ReconnectArgs(rec, ws));
    BindSockets(w.bed.reg, spare, ReconnectArgs(rec, ws));
    BoundIdentity(w.bed.reg, rec, ws, w.members);
    hide Bind, BoundRef, Inv, Updated, NewSession, StateIdentity;
  }

  lemma LazilyBound(cfg: Config, w: World, gate: Gate, spare: nat, ws: string, token: string, now: int)
    requires Inv(cfg, w) && spare !in w.bed.reg.heap && ws !in w.bed.reg.byWebsocket
    requires token in w.bed.store && now < w.bed.store[token].expiresAt
    ensures var rec := w.bed.store[token];
      var args := ReconnectArgs(rec, ws);
      var reg, r := Bind(w.bed.reg, spare, args), BoundRef(w.bed.reg, spare, args);
      && BoundBy(reg, r, rec, ws)
      && Resolve(gate, cfg, w.bed, spare, Some(ws), token, now, now)
           == (Bed(w.bed.store, WithToken(reg, r, Some(token))), Granted(r, Some(rec.claims)))
  {
    BoundByBind(cfg, w, spare, ws, token);
    AcceptsStored(gate, cfg, w, token, now);
    LazyArgsAreReconnectArgs(cfg, w, token, ws);
    hide Validate, Bind, BoundRef, LazyArgs, Inv, Strip;
  }

  lemma Reconnected(cfg: Config, w: World, spare: nat, ws: string, token: string, at: Reads)
    requires Inv(cfg, w) && spare !in w.bed.reg.heap && token != "" && token in w.bed.store
    requires at.check < w.bed.store[token].expiresAt && at.lookup < w.bed.store[token].expiresAt
    ensures var rec := w.bed.store[token];
      var args := ReconnectArgs(rec, ws);
      var reg, r := Bind(w.bed.reg, spare, args), BoundRef(w.bed.reg, spare, args);
      var rotated := Mint(cfg, IdentityOf(rec), rec.sessionId, ws, at.mint);
      var (moved, reply) := Reconnect(cfg, w.bed, spare, token, ws, at, true, Kept);
      && BoundBy(reg, r, rec, ws)
      && moved.store == Rotated(w.bed.store, token, rotated)
      && moved.reg == reg.(heap := reg.heap[r :=
           reg.heap[r].(authServiceToken := Some(rotated.token), pendingRequest := None)])
      && reply == ReconnectResult(IdentityOf(rec), rec.sessionId, rotated.token, rotated.expiresAt,
           reg.heap[r].pendingRequest)
  {
    BoundByBind(cfg, w, spare, ws, token);
    PresentsStored(cfg, w, token, at);
    hide Present, Bind, BoundRef, Inv, Mint;
  }

  /**
    Binding a fresh socket lazily from a live wire token registers the same state, under the same
    ids, with the same identity and the same indices as a reconnect with that token: only the
    state's token and its un-acked request differ.
   */
  lemma LazyBindIsReconnect(cfg: Config, w: World, gate: Gate, spare: nat, ws: string, token: string,
                            now: int, mint: int)
    requires Inv(cfg, w) && spare !in w.bed.reg.heap && ws !in w.bed.reg.byWebsocket
    requires token in w.bed.store && now < w.bed.store[token].expiresAt
    ensures var (lazy, access) := Resolve(gate, cfg, w.bed, spare, Some(ws), token, now, now);
      var (moved, reply) := Reconnect(cfg, w.bed, spare, token, ws, Reads(now, now, mint), true, Kept);
      && access.Granted? && reply.ReconnectResult?
      && var r := access.state;
         && r in lazy.reg.heap && r in moved.reg.heap
         && moved.reg == lazy.reg.(heap := lazy.reg.heap[r := moved.reg.heap[r]])
         && moved.reg.heap[r]
              == lazy.reg.heap[r].(authServiceToken := Some(reply.token), pendingRequest := None)
         && lazy.reg.heap[r].authServiceToken == Some(token)
         && lazy.reg.heap[r].sessionId == reply.sessionId == w.bed.store[token].sessionId
         && StateIdentity(lazy.reg.heap[r]) == reply.who
         && lazy.reg.byWebsocket[ws] == r
  {
    AcceptsStored(gate, cfg, w, token, now);
    LazilyBound(cfg, w, gate, spare, ws, token, now);
    Reconnected(cfg, w, spare, ws, token, Reads(now, now, mint));
    var rec := w.bed.store[token];
    var args := ReconnectArgs(rec, ws);
    SetTwice(Bind(w.bed.reg, spare, args), BoundRef(w.bed.reg, spare, args), token,
      Mint(cfg, IdentityOf(rec), rec.sessionId, ws, mint).token);
    hide Resolve, Reconnect, Validate, Strip, Bind, BoundRef, Inv, Mint, Rotated, ReconnectArgs, WithToken;
  }

  lemma SetTwice(reg: Registry<nat>, r: nat, token: string, token': string)
    requires r in reg.heap
    ensures var lazy := WithToken(reg, r, Some(token));
      var s := reg.heap[r].(authServiceToken := Some(token'), pendingRequest := None);
      && r in lazy.heap && lazy.heap[r] == reg.heap[r].(authServiceToken := Some(token))
      && lazy.byWebsocket == reg.byWebsocket
      && reg.(heap := reg.heap[r := s]) == lazy.(heap := lazy.heap[r := s])
  {
    var s := reg.heap[r].(authServiceToken := Some(token'), pendingRequest := None);
    assert WithToken(reg, r, Some(token)).heap[r := s] == reg.heap[r := s];
  }

  /** A reconnect with a stored token that has not expired mints. */
  lemma ReconnectMints(cfg: Config, w: World, a: Action)
    requires Inv(cfg, w) && Enabled(w, a) && a.DoReconnect? && a.allow
    requires a.token in w.bed.store && a.at.lookup < w.bed.store[a.token].expiresAt
    ensures var rec := w.bed.store[a.token];
      MintOf(cfg, w, a) == Some(Mint(cfg, IdentityOf(rec), rec.sessionId, a.socket, a.at.mint))
  {
    AcceptsStored(FamilyGate, cfg, w, a.token, a.at.lookup);
    PresentsStored(cfg, w, a.token, a.at);
    hide Inv, Present, Mint, Validate;
  }

  // ----------------------------------------------- what is handed out works

  /**
    The token a login, reconnect or refresh answers with is stored afterwards, with the record it
    was minted with, unless a rotation on an unmoved clock and socket minted the presented token again.
   */
  lemma HandedOutIff(cfg: Config, w: World, a: Action)
    requires Inv(cfg, w) && Enabled(w, a) && (a.DoLogin? || a.DoReconnect? || a.DoRefresh?)
    requires MintOf(cfg, w, a).Some? && a.put == Kept
    ensures var w', rec := Next(cfg, w, a), MintOf(cfg, w, a).value;
      && (rec.token in w'.bed.store <==> a.DoLogin? || rec.token != TokenOf(a))
      && (rec.token in w'.bed.store ==> w'.bed.store[rec.token] == rec)
      && rec.expiresAt == rec.issuedAt + cfg.ttl
  {
    StepStore(cfg, w, a);
    MintIsGenuine(cfg, w, a);
    KeptHas(w.bed.store, TokenOf(a), MintOf(cfg, w, a).value, Step(cfg, w, a).0.store);
    hide Inv, Step, MintOf, Enabled, Persisted, Rotates;
  }

  lemma KeptHas(s: Records, token: string, rec: TokenRecord, post: Records)
    ensures post == Persisted(s, rec, Kept) ==> rec.token in post && post[rec.token] == rec
    ensures Rotates(s, token, rec, Kept, post) ==>
      (rec.token in post <==> rec.token != token) && (rec.token in post ==> post[rec.token] == rec)
  {
  }
}
