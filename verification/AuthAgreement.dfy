/** When the token a session's state carries is the one that is stored. */
module AuthAgreement {
  import opened Basics
  import opened PyText
  import opened Tokens
  import opened TokenStore
  import opened Sessions
  import opened SessionInvariants
  import opened AuthSpec
  import opened AuthRuns
  import opened AuthInvariant
  import opened AuthTheorems
  import opened TokenLifetimes

  /** Any stored token of a registered session is the one its state carries. */
  ghost predicate TokensAgree(s: Records, reg: Registry<nat>) {
    && Keyed(reg)
    && (forall t :: t in s && s[t].sessionId in reg.bySession ==>
          StateOf(reg, s[t].sessionId).authServiceToken == Some(t))
  }

  /**
    The steps after which stored and carried tokens differ: a login whose store raises once it has
    the record; a reconnect of an unregistered session whose store raises; a refresh from a socket
    that leads to a state other than the registered one. The last two rotate only when clock or
    socket have moved.
   */
  ghost predicate Breaks(cfg: Config, w: World, a: Action) {
    var mint := MintOf(cfg, w, a);
    mint.Some? &&
    match a
    case DoLogin(_, _, _, _, _, _, _, _, put, _) => put == RaisedAfter
    case DoReconnect(_, _, _, _, _, put) =>
      put != Kept && Moved(w, a, mint.value) && mint.value.sessionId !in w.bed.reg.bySession
    case DoRefresh(_, ws, _, _, put) =>
      put == Kept && Moved(w, a, mint.value) && LeadsAstray(w.bed.reg, ws.value, mint.value.sessionId)
    case _ => false
  }

  /** The clock or the socket is not the one the presented token was minted at. */
  predicate Moved(w: World, a: Action, rec: TokenRecord) {
    TokenOf(a) in w.bed.store ==>
      var presented := w.bed.store[TokenOf(a)];
      rec.issuedAt != presented.issuedAt || rec.websocketId != presented.websocketId
  }

  /** The socket's state is not the one registered for the session. */
  predicate LeadsAstray(reg: Registry<nat>, ws: string, sid: string) {
    sid in reg.bySession && (ws !in reg.byWebsocket || reg.byWebsocket[ws] != reg.bySession[sid])
  }

  // ------------------------------------------------------- small steps

  lemma ShrinkAgrees(s: Records, post: Records, reg: Registry<nat>)
    requires TokensAgree(s, reg) && Shrinks(s, post)
    ensures TokensAgree(post, reg)
  {
  }

  lemma OtherRefsDiffer(reg: Registry<nat>, sid: string, r: nat)
    requires Keyed(reg) && sid in reg.bySession && reg.bySession[sid] == r
    ensures forall x :: x in reg.bySession && x != sid ==> reg.bySession[x] != r
  {
  }

  /** After a bind only the bound session's records matter: the bound state has to carry each of them. */
  lemma BindAgreesIff(s: Records, post: Records, reg: Registry<nat>, spare: nat, a: BindArgs, bound: Session)
    requires TokensAgree(s, reg) && spare !in reg.heap && bound.sessionId == a.sessionId
    requires forall t :: t in post && post[t].sessionId != a.sessionId ==> t in s && s[t] == post[t]
    ensures var reg', r := Bind(reg, spare, a), BoundRef(reg, spare, a);
      (TokensAgree(post, reg'.(heap := reg'.heap[r := bound])) <==>
        forall t :: t in post && post[t].sessionId == a.sessionId ==> bound.authServiceToken == Some(t))
  {
    BindSessions(reg, spare, a);
    hide Updated, NewSession, Bind, BoundRef;
    var reg', r := Bind(reg, spare, a), BoundRef(reg, spare, a);
    OtherRefsDiffer(reg', a.sessionId, r);
    var reg'' := reg'.(heap := reg'.heap[r := bound]);
    assert Keyed(reg'') && StateOf(reg'', a.sessionId) == bound;
  }

  /** The state a bind leaves, and the token it carries until it is given another. */
  lemma BoundState(reg: Registry<nat>, spare: nat, a: BindArgs)
    requires Keyed(reg) && spare !in reg.heap
    ensures var reg', r := Bind(reg, spare, a), BoundRef(reg, spare, a);
      && r in reg'.heap && reg'.heap[r].sessionId == a.sessionId
      && reg'.heap[r].authServiceToken
           == (if a.sessionId in reg.bySession then StateOf(reg, a.sessionId).authServiceToken else None)
      && reg'.(heap := reg'.heap[r := reg'.heap[r]]) == reg'
  {
    BindSessions(reg, spare, a);
    hide Bind, BoundRef;
    var reg', r := Bind(reg, spare, a), BoundRef(reg, spare, a);
    assert reg'.heap[r := reg'.heap[r]] == reg'.heap;
  }

  /** Giving one state the session's only stored token restores agreement iff it is the registered one. */
  lemma TokenSetIff(s: Records, post: Records, reg: Registry<nat>, r: nat, sid: string, t: string, t': string)
    requires TokensAgree(s, reg) && r in reg.heap
    requires t in s && s[t].sessionId == sid && t' in post && post[t'].sessionId == sid && t' != t
    requires forall u :: u in post ==> if post[u].sessionId == sid then u == t' else u in s && s[u] == post[u]
    requires reg.heap[r].sessionId == sid
    ensures TokensAgree(post, WithToken(reg, r, Some(t')))
       <==> (sid in reg.bySession ==> reg.bySession[sid] == r)
  {
    var reg' := WithToken(reg, r, Some(t'));
    assert Keyed(reg');
    if sid in reg.bySession && reg.bySession[sid] != r {
      assert StateOf(reg', sid).authServiceToken == Some(t);
    }
  }

  /** With no record of the session left there is nothing for its states to agree with. */
  lemma TokenSetBare(s: Records, post: Records, reg: Registry<nat>, r: nat, token: Option<string>)
    requires TokensAgree(s, reg) && r in reg.heap && Shrinks(s, post)
    requires forall u :: u in post ==> post[u].sessionId != reg.heap[r].sessionId
    ensures TokensAgree(post, WithToken(reg, r, token))
  {
  }

  // ---------------------------------------------------------- each handler

  /** What a login does whose record is kept: bind, then set the bound state's token and perhaps its balance. */
  lemma LoginSets(cfg: Config, w: World, a: Action)
    requires Inv(cfg, w) && Enabled(w, a) && a.DoLogin? && MintOf(cfg, w, a).Some? && a.put == Kept
    ensures var args := LoginArgs(a.found.value, a.sid, a.socket);
      var reg, r, rec := Bind(w.bed.reg, a.spare, args), BoundRef(w.bed.reg, a.spare, args), MintOf(cfg, w, a).value;
      && r in reg.heap
      && Next(cfg, w, a).bed.store == Stored(w.bed.store, rec)
      && Next(cfg, w, a).bed.reg == reg.(heap := reg.heap[r := reg.heap[r].(authServiceToken := Some(rec.token),
           balance := if a.balance.Some? then a.balance else reg.heap[r].balance)])
  {
    var args := LoginArgs(a.found.value, a.sid, a.socket);
    BindSockets(w.bed.reg, a.spare, args);
    var reg, r := Bind(w.bed.reg, a.spare, args), BoundRef(w.bed.reg, a.spare, args);
    TokenThenBalance(reg, r, Some(MintOf(cfg, w, a).value.token), a.balance);
    hide Bind, BoundRef, Updated, NewSession, Stored, Mint, Displaced, Inv, WithToken, WithBalance;
  }

  lemma TokenThenBalance(reg: Registry<nat>, r: nat, token: Option<string>, balance: Option<int>)
    requires r in reg.heap
    ensures r in WithToken(reg, r, token).heap
    ensures (if balance.Some? then WithBalance(WithToken(reg, r, token), r, balance) else WithToken(reg, r, token))
         == reg.(heap := reg.heap[r := reg.heap[r].(authServiceToken := token,
              balance := if balance.Some? then balance else reg.heap[r].balance)])
  {
    var s := reg.heap[r].(authServiceToken := token);
    assert reg.heap[r := s][r := s.(balance := balance)] == reg.heap[r := s.(balance := balance)];
  }

  /** What a login does when storing raises: the session stays bound, without a token. */
  lemma LoginRaises(cfg: Config, w: World, a: Action)
    requires Inv(cfg, w) && Enabled(w, a) && a.DoLogin? && MintOf(cfg, w, a).Some? && a.put != Kept
    ensures var args := LoginArgs(a.found.value, a.sid, a.socket);
      var reg, r := Bind(w.bed.reg, a.spare, args), BoundRef(w.bed.reg, a.spare, args);
      && r in reg.heap
      && Next(cfg, w, a).bed.store == Persisted(w.bed.store, MintOf(cfg, w, a).value, a.put)
      && Next(cfg, w, a).bed.reg == reg.(heap := reg.heap[r := reg.heap[r].(authServiceToken := None)])
  {
    BindSockets(w.bed.reg, a.spare, LoginArgs(a.found.value, a.sid, a.socket));
    hide Bind, BoundRef, Persisted, Mint, Displaced, Inv;
  }

  /** A new session's only record is the one just stored. */
  lemma LoginLeaves(cfg: Config, w: World, a: Action)
    requires Inv(cfg, w) && Enabled(w, a) && a.DoLogin? && MintOf(cfg, w, a).Some?
    ensures var s, rec := w.bed.store, MintOf(cfg, w, a).value;
      var post := Persisted(s, rec, a.put);
      && (forall t :: t in post ==>
            if post[t].sessionId == a.sid then t == rec.token && a.put != RaisedBefore else t in s && s[t] == post[t])
      && (a.put != RaisedBefore ==> rec.token in post && post[rec.token].sessionId == a.sid)
  {
    FreshSession(cfg, w, a);
    hide Inv, MintOf, Enabled, Next;
  }

  lemma LoginAgreesIff(cfg: Config, w: World, a: Action)
    requires Inv(cfg, w) && Enabled(w, a) && TokensAgree(w.bed.store, w.bed.reg)
    requires a.DoLogin? && MintOf(cfg, w, a).Some?
    ensures TokensAgree(Next(cfg, w, a).bed.store, Next(cfg, w, a).bed.reg) <==> a.put != RaisedAfter
  {
    LoginLeaves(cfg, w, a);
    var args, rec := LoginArgs(a.found.value, a.sid, a.socket), MintOf(cfg, w, a).value;
    BoundState(w.bed.reg, a.spare, args);
    if a.put == Kept { LoginSets(cfg, w, a); } else { LoginRaises(cfg, w, a); }
    hide Bind, BoundRef, TokensAgree, Inv, Next, Step, MintOf, Enabled, Keyed, StateOf, Stored;
    var reg, r := Bind(w.bed.reg, a.spare, args), BoundRef(w.bed.reg, a.spare, args);
    var bound := if a.put != Kept then reg.heap[r].(authServiceToken := None)
      else reg.heap[r].(authServiceToken := Some(rec.token),
                        balance := if a.balance.Some? then a.balance else reg.heap[r].balance);
    BindAgreesIff(w.bed.store, Persisted(w.bed.store, rec, a.put), w.bed.reg, a.spare, args, bound);
  }

  /** What a reconnect does whose record is kept: bind, set the bound state's token, take its pending request. */
  lemma ReconnectSets(cfg: Config, w: World, a: Action)
    requires Inv(cfg, w) && Enabled(w, a) && a.DoReconnect? && MintOf(cfg, w, a).Some? && a.put == Kept
    ensures var rec := MintOf(cfg, w, a).value;
      var args := ReconnectArgs(Present(cfg, w.bed.store, a.token, a.at).rec, a.socket);
      var reg, r := Bind(w.bed.reg, a.spare, args), BoundRef(w.bed.reg, a.spare, args);
      && r in reg.heap && rec.sessionId == args.sessionId
      && Next(cfg, w, a).bed.reg
           == reg.(heap := reg.heap[r := reg.heap[r].(authServiceToken := Some(rec.token), pendingRequest := None)])
  {
    var args := ReconnectArgs(Present(cfg, w.bed.store, a.token, a.at).rec, a.socket);
    BindSockets(w.bed.reg, a.spare, args);
    hide Bind, BoundRef, StoreInv, MintedInv, Rotated, Present, Inv;
  }

  /** What a reconnect does when storing raises: bind, and nothing else in the registry. */
  lemma ReconnectRaises(cfg: Config, w: World, a: Action)
    requires Inv(cfg, w) && Enabled(w, a) && a.DoReconnect? && MintOf(cfg, w, a).Some? && a.put != Kept
    ensures var args := ReconnectArgs(Present(cfg, w.bed.store, a.token, a.at).rec, a.socket);
      && MintOf(cfg, w, a).value.sessionId == args.sessionId
      && Next(cfg, w, a).bed.reg == Bind(w.bed.reg, a.spare, args)
  {
    hide Bind, BoundRef, StoreInv, MintedInv, RolledBack, Present, Inv;
  }

  lemma ReconnectAgreesKept(cfg: Config, w: World, a: Action)
    requires Inv(cfg, w) && Enabled(w, a) && TokensAgree(w.bed.store, w.bed.reg)
    requires a.DoReconnect? && MintOf(cfg, w, a).Some? && a.put == Kept
    ensures TokensAgree(Next(cfg, w, a).bed.store, Next(cfg, w, a).bed.reg)
  {
    ReconnectSets(cfg, w, a);
    SwapLeavesOne(cfg, w, a);
    var args := ReconnectArgs(Present(cfg, w.bed.store, a.token, a.at).rec, a.socket);
    var rec := MintOf(cfg, w, a).value;
    BindSessions(w.bed.reg, a.spare, args);
    var reg, r := Bind(w.bed.reg, a.spare, args), BoundRef(w.bed.reg, a.spare, args);
    assert reg.heap[r].sessionId == args.sessionId;
    hide Updated, NewSession, Inv, Bind, BoundRef, TokensAgree, Present, Step, MintOf, Enabled;
    BindAgreesIff(w.bed.store, Step(cfg, w, a).0.store, w.bed.reg, a.spare, args,
      reg.heap[r].(authServiceToken := Some(rec.token), pendingRequest := None));
  }

  /** A rotation that raised leaves the session the presented token, or none if it was minted again. */
  lemma RollbackLeaves(cfg: Config, w: World, a: Action)
    requires Inv(cfg, w) && Enabled(w, a) && (a.DoReconnect? || a.DoRefresh?)
    requires MintOf(cfg, w, a).Some? && a.put != Kept
    ensures var s, post, token, rec := w.bed.store, Step(cfg, w, a).0.store, TokenOf(a), MintOf(cfg, w, a).value;
      && token in s && s[token].sessionId == rec.sessionId && Shrinks(s, post)
      && (token in post <==> Moved(w, a, rec))
      && (forall t :: t in post && post[t].sessionId == rec.sessionId ==> t == token)
  {
    RollbackRestoresIff(cfg, w, a);
    StepStore(cfg, w, a);
    RollbackShrinks(w.bed.store, TokenOf(a), MintOf(cfg, w, a).value, a.put, Step(cfg, w, a).0.store);
    OneEach(cfg, w, TokenOf(a));
    hide Inv, Step, MintOf, Enabled, Rotates;
  }

  lemma RollbackShrinks(s: Records, token: string, rec: TokenRecord, put: PutOutcome, post: Records)
    requires Rotates(s, token, rec, put, post) && put != Kept
    ensures Shrinks(s, post) && s[token].sessionId == rec.sessionId
  {
  }

  lemma ReconnectAgreesIff(cfg: Config, w: World, a: Action)
    requires Inv(cfg, w) && Enabled(w, a) && TokensAgree(w.bed.store, w.bed.reg)
    requires a.DoReconnect? && MintOf(cfg, w, a).Some? && a.put != Kept
    ensures TokensAgree(Next(cfg, w, a).bed.store, Next(cfg, w, a).bed.reg) <==> !Breaks(cfg, w, a)
  {
    ReconnectRaises(cfg, w, a);
    RollbackLeaves(cfg, w, a);
    var args := ReconnectArgs(Present(cfg, w.bed.store, a.token, a.at).rec, a.socket);
    BoundState(w.bed.reg, a.spare, args);
    assert args.sessionId in w.bed.reg.bySession ==>
      StateOf(w.bed.reg, args.sessionId).authServiceToken == Some(a.token);
    hide Inv, Bind, BoundRef, TokensAgree, Present, Step, MintOf, Enabled, Moved, Keyed, StateOf, Shrinks;
    var reg, r := Bind(w.bed.reg, a.spare, args), BoundRef(w.bed.reg, a.spare, args);
    BindAgreesIff(w.bed.store, Step(cfg, w, a).0.store, w.bed.reg, a.spare, args, reg.heap[r]);
  }

  /** After a successful rotation the only record of the session is the new token's. */
  lemma SwapLeavesOne(cfg: Config, w: World, a: Action)
    requires Inv(cfg, w) && Enabled(w, a) && (a.DoReconnect? || a.DoRefresh?)
    requires MintOf(cfg, w, a).Some? && a.put == Kept
    ensures var s, post, rec := w.bed.store, Step(cfg, w, a).0.store, MintOf(cfg, w, a).value;
      forall t :: t in post ==>
        if post[t].sessionId == rec.sessionId then t == rec.token else t in s && s[t] == post[t]
  {
    StepStore(cfg, w, a);
    RotationLeavesOne(cfg, w.members, w.minted, w.lastMint, w.bed.store, TokenOf(a), MintOf(cfg, w, a).value,
      Step(cfg, w, a).0.store);
    hide *;
  }

  lemma RotationLeavesOne(cfg: Config, members: map<string, Identity>, minted: set<string>, last: int,
                          s: Records, token: string, rec: TokenRecord, post: Records)
    requires StoreInv(cfg, members, minted, last, s) && Rotates(s, token, rec, Kept, post)
    ensures forall t :: t in post ==>
      if post[t].sessionId == rec.sessionId then t == rec.token else t in s && s[t] == post[t]
  {
    hide Genuine;
  }

  /** The claims of the presented token name the session of the record that is minted. */
  lemma PresentedNames(cfg: Config, w: World, a: Action)
    requires Inv(cfg, w) && Enabled(w, a) && a.DoRefresh? && MintOf(cfg, w, a).Some?
    ensures a.token in w.bed.store && w.bed.store[a.token].sessionId == MintOf(cfg, w, a).value.sessionId
    ensures cfg.codec.decode(a.token).Decoded?
    ensures cfg.codec.decode(a.token).claims.sessionId == MintOf(cfg, w, a).value.sessionId
  {
    MintsForLive(cfg, w, a);
    ReachableIsMirrored(cfg, w);
    assert Genuine(cfg, w.members, a.token, w.bed.store[a.token]);
    hide MintedInv, RegInv, MembersInv, MintOf, Enabled;
  }

  /** What a successful refresh does: the socket's live state gets the new token, and only the token. */
  lemma RefreshSets(cfg: Config, w: World, a: Action)
    requires Inv(cfg, w) && Enabled(w, a) && a.DoRefresh? && MintOf(cfg, w, a).Some? && a.put == Kept
    ensures var reg, rec := w.bed.reg, MintOf(cfg, w, a).value;
      && a.ws.Some? && a.ws.value in reg.byWebsocket
      && var r := reg.byWebsocket[a.ws.value];
         && r in reg.heap && reg.heap[r].sessionId == rec.sessionId
         && Next(cfg, w, a).bed.reg == WithToken(reg, r, Some(rec.token))
         && a.token in w.bed.store && w.bed.store[a.token].sessionId == rec.sessionId
  {
    InvKeyed(cfg, w);
    hide Inv, Rotated, WithToken, Mint;
    PresentedNames(cfg, w, a);
    hide Present, Enabled;
  }

  /**
    A refresh keeps stored and carried tokens in agreement exactly when neither clock nor socket
    moved, or the socket's state is the registered one, or the session is not registered at all.
   */
  lemma RefreshAgreesIff(cfg: Config, w: World, a: Action)
    requires Inv(cfg, w) && Enabled(w, a) && TokensAgree(w.bed.store, w.bed.reg)
    requires a.DoRefresh? && a.put == Kept && MintOf(cfg, w, a).Some?
    ensures TokensAgree(Next(cfg, w, a).bed.store, Next(cfg, w, a).bed.reg) <==> !Breaks(cfg, w, a)
  {
    SwapLeaves(cfg, w, a);
    RefreshSets(cfg, w, a);
    hide Inv, Enabled, TokensAgree, Step, MintOf, WithToken, Moved, Shrinks;
    var r, rec := w.bed.reg.byWebsocket[a.ws.value], MintOf(cfg, w, a).value;
    var post := Next(cfg, w, a).bed.store;
    if Moved(w, a, rec) {
      TokenSetIff(w.bed.store, post, w.bed.reg, r, rec.sessionId, a.token, rec.token);
    } else {
      TokenSetBare(w.bed.store, post, w.bed.reg, r, Some(rec.token));
    }
  }

  /** What a successful rotation leaves the session: the new token if clock or socket moved, else none. */
  lemma SwapLeaves(cfg: Config, w: World, a: Action)
    requires Inv(cfg, w) && Enabled(w, a) && (a.DoReconnect? || a.DoRefresh?)
    requires MintOf(cfg, w, a).Some? && a.put == Kept
    ensures var s, post, rec := w.bed.store, Next(cfg, w, a).bed.store, MintOf(cfg, w, a).value;
      && (forall t :: t in post ==>
            if post[t].sessionId == rec.sessionId then t == rec.token else t in s && s[t] == post[t])
      && (Moved(w, a, rec) ==> rec.token in post && post[rec.token] == rec && rec.token != TokenOf(a))
      && (!Moved(w, a, rec) ==> Shrinks(s, post) && forall t :: t in post ==> post[t].sessionId != rec.sessionId)
  {
    SwapLeavesOne(cfg, w, a);
    RotationSwapsTokens(cfg, w, a);
    hide Inv, Enabled, Step, MintOf;
  }

  lemma GateAgrees(cfg: Config, w: World, a: Action)
    requires Inv(cfg, w) && Enabled(w, a) && TokensAgree(w.bed.store, w.bed.reg) && a.DoGate?
    ensures TokensAgree(Next(cfg, w, a).bed.store, Next(cfg, w, a).bed.reg)
  {
    var reg', s' := Step(cfg, w, a).0.reg, Step(cfg, w, a).0.store;
    CheckAccessReg(a.gate, cfg, w.bed, a.spare, a.ws, a.token, a.first, a.second);
    CheckAccessShrinks(a.gate, cfg, w.bed, a.spare, a.ws, a.token, a.first, a.second);
    LazyBindAgrees(cfg, w, a);
    hide CheckAccess, Resolve, Inv, TokensAgree;
    ShrinkAgrees(w.bed.store, s', reg');
  }

  lemma LazyBindAgrees(cfg: Config, w: World, a: Action)
    requires Inv(cfg, w) && Enabled(w, a) && TokensAgree(w.bed.store, w.bed.reg) && a.DoGate?
    ensures TokensAgree(w.bed.store,
      Resolve(a.gate, cfg, w.bed, a.spare, a.ws, a.token, a.first, a.second).0.reg)
  {
    var v := Validate(a.gate, cfg, w.bed.store, a.token, a.first, a.second).1;
    if a.ws.Some? && a.ws.value !in w.bed.reg.byWebsocket && v.Accepted? {
      AcceptedIsStored(a.gate, cfg, w.members, w.minted, w.lastMint, w.bed.store, a.token, a.first, a.second);
      var t, args := Strip(a.token), LazyArgs(w.bed.reg, v.claims, a.ws.value);
      LazyArgsOwn(cfg, w.members, w.bed.reg, v.claims, a.ws.value);
      BindSessions(w.bed.reg, a.spare, args);
      OneEach(cfg, w, t);
      var reg, r := Bind(w.bed.reg, a.spare, args), BoundRef(w.bed.reg, a.spare, args);
      assert reg.heap[r].sessionId == args.sessionId;
      hide Updated, NewSession, Inv, Validate, LazyArgs, Bind, BoundRef, TokensAgree, Strip;
      BindAgreesIff(w.bed.store, w.bed.store, w.bed.reg, a.spare, args,
        reg.heap[r].(authServiceToken := Some(t)));
    } else {
      hide Validate, LazyArgs, Bind, BoundRef, TokensAgree, Inv, Strip;
    }
  }

  lemma RegistryAgrees(s: Records, reg: Registry<nat>, op: Op<nat>)
    requires TokensAgree(s, reg) && Allowed(reg, op) && !op.BindOp?
    ensures TokensAgree(s, Apply(reg, op))
  {
    hide Bind, Unindexed, Indexed;
  }

  lemma ForgetPendingAgrees(cfg: Config, s: Records, reg: Registry<nat>, token: string, reply: Reply)
    requires TokensAgree(s, reg)
    ensures TokensAgree(s, ForgetPending(cfg, reg, token, reply))
  {
  }

  lemma UnmintedReconnectAgrees(cfg: Config, w: World, a: Action)
    requires Inv(cfg, w) && Enabled(w, a) && TokensAgree(w.bed.store, w.bed.reg)
    requires a.DoReconnect? && MintOf(cfg, w, a).None?
    ensures TokensAgree(Next(cfg, w, a).bed.store, Next(cfg, w, a).bed.reg)
  {
    StepStore(cfg, w, a);
    var p := Present(cfg, w.bed.store, a.token, a.at);
    ShrinkAgrees(w.bed.store, Step(cfg, w, a).0.store, w.bed.reg);
    if p.Refused? { ForgetPendingAgrees(cfg, Step(cfg, w, a).0.store, w.bed.reg, a.token, p.reply); }
    hide ForgetPending, Bind, BoundRef, Inv, TokensAgree, Present, Shrinks;
  }

  lemma RaisedRefreshAgrees(cfg: Config, w: World, a: Action)
    requires Inv(cfg, w) && Enabled(w, a) && TokensAgree(w.bed.store, w.bed.reg)
    requires a.DoRefresh? && (MintOf(cfg, w, a).None? || a.put != Kept)
    ensures TokensAgree(Next(cfg, w, a).bed.store, Next(cfg, w, a).bed.reg)
  {
    StepStore(cfg, w, a);
    if MintOf(cfg, w, a).Some? { RollbackLeaves(cfg, w, a); }
    ShrinkAgrees(w.bed.store, Step(cfg, w, a).0.store, w.bed.reg);
    hide Inv, TokensAgree, Present, Shrinks, RolledBack, Rotated, Mint, WithToken;
  }

  // ------------------------------------------------------------- every step

  /** From a state in which stored and carried tokens agree, they agree after a step exactly if it is none of those. */
  lemma StepAgreesIff(cfg: Config, w: World, a: Action)
    requires Inv(cfg, w) && Enabled(w, a) && TokensAgree(w.bed.store, w.bed.reg)
    ensures TokensAgree(Next(cfg, w, a).bed.store, Next(cfg, w, a).bed.reg) <==> !Breaks(cfg, w, a)
  {
    hide Inv, TokensAgree, Enabled, Moved, LeadsAstray;
    match a
    case DoLogin(_, _, _, _, _, _, _, _, _, _) =>
      if MintOf(cfg, w, a).None? { hide Bind, BoundRef; }
      else { LoginAgreesIff(cfg, w, a); hide Step, MintOf; }
    case DoReconnect(_, _, _, _, _, put) =>
      if MintOf(cfg, w, a).None? { UnmintedReconnectAgrees(cfg, w, a); }
      else if put == Kept { ReconnectAgreesKept(cfg, w, a); }
      else { ReconnectAgreesIff(cfg, w, a); }
      hide Step, MintOf;
    case DoRefresh(_, _, _, _, put) =>
      if MintOf(cfg, w, a).Some? && put == Kept { RefreshAgreesIff(cfg, w, a); }
      else { RaisedRefreshAgrees(cfg, w, a); }
      hide Step, MintOf;
    case DoGate(_, _, _, _, _, _) => GateAgrees(cfg, w, a); hide Step;
    case DoRegistry(op) => RegistryStepAgrees(cfg, w, a); hide Step;
    case _ => StoreStepAgrees(cfg, w, a); hide Step;
  }

  lemma StoreStepAgrees(cfg: Config, w: World, a: Action)
    requires Inv(cfg, w) && Enabled(w, a) && TokensAgree(w.bed.store, w.bed.reg)
    requires a.DoRevoke? || a.DoGet? || a.DoCollect?
    ensures TokensAgree(Next(cfg, w, a).bed.store, Next(cfg, w, a).bed.reg)
  {
    StepStore(cfg, w, a);
    ShrinkAgrees(w.bed.store, Step(cfg, w, a).0.store, w.bed.reg);
    hide Inv, TokensAgree, Shrinks, Revoke, AfterGet, Collected;
  }

  lemma RegistryStepAgrees(cfg: Config, w: World, a: Action)
    requires Inv(cfg, w) && Enabled(w, a) && TokensAgree(w.bed.store, w.bed.reg) && a.DoRegistry?
    ensures TokensAgree(Next(cfg, w, a).bed.store, Next(cfg, w, a).bed.reg)
  {
    RegistryAgrees(w.bed.store, w.bed.reg, a.op);
    hide Apply, TokensAgree, Inv;
  }

  // ----------------------------------------------------------------- runs

  ghost predicate NeverBreaks(cfg: Config, w: World, run: seq<Action>)
    requires Inv(cfg, w) && Possible(cfg, w, run)
    decreases run
  {
    run == [] ||
    (!Breaks(cfg, w, run[0]) && (InvNext(cfg, w, run[0]); NeverBreaks(cfg, Next(cfg, w, run[0]), run[1..])))
  }

  /** Stored and carried tokens agree in every state of the run. */
  ghost predicate AgreesThroughout(cfg: Config, w: World, run: seq<Action>)
    requires Inv(cfg, w) && Possible(cfg, w, run)
    decreases run
  {
    TokensAgree(w.bed.store, w.bed.reg) &&
    (run == [] || (InvNext(cfg, w, run[0]); AgreesThroughout(cfg, Next(cfg, w, run[0]), run[1..])))
  }

  /** Over every run: the tokens agree in all its states exactly when no step of it breaks them. */
  lemma {:induction false} AgreesThroughoutIff(cfg: Config, w: World, run: seq<Action>)
    requires Inv(cfg, w) && Possible(cfg, w, run) && TokensAgree(w.bed.store, w.bed.reg)
    ensures AgreesThroughout(cfg, w, run) <==> NeverBreaks(cfg, w, run)
    decreases run
  {
    if run != [] {
      InvNext(cfg, w, run[0]);
      StepAgreesIff(cfg, w, run[0]);
      hide Inv, Next, TokensAgree, Breaks, Enabled;
      var w' := Next(cfg, w, run[0]);
      if TokensAgree(w'.bed.store, w'.bed.reg) { AgreesThroughoutIff(cfg, w', run[1..]); }
    }
  }

  /** So where no step breaks them, any stored token of a registered session is the one its state carries. */
  lemma {:induction false} AgreementThroughout(cfg: Config, w: World, run: seq<Action>)
    requires Inv(cfg, w) && Possible(cfg, w, run) && NeverBreaks(cfg, w, run) && TokensAgree(w.bed.store, w.bed.reg)
    ensures TokensAgree(Exec(cfg, w, run).bed.store, Exec(cfg, w, run).bed.reg)
    decreases run
  {
    if run != [] {
      InvNext(cfg, w, run[0]);
      StepAgreesIff(cfg, w, run[0]);
      hide Inv, Next, TokensAgree, Breaks, Enabled;
      AgreementThroughout(cfg, Next(cfg, w, run[0]), run[1..]);
    }
  }

  lemma StartAgrees(clock: int)
    ensures TokensAgree(Start(clock).bed.store, Start(clock).bed.reg)
  {
  }

  /** In particular over every such run of the daemon from its start. */
  lemma AgreementFromStart(cfg: Config, clock: int, run: seq<Action>, t: string)
    requires Good(cfg) && Inv(cfg, Start(clock)) && Possible(cfg, Start(clock), run)
    requires NeverBreaks(cfg, Start(clock), run)
    ensures var bed := Exec(cfg, Start(clock), run).bed;
      && Keyed(bed.reg)
      && (t in bed.store && bed.store[t].sessionId in bed.reg.bySession ==>
            StateOf(bed.reg, bed.store[t].sessionId).authServiceToken == Some(t))
  {
    StartAgrees(clock);
    AgreementThroughout(cfg, Start(clock), run);
    hide Exec, Possible, NeverBreaks, Inv;
  }

  // --------------------------------------------------------------- replay

  /** A successful reconnect hands back the session's un-acked request, if it had one, and clears it. */
  lemma ReplayedOnce(cfg: Config, w: World, a: Action)
    requires Inv(cfg, w) && Enabled(w, a) && a.DoReconnect? && MintOf(cfg, w, a).Some? && a.put == Kept
    ensures var sid, reply, reg := MintOf(cfg, w, a).value.sessionId, Step(cfg, w, a).1.reply, Next(cfg, w, a).bed.reg;
      && Keyed(reg) && reply.ReconnectResult? && sid in reg.bySession
      && reply.replayed == PendingOf(w.bed.reg, sid)
      && PendingOf(reg, sid) == None
  {
    ReconnectSets(cfg, w, a);
    SucceedsIffMints(cfg, w, a);
    ReconnectReplies(cfg, w, a);
    InvNext(cfg, w, a);
    var args := ReconnectArgs(Present(cfg, w.bed.store, a.token, a.at).rec, a.socket);
    BindSessions(w.bed.reg, a.spare, args);
    hide Bind, BoundRef, Inv, Present, Step, MintOf, Enabled;
  }

  lemma ReconnectReplies(cfg: Config, w: World, a: Action)
    requires Inv(cfg, w) && Enabled(w, a) && a.DoReconnect? && MintOf(cfg, w, a).Some? && a.put == Kept
    ensures var args := ReconnectArgs(Present(cfg, w.bed.store, a.token, a.at).rec, a.socket);
      var reg, r := Bind(w.bed.reg, a.spare, args), BoundRef(w.bed.reg, a.spare, args);
      && r in reg.heap && Step(cfg, w, a).1.reply.ReconnectResult?
      && Step(cfg, w, a).1.reply.replayed == reg.heap[r].pendingRequest
  {
    BindSockets(w.bed.reg, a.spare, ReconnectArgs(Present(cfg, w.bed.store, a.token, a.at).rec, a.socket));
    hide Bind, BoundRef, Inv, Rotated, Present;
  }

  /** A reconnect refused because its token is dead forgets the un-acked request of the token's session. */
  lemma RefusedForgets(cfg: Config, w: World, a: Action)
    requires Inv(cfg, w) && Enabled(w, a) && a.DoReconnect?
    requires var answer := Step(cfg, w, a).1;
      answer == Replied(Error(TokenExpired, true)) || answer == Replied(Error(TokenRevoked, false))
    ensures cfg.codec.decode(a.token).Decoded?
    ensures var reg := Next(cfg, w, a).bed.reg;
      Keyed(reg) && PendingOf(reg, cfg.codec.decode(a.token).claims.sessionId) == None
  {
    RefusedRecords(cfg, w, a);
    InvNext(cfg, w, a);
    Forgets(w.bed.reg, cfg.codec.decode(a.token).claims.sessionId);
    hide *;
  }

  lemma RefusedRecords(cfg: Config, w: World, a: Action)
    requires Inv(cfg, w) && Enabled(w, a) && a.DoReconnect?
    requires var answer := Step(cfg, w, a).1;
      answer == Replied(Error(TokenExpired, true)) || answer == Replied(Error(TokenRevoked, false))
    ensures cfg.codec.decode(a.token).Decoded?
    ensures Next(cfg, w, a).bed.reg == RecordPending(w.bed.reg, cfg.codec.decode(a.token).claims.sessionId, None)
  {
    hide Inv, Bind, BoundRef, RecordPending, Live, AfterGet, Removed, Rotated, RolledBack;
  }

  lemma Forgets(reg: Registry<nat>, sid: string)
    requires Keyed(reg)
    ensures Keyed(RecordPending(reg, sid, None)) && PendingOf(RecordPending(reg, sid, None), sid) == None
  {
  }

  /** From the start of the daemon a member can log in on one socket and reconnect on another. */
  lemma LoginThenReconnect(cfg: Config, clock: int, info: MemberInfo, password: string, sid: string,
                           x: string, y: string)
    requires Good(cfg) && info.who.moniker != "" && Strip(info.who.moniker) == info.who.moniker
    requires password != "" && sid != "" && Strip(sid) == sid
    ensures var w0 := Start(clock);
      var login := DoLogin(0, info.who.moniker, password, true, Some(info), sid, x, clock, Kept, None);
      && Inv(cfg, w0) && Enabled(w0, login) && MintOf(cfg, w0, login).Some?
      && var w1, t := Next(cfg, w0, login), MintOf(cfg, w0, login).value.token;
         var reconnect := DoReconnect(1, t, y, Reads(clock, clock, clock), true, Kept);
         && Inv(cfg, w1) && t in w1.bed.store && Enabled(w1, reconnect) && MintOf(cfg, w1, reconnect).Some?
  {
    var w0 := Start(clock);
    StartInv(cfg, clock);
    var login := DoLogin(0, info.who.moniker, password, true, Some(info), sid, x, clock, Kept, None);
    InvNext(cfg, w0, login);
    HandedOutIff(cfg, w0, login);
    LoginSets(cfg, w0, login);
    BindSockets(w0.bed.reg, 0, LoginArgs(info, sid, x));
    var w1, rec := Next(cfg, w0, login), MintOf(cfg, w0, login).value;
    assert 1 !in w1.bed.reg.heap;
    hide Inv, Step, Bind, BoundRef;
    ReconnectMints(cfg, w1, DoReconnect(1, rec.token, y, Reads(clock, clock, clock), true, Kept));
  }
}
