/** Where the theorems stop: what happens on an unchanged clock, and behind a stale socket. */
module AuthLimits {
  import opened Basics
  import opened PyText
  import opened Tokens
  import opened TokenStore
  import opened Sessions
  import opened SessionInvariants
  import opened AuthSpec
  import opened AuthRuns
  import opened AuthInvariant
  import opened AuthTheorems
  import opened AuthAgreement
  import opened TokenLifetimes

  // ------------------------------------------------- the clock stands still

  /**
    From any reachable state: while the clock has not moved since a token was minted, reconnecting
    with it on another socket and then back on its own removes the token and brings it back.
   */
  lemma UnchangedClockResurrects(cfg: Config, w: World, t: string, other: string, spare: nat, spare': nat)
    requires Inv(cfg, w) && t in w.bed.store && w.bed.store[t].issuedAt == w.clock
    requires other != w.bed.store[t].websocketId && spare !in w.bed.reg.heap
    ensures var n, rec := w.clock, w.bed.store[t];
      var away := DoReconnect(spare, t, other, Reads(n, n, n), true, Kept);
      var w1 := Next(cfg, w, away);
      var t1 := Mint(cfg, IdentityOf(rec), rec.sessionId, other, n).token;
      var back := DoReconnect(spare', t1, rec.websocketId, Reads(n, n, n), true, Kept);
      && Inv(cfg, w1) && t !in w1.bed.store
      && (spare' !in w1.bed.reg.heap ==> Enabled(w1, back) && t in Next(cfg, w1, back).bed.store)
  {
    var n, rec := w.clock, w.bed.store[t];
    MovesOff(cfg, w, t, other, spare);
    var w1 := Next(cfg, w, DoReconnect(spare, t, other, Reads(n, n, n), true, Kept));
    var t1 := Mint(cfg, IdentityOf(rec), rec.sessionId, other, n).token;
    hide Inv, Next, Mint, Good, Genuine;
    if spare' !in w1.bed.reg.heap {
      MovesOff(cfg, w1, t1, rec.websocketId, spare');
    }
  }

  /** t leaves the store in some continuation and is stored again later on. */
  ghost predicate ComesAndGoes(cfg: Config, w: World, t: string)
    requires Inv(cfg, w)
  {
    exists run, more ::
      && Possible(cfg, w, run) && t !in Exec(cfg, w, run).bed.store
      && Possible(cfg, Exec(cfg, w, run), more) && t in Exec(cfg, Exec(cfg, w, run), more).bed.store
  }

  /** A stored token can leave and come back exactly while the clock stands at the reading it was minted at. */
  lemma ComesAndGoesIff(cfg: Config, w: World, t: string)
    requires Inv(cfg, w) && t in w.bed.store
    ensures ComesAndGoes(cfg, w, t) <==> w.bed.store[t].issuedAt == w.clock
  {
    if w.bed.store[t].issuedAt == w.clock {
      LeavesAndReturns(cfg, w, t);
    } else {
      StoredWasMinted(cfg, w, t);
      ReachableIsMirrored(cfg, w);
      assert Genuine(cfg, w.members, t, w.bed.store[t]) && w.bed.store[t].issuedAt <= w.lastMint;
      assert cfg.codec.decode(t).claims.issuedAt < w.clock;
      forall run, more | Possible(cfg, w, run) && t !in Exec(cfg, w, run).bed.store
                         && Possible(cfg, Exec(cfg, w, run), more)
        ensures t !in Exec(cfg, Exec(cfg, w, run), more).bed.store
      {
        ClockRises(cfg, w, run);
        NoResurrection(cfg, Exec(cfg, w, run), more, t);
      }
    }
  }

  lemma LeavesAndReturns(cfg: Config, w: World, t: string)
    requires Inv(cfg, w) && t in w.bed.store && w.bed.store[t].issuedAt == w.clock
    ensures ComesAndGoes(cfg, w, t)
  {
    InvKeyed(cfg, w);
    hide Inv, Next, Enabled, Possible, Exec;
    var away, back := AwayAndBack(cfg, w, t);
    var w1 := Next(cfg, w, away);
    InvKeyed(cfg, w1);
    NoSteps(cfg, w);
    NoSteps(cfg, w1);
    Extend(cfg, w, [], away);
    Extend(cfg, w1, [], back);
    hide ComesAndGoes;
    IsWitness(cfg, w, t, [] + [away], [] + [back]);
  }

  lemma IsWitness(cfg: Config, w: World, t: string, run: seq<Action>, more: seq<Action>)
    requires Inv(cfg, w) && Possible(cfg, w, run) && t !in Exec(cfg, w, run).bed.store
    requires Possible(cfg, Exec(cfg, w, run), more) && t in Exec(cfg, Exec(cfg, w, run), more).bed.store
    ensures ComesAndGoes(cfg, w, t)
  {
  }

  lemma AwayAndBack(cfg: Config, w: World, t: string) returns (away: Action, back: Action)
    requires Inv(cfg, w) && t in w.bed.store && w.bed.store[t].issuedAt == w.clock
    ensures Enabled(w, away) && Inv(cfg, Next(cfg, w, away)) && t !in Next(cfg, w, away).bed.store
    ensures var w1 := Next(cfg, w, away); Enabled(w1, back) && t in Next(cfg, w1, back).bed.store
  {
    var n, rec := w.clock, w.bed.store[t];
    var other := rec.websocketId + "'";
    assert |other| != |rec.websocketId|;
    var spare := Unused(w.bed.reg.heap.Keys);
    hide Inv, Next, Enabled, Mint;
    away := DoReconnect(spare, t, other, Reads(n, n, n), true, Kept);
    MovesOff(cfg, w, t, other, spare);
    var w1 := Next(cfg, w, away);
    var spare' := Unused(w1.bed.reg.heap.Keys);
    UnchangedClockResurrects(cfg, w, t, other, spare, spare');
    back := DoReconnect(spare', Mint(cfg, IdentityOf(rec), rec.sessionId, other, n).token, rec.websocketId,
      Reads(n, n, n), true, Kept);
  }

  /** Reconnecting on another socket at the reading the token was minted at swaps it for that socket's token. */
  lemma MovesOff(cfg: Config, w: World, t: string, other: string, spare: nat)
    requires Inv(cfg, w) && t in w.bed.store && w.bed.store[t].issuedAt == w.clock
    requires other != w.bed.store[t].websocketId && spare !in w.bed.reg.heap
    ensures var n, rec := w.clock, w.bed.store[t];
      var away := DoReconnect(spare, t, other, Reads(n, n, n), true, Kept);
      var rec1 := Mint(cfg, IdentityOf(rec), rec.sessionId, other, n);
      && Enabled(w, away)
      && var w1 := Next(cfg, w, away);
         && Inv(cfg, w1) && w1.clock == n
         && w1.bed.store == (w.bed.store - {t})[rec1.token := rec1] && rec1.token != t
    ensures var rec := w.bed.store[t];
      t == Mint(cfg, IdentityOf(rec), rec.sessionId, rec.websocketId, w.clock).token
  {
    var n, rec := w.clock, w.bed.store[t];
    assert Genuine(cfg, w.members, t, rec);
    var away := DoReconnect(spare, t, other, Reads(n, n, n), true, Kept);
    ReconnectMints(cfg, w, away);
    RotationSwapsTokens(cfg, w, away);
    InvNext(cfg, w, away);
    hide Inv, Step, MintOf;
  }

  // ---------------------------------------------------------- stale sockets

  /** The socket index, the states and the sessions after a bind whose state is then given other fields. */
  ghost predicate Moves(reg: Registry<nat>, reg': Registry<nat>, sid: string, ws: string, r: nat) {
    && reg'.byWebsocket == reg.byWebsocket[ws := r]
    && reg'.heap.Keys == reg.heap.Keys + {r} && reg'.heap[r].sessionId == sid
    && (forall x :: x in reg.heap && x != r ==> reg'.heap[x] == reg.heap[x])
    && sid in reg'.bySession && reg'.bySession[sid] == r
    && (ws in reg.byWebsocket && reg.byWebsocket[ws] in reg.heap ==>
          var prior := reg.heap[reg.byWebsocket[ws]].sessionId; prior != sid ==> prior !in reg'.bySession)
  }

  lemma BindMoves(reg: Registry<nat>, spare: nat, args: BindArgs, bound: Session)
    requires Keyed(reg) && spare !in reg.heap && bound.sessionId == args.sessionId
    ensures var post, r := Bind(reg, spare, args), BoundRef(reg, spare, args);
      Moves(reg, post.(heap := post.heap[r := bound]), args.sessionId, args.websocketId, r)
    ensures BoundRef(reg, spare, args)
      == if args.sessionId in reg.bySession then reg.bySession[args.sessionId] else spare
  {
    hide Bind, BoundRef, Updated, NewSession;
    BindSessions(reg, spare, args);
    BindSockets(reg, spare, args);
    if args.websocketId in reg.byWebsocket {
      var prior := reg.heap[reg.byWebsocket[args.websocketId]].sessionId;
      assert prior != args.sessionId ==> Displaced(reg, args, prior);
    }
  }

  /** Where a login leaves them. */
  lemma AfterLogin(cfg: Config, w: World, a: Action)
    requires Inv(cfg, w) && Enabled(w, a) && a.DoLogin? && MintOf(cfg, w, a).Some? && a.put == Kept
    ensures Moves(w.bed.reg, Next(cfg, w, a).bed.reg, a.sid, a.socket, a.spare)
  {
    InvKeyed(cfg, w);
    UnknownIsUnregistered(cfg, w, a.sid);
    var args, rec := LoginArgs(a.found.value, a.sid, a.socket), MintOf(cfg, w, a).value;
    hide Moves, Bind, BoundRef, Inv, Step, MintOf, Next, Keyed, StateOf;
    LoginSets(cfg, w, a);
    BoundState(w.bed.reg, a.spare, args);
    var reg, r := Bind(w.bed.reg, a.spare, args), BoundRef(w.bed.reg, a.spare, args);
    BindMoves(w.bed.reg, a.spare, args, reg.heap[r].(authServiceToken := Some(rec.token),
      balance := if a.balance.Some? then a.balance else reg.heap[r].balance));
  }

  lemma UnknownIsUnregistered(cfg: Config, w: World, sid: string)
    requires Inv(cfg, w) && sid !in w.members
    ensures sid !in w.bed.reg.bySession
  {
  }

  /** And a reconnect. */
  lemma AfterReconnect(cfg: Config, w: World, a: Action)
    requires Inv(cfg, w) && Enabled(w, a) && a.DoReconnect? && MintOf(cfg, w, a).Some? && a.put == Kept
    ensures var reg, sid := w.bed.reg, MintOf(cfg, w, a).value.sessionId;
      Moves(reg, Next(cfg, w, a).bed.reg, sid, a.socket, if sid in reg.bySession then reg.bySession[sid] else a.spare)
  {
    InvKeyed(cfg, w);
    hide Moves, Bind, BoundRef, Inv, Step, MintOf, Next, Keyed, StateOf, Present;
    ReconnectSets(cfg, w, a);
    var args := ReconnectArgs(Present(cfg, w.bed.store, a.token, a.at).rec, a.socket);
    BoundState(w.bed.reg, a.spare, args);
    var reg, r := Bind(w.bed.reg, a.spare, args), BoundRef(w.bed.reg, a.spare, args);
    BindMoves(w.bed.reg, a.spare, args,
      reg.heap[r].(authServiceToken := Some(MintOf(cfg, w, a).value.token), pendingRequest := None));
  }

  function Member(sid: string): MemberInfo {
    MemberInfo(Identity(sid, false, None), None)
  }

  function LogsIn(spare: nat, sid: string, ws: string): Action {
    DoLogin(spare, sid, "secret", true, Some(Member(sid)), sid, ws, 0, Kept, None)
  }

  /** The token of a session on a socket, minted at reading 0, and a move of the session off that socket. */
  function TokenAt(cfg: Config, sid: string, ws: string): TokenRecord {
    Mint(cfg, Member(sid).who, sid, ws, 0)
  }

  function MovesTo(cfg: Config, spare: nat, sid: string, from: string, to: string): Action {
    DoReconnect(spare, TokenAt(cfg, sid, from).token, to, Reads(0, 0, 0), true, Kept)
  }

  function Refreshes(cfg: Config, sid: string, minted: string, from: string): Action {
    DoRefresh(TokenAt(cfg, sid, minted).token, Some(from), Reads(0, 0, 0), true, Kept)
  }

  lemma LogsInStep(cfg: Config, w: World, spare: nat, sid: string, ws: string)
    requires Inv(cfg, w) && w.clock == 0 && TokensAgree(w.bed.store, w.bed.reg)
    requires spare !in w.bed.reg.heap && sid !in w.members && sid != "" && Strip(sid) == sid
    ensures var a := LogsIn(spare, sid, ws);
      && Enabled(w, a) && MintOf(cfg, w, a) == Some(TokenAt(cfg, sid, ws))
      && var w' := Next(cfg, w, a);
         && Inv(cfg, w') && w'.clock == 0 && TokensAgree(w'.bed.store, w'.bed.reg)
         && w'.members == w.members[sid := Member(sid).who]
         && w'.bed.store == Stored(w.bed.store, TokenAt(cfg, sid, ws)) && TokenAt(cfg, sid, ws).token !in w.bed.store
  {
    var a := LogsIn(spare, sid, ws);
    NewSessionsToken(cfg, w, sid, ws);
    assert Enabled(w, a) && MintOf(cfg, w, a) == Some(TokenAt(cfg, sid, ws));
    InvNext(cfg, w, a);
    StepAgreesIff(cfg, w, a);
    LoginSets(cfg, w, a);
    hide Inv, TokensAgree, Step, Enabled, Bind, BoundRef, Mint;
  }

  lemma NewSessionsToken(cfg: Config, w: World, sid: string, ws: string)
    requires Inv(cfg, w) && sid !in w.members
    ensures TokenAt(cfg, sid, ws).token !in w.bed.store
  {
    ReachableIsMirrored(cfg, w);
    var rec := TokenAt(cfg, sid, ws);
    assert cfg.codec.decode(cfg.codec.encode(rec.claims)) == Decoded(rec.claims);
    assert forall t :: t in w.bed.store ==> Genuine(cfg, w.members, t, w.bed.store[t]);
    hide MintedInv, RegInv;
  }

  lemma MovesStep(cfg: Config, w: World, spare: nat, sid: string, from: string, to: string)
    requires Inv(cfg, w) && w.clock == 0 && TokensAgree(w.bed.store, w.bed.reg) && spare !in w.bed.reg.heap
    requires var rec := TokenAt(cfg, sid, from); rec.token in w.bed.store && w.bed.store[rec.token] == rec
    requires from != to
    ensures var a, rec, rec' := MovesTo(cfg, spare, sid, from, to), TokenAt(cfg, sid, from), TokenAt(cfg, sid, to);
      && Enabled(w, a) && MintOf(cfg, w, a) == Some(rec')
      && var w' := Next(cfg, w, a);
         && Inv(cfg, w') && w'.clock == 0 && TokensAgree(w'.bed.store, w'.bed.reg) && w'.members == w.members
         && w'.bed.store == (w.bed.store - {rec.token})[rec'.token := rec'] && rec.token != rec'.token
  {
    var a := MovesTo(cfg, spare, sid, from, to);
    ReconnectMints(cfg, w, a);
    InvNext(cfg, w, a);
    StepAgreesIff(cfg, w, a);
    RotationSwapsTokens(cfg, w, a);
    hide Inv, TokensAgree, Step, Present;
  }

  /** Between the moves below: nothing has gone wrong yet, and session a's token of a socket is stored. */
  ghost predicate Calm(cfg: Config, w: World, socket: string) {
    var rec := TokenAt(cfg, "a", socket);
    && Inv(cfg, w) && w.clock == 0 && TokensAgree(w.bed.store, w.bed.reg)
    && rec.token in w.bed.store && w.bed.store[rec.token] == rec
  }

  ghost predicate OnX(cfg: Config, w: World) {
    && Calm(cfg, w, "x") && w.members.Keys == {"a"}
    && w.bed.reg.heap.Keys == {0} && w.bed.reg.byWebsocket == map["x" := 0]
    && "a" in w.bed.reg.bySession && w.bed.reg.bySession["a"] == 0
  }

  ghost predicate OnY(cfg: Config, w: World) {
    && Calm(cfg, w, "y") && w.members.Keys == {"a"}
    && w.bed.reg.heap.Keys == {0} && w.bed.reg.heap[0].sessionId == "a"
    && w.bed.reg.byWebsocket == map["x" := 0, "y" := 0]
  }

  ghost predicate Bumped(cfg: Config, w: World) {
    && Calm(cfg, w, "y")
    && w.bed.reg.heap.Keys == {0, 1} && w.bed.reg.heap[0].sessionId == "a" && "a" !in w.bed.reg.bySession
    && w.bed.reg.byWebsocket == map["x" := 1, "y" := 0]
  }

  /** Socket y still leads to the state a had before it came back on z. */
  ghost predicate Strayed(cfg: Config, w: World) {
    && Calm(cfg, w, "z")
    && "y" in w.bed.reg.byWebsocket && w.bed.reg.byWebsocket["y"] == 0
    && 0 in w.bed.reg.heap && w.bed.reg.heap[0].sessionId == "a"
    && "a" in w.bed.reg.bySession && w.bed.reg.bySession["a"] == 2
  }

  lemma NamesAreBare()
    ensures Strip("a") == "a" && Strip("b") == "b"
  {
  }

  lemma ComesToX(cfg: Config)
    requires Good(cfg)
    ensures var a := LogsIn(0, "a", "x");
      Inv(cfg, Start(0)) && Enabled(Start(0), a) && OnX(cfg, Next(cfg, Start(0), a))
  {
    hide Inv, Next, Enabled, TokensAgree, Mint, MintOf, Strip, Good, Keyed;
    var w := Start(0);
    StartInv(cfg, 0);
    StartAgrees(0);
    NamesAreBare();
    LogsInStep(cfg, w, 0, "a", "x");
    AfterLogin(cfg, w, LogsIn(0, "a", "x"));
  }

  lemma ComesToY(cfg: Config, w: World)
    requires OnX(cfg, w)
    ensures var a := MovesTo(cfg, 1, "a", "x", "y"); Enabled(w, a) && OnY(cfg, Next(cfg, w, a))
  {
    hide Inv, Next, Enabled, TokensAgree, Mint, MintOf;
    MovesStep(cfg, w, 1, "a", "x", "y");
    AfterReconnect(cfg, w, MovesTo(cfg, 1, "a", "x", "y"));
    assert TokenAt(cfg, "a", "y").sessionId == "a" by { MintsFor(cfg, "a", "y"); }
  }

  lemma IsEvicted(cfg: Config, w: World)
    requires OnY(cfg, w)
    ensures var a := LogsIn(1, "b", "x"); Enabled(w, a) && Bumped(cfg, Next(cfg, w, a))
  {
    hide Inv, Next, Enabled, TokensAgree, Mint, MintOf, Strip;
    NamesAreBare();
    LogsInStep(cfg, w, 1, "b", "x");
    AfterLogin(cfg, w, LogsIn(1, "b", "x"));
  }

  lemma ComesToZ(cfg: Config, w: World)
    requires Bumped(cfg, w)
    ensures var a := MovesTo(cfg, 2, "a", "y", "z"); Enabled(w, a) && Strayed(cfg, Next(cfg, w, a))
  {
    hide Inv, Next, Enabled, TokensAgree, Mint, MintOf;
    MovesStep(cfg, w, 2, "a", "y", "z");
    AfterReconnect(cfg, w, MovesTo(cfg, 2, "a", "y", "z"));
    assert TokenAt(cfg, "a", "z").sessionId == "a" by { MintsFor(cfg, "a", "z"); }
  }

  lemma MintsFor(cfg: Config, sid: string, ws: string)
    ensures TokenAt(cfg, sid, ws).sessionId == sid
  {
  }

  /** a logs in on x and reconnects on y, b logs in on x, a reconnects on z. */
  function StrayRun(cfg: Config): seq<Action> {
    [LogsIn(0, "a", "x"), MovesTo(cfg, 1, "a", "x", "y"), LogsIn(1, "b", "x"), MovesTo(cfg, 2, "a", "y", "z")]
  }

  lemma Strays(cfg: Config)
    requires Good(cfg)
    ensures Inv(cfg, Start(0)) && Possible(cfg, Start(0), StrayRun(cfg))
    ensures Strayed(cfg, Exec(cfg, Start(0), StrayRun(cfg)))
  {
    StartInv(cfg, 0);
    hide *;
    var run := StraysAlong(cfg, LogsIn(0, "a", "x"), MovesTo(cfg, 1, "a", "x", "y"), LogsIn(1, "b", "x"),
      MovesTo(cfg, 2, "a", "y", "z"));
    assert run == StrayRun(cfg) by { ListsStray(cfg); }
  }

  lemma StraysAlong(cfg: Config, a: Action, b: Action, c: Action, d: Action) returns (run: seq<Action>)
    requires Good(cfg) && a == LogsIn(0, "a", "x") && b == MovesTo(cfg, 1, "a", "x", "y")
    requires c == LogsIn(1, "b", "x") && d == MovesTo(cfg, 2, "a", "y", "z")
    ensures run == [] + [a] + [b] + [c] + [d]
    ensures Inv(cfg, Start(0)) && Possible(cfg, Start(0), run) && Strayed(cfg, Exec(cfg, Start(0), run))
  {
    var w0 := Start(0);
    StartInv(cfg, 0);
    run := [];
    assert Exec(cfg, w0, run) == w0;
    hide *;
    ComesToX(cfg);
    Extend(cfg, w0, run, a);
    run := run + [a];
    ComesToY(cfg, Exec(cfg, w0, run));
    Extend(cfg, w0, run, b);
    run := run + [b];
    IsEvicted(cfg, Exec(cfg, w0, run));
    Extend(cfg, w0, run, c);
    run := run + [c];
    ComesToZ(cfg, Exec(cfg, w0, run));
    Extend(cfg, w0, run, d);
    run := run + [d];
  }

  lemma ListsStray(cfg: Config)
    ensures [] + [LogsIn(0, "a", "x")] + [MovesTo(cfg, 1, "a", "x", "y")] + [LogsIn(1, "b", "x")]
      + [MovesTo(cfg, 2, "a", "y", "z")] == StrayRun(cfg)
  {
    hide LogsIn, MovesTo;
  }

  /**
    A refresh that breaks the agreement can be reached from the start of the daemon: after these
    four steps, which keep it, a refreshes from y.
   */
  lemma BrokenRefreshIsReachable(cfg: Config)
    requires Good(cfg)
    ensures var w0, run, refresh := Start(0), StrayRun(cfg), Refreshes(cfg, "a", "z", "y");
      && Inv(cfg, w0) && Possible(cfg, w0, run) && Possible(cfg, w0, run + [refresh])
      && (var bed := Exec(cfg, w0, run).bed; TokensAgree(bed.store, bed.reg))
      && (var bed := Exec(cfg, w0, run + [refresh]).bed; !TokensAgree(bed.store, bed.reg))
  {
    Strays(cfg);
    var w := Exec(cfg, Start(0), StrayRun(cfg));
    var a := Refreshes(cfg, "a", "z", "y");
    StrayRefreshMints(cfg, w);
    StepAgreesIff(cfg, w, a);
    Extend(cfg, Start(0), StrayRun(cfg), a);
    assert TokensAgree(w.bed.store, w.bed.reg);
    hide *;
  }

  lemma StrayRefreshMints(cfg: Config, w: World)
    requires Strayed(cfg, w)
    ensures var a := Refreshes(cfg, "a", "z", "y"); Enabled(w, a) && Breaks(cfg, w, a)
  {
    var a, rec := Refreshes(cfg, "a", "z", "y"), TokenAt(cfg, "a", "z");
    assert rec.claims.sessionId == "a" && IdentityOf(rec) == Member("a").who;
    hide Inv, Present, TokensAgree, Strip, Mint;
    PresentsStored(cfg, w, rec.token, a.at);
    ReachableIsMirrored(cfg, w);
    assert MayRefresh(w.bed.reg, "y", "a", true);
    assert MintOf(cfg, w, a) == Some(TokenAt(cfg, "a", "y"));
    assert LeadsAstray(w.bed.reg, "y", "a");
  }

  // The four binds of a small example, computed one by one.

  function Plain(sid: string, ws: string): BindArgs {
    BindArgs(sid, ws, sid, false, None, None, None, None)
  }

  function AtX(): Registry<nat> {
    Registry(map[0 := NewSession(Plain("a", "x"))], map["a" := 0], map["x" := 0], map[])
  }

  function AtY(): Registry<nat> {
    Registry(map[0 := NewSession(Plain("a", "y"))], map["a" := 0], map["x" := 0, "y" := 0], map[])
  }

  function Taken(): Registry<nat> {
    Registry(map[0 := NewSession(Plain("a", "y")), 1 := NewSession(Plain("b", "x"))],
      map["b" := 1], map["x" := 1, "y" := 0], map[])
  }

  function Back(): Registry<nat> {
    Registry(map[0 := NewSession(Plain("a", "y")), 1 := NewSession(Plain("b", "x")), 2 := NewSession(Plain("a", "z"))],
      map["b" := 1, "a" := 2], map["x" := 1, "y" := 0, "z" := 2], map[])
  }

  lemma NobodyListed(sid: string)
    ensures Indexed(map[], {}, sid) == map[] && Unindexed(map[], {}, sid) == map[]
  {
  }

  /** One operation takes one registry to the other. */
  ghost predicate Leads(reg: Registry<nat>, op: Op<nat>, reg': Registry<nat>) {
    Keyed(reg) && Allowed(reg, op) && Apply(reg, op) == reg' && Keyed(reg')
  }

  lemma BindAtX()
    ensures Leads(EmptyRegistry(), BindOp(0, Plain("a", "x")), AtX())
  {
    NobodyListed("a");
    hide Indexed, Unindexed;
  }

  lemma BindAtY()
    ensures Leads(AtX(), BindOp(1, Plain("a", "y")), AtY())
  {
    NobodyListed("a");
    hide Indexed, Unindexed;
  }

  lemma BindTaken()
    ensures Leads(AtY(), BindOp(1, Plain("b", "x")), Taken())
  {
    NobodyListed("a");
    NobodyListed("b");
    hide Indexed, Unindexed;
  }

  lemma BindBack()
    ensures Leads(Taken(), BindOp(2, Plain("a", "z")), Back())
  {
    NobodyListed("a");
    hide Indexed, Unindexed;
  }

  function Watching(): Registry<nat> {
    Registry(
      map[0 := NewSession(Plain("a", "y")), 1 := NewSession(Plain("b", "x")),
          2 := NewSession(Plain("a", "z")).(spectatorOf := {"t"})],
      map["b" := 1, "a" := 2], map["x" := 1, "y" := 0, "z" := 2], map["t" := {"a"}])
  }

  lemma WatchingIsExact()
    ensures Keyed(Watching()) && Exact(Watching()) && !Tidy(Watching()) && 3 !in Watching().heap
  {
    var w := Watching();
    assert Keyed(w) && !IsHome(w, "y");
    assert StateOf(w, "a").spectatorOf == {"t"} && StateOf(w, "b").spectatorOf == {};
    assert forall t, sid :: Sees(w.observers, t, sid) <==> t == "t" && sid == "a";
    assert forall sid :: sid in w.bySession ==> sid == "a" || sid == "b";
  }

  lemma ListedAtT()
    ensures Indexed(map[], {"t"}, "a") == map["t" := {"a"}]
  {
    var obs := Indexed(map[], {"t"}, "a");
    var nobody: set<string> := {};
    assert obs["t"] == nobody + {"a"} == {"a"};
  }

  lemma WatchingT()
    ensures Leads(Back(), WatchOp("a", "t"), Watching())
  {
    WatchingIsExact();
    ListedAtT();
    hide Indexed, Exact, Tidy;
    var s := NewSession(Plain("a", "z"));
    assert s.spectatorOf + {"t"} == {"t"};
    assert StateOf(Back(), "a") == s;
    assert Watch(Back(), "a", "t").heap == Watching().heap;
  }

  lemma TakingYLosesTrack()
    ensures Keyed(Watching()) && 3 !in Watching().heap
    ensures var post := Bind(Watching(), 3, Plain("c", "y"));
      Keyed(post) && "a" !in post.bySession && Sees(post.observers, "t", "a")
    ensures !PurgesAll(Watching(), Plain("c", "y")) && KeepsTables(Watching(), Plain("c", "y"))
  {
    assert "t" in StateOf(Watching(), "a").spectatorOf && "t" !in Watching().heap[0].spectatorOf;
    BindSessions(Watching(), 3, Plain("c", "y"));
    BindListings(Watching(), 3, Plain("c", "y"));
    hide Bind;
    assert Displaced(Watching(), Plain("c", "y"), "a");
    assert Sees(Watching().observers, "t", "a");
  }

  /** The four binds, and a watching table t. */
  function StaleOps(): seq<Op<nat>> {
    [BindOp(0, Plain("a", "x")), BindOp(1, Plain("a", "y")), BindOp(1, Plain("b", "x")), BindOp(2, Plain("a", "z")),
     WatchOp("a", "t")]
  }

  lemma Prepend(reg: Registry<nat>, op: Op<nat>, reg': Registry<nat>, ops: seq<Op<nat>>)
    requires Leads(reg, op, reg') && Runs(Anything, reg', ops)
    ensures Keyed(reg) && Runs(Anything, reg, [op] + ops)
    ensures Outcome(Anything, reg, [op] + ops) == Outcome(Anything, reg', ops)
  {
    assert ([op] + ops)[1..] == ops;
    hide Apply, Keyed, Allowed;
  }

  /** From the end of the run to its start. */
  lemma Chained(regs: seq<Registry<nat>>, ops: seq<Op<nat>>)
    requires |regs| == |ops| + 1 && Keyed(regs[|ops|])
    requires forall i :: 0 <= i < |ops| ==> Leads(regs[i], ops[i], regs[i + 1])
    ensures Keyed(regs[0]) && Runs(Anything, regs[0], ops) && Outcome(Anything, regs[0], ops) == regs[|ops|]
    decreases ops
  {
    if ops != [] {
      assert Leads(regs[0], ops[0], regs[1]);
      hide Leads, Apply, Keyed, Allowed;
      Chained(regs[1..], ops[1..]);
      Prepend(regs[0], ops[0], regs[1], ops[1..]);
      assert [ops[0]] + ops[1..] == ops;
    }
  }

  lemma StaleOpsRun()
    ensures Keyed(EmptyRegistry<nat>()) && Runs(Anything, EmptyRegistry<nat>(), StaleOps())
    ensures Outcome(Anything, EmptyRegistry<nat>(), StaleOps()) == Watching()
  {
    var ops := StaleOps();
    var regs := [EmptyRegistry(), AtX(), AtY(), Taken(), Back(), Watching()];
    BindAtX();
    BindAtY();
    BindTaken();
    BindBack();
    WatchingT();
    WatchingIsExact();
    hide Runs, Outcome, Keyed, Plain, Leads, EmptyRegistry, AtX, AtY, Taken, Back, Watching, Exact, Tidy;
    assert forall i :: 0 <= i < 5 ==> Leads(regs[i], ops[i], regs[i + 1]);
    Chained(regs, ops);
  }

  /**
    Stale sockets are reachable and matter. Session a moves from socket x to y without x being
    unbound; b takes x, which evicts a; a comes back on z as a new state and watches table t.
    Socket y still leads to the old state, and when c takes y the index goes on listing a, which
    is no longer registered.
   */
  lemma StaleSocketExample()
    ensures Keyed(EmptyRegistry<nat>()) && Runs(Anything, EmptyRegistry<nat>(), StaleOps())
    ensures var watching := Outcome(Anything, EmptyRegistry<nat>(), StaleOps());
      && Exact(watching) && !Tidy(watching) && 3 !in watching.heap
      && !PurgesAll(watching, Plain("c", "y")) && KeepsTables(watching, Plain("c", "y"))
      && !Exact(Bind(watching, 3, Plain("c", "y")))
  {
    StaleOpsRun();
    WatchingIsExact();
    TakingYLosesTrack();
    hide Watching, Bind, Tidy, Keyed, PurgesAll, KeepsTables, Runs, Outcome;
  }
}
