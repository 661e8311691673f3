/** The invariant of AuthRuns holds in every reachable state. */
module AuthInvariant {
  import opened Basics
  import opened PyText
  import opened Tokens
  import opened TokenStore
  import opened Sessions
  import opened AuthSpec
  import opened AuthRuns

  // --------------------------------------------------- the registry part

  /** A bind that gives a session its own owner's identity. */
  ghost predicate OwnArgs(members: map<string, Identity>, a: BindArgs) {
    a.sessionId in members && members[a.sessionId] == Identity(a.moniker, a.isSysop, a.loginid)
  }

  lemma BindRegInv(members: map<string, Identity>, reg: Registry<nat>, spare: nat, a: BindArgs)
    requires RegInv(members, reg) && spare !in reg.heap && OwnArgs(members, a)
    ensures RegInv(members, Bind(reg, spare, a))
    ensures BoundRef(reg, spare, a) in Bind(reg, spare, a).heap
    ensures Bind(reg, spare, a).heap[BoundRef(reg, spare, a)].sessionId == a.sessionId
  {
    BindSessions(reg, spare, a);
    BindSockets(reg, spare, a);
    hide Bind, BoundRef;
  }

  /** Changing other fields of one state object leaves the identities alone. */
  lemma TouchRegInv(members: map<string, Identity>, reg: Registry<nat>, r: nat, s: Session)
    requires RegInv(members, reg) && r in reg.heap
    requires s.sessionId == reg.heap[r].sessionId && StateIdentity(s) == StateIdentity(reg.heap[r])
    ensures RegInv(members, reg.(heap := reg.heap[r := s]))
  {
  }

  lemma ApplyRegInv(members: map<string, Identity>, reg: Registry<nat>, op: Op<nat>)
    requires RegInv(members, reg) && Allowed(reg, op) && !op.BindOp?
    ensures RegInv(members, Apply(reg, op))
  {
    ApplyKeyed(reg, op);
    hide Unindexed, Indexed, Bind;
  }

  lemma GrownRegInv(members: map<string, Identity>, sid: string, who: Identity, reg: Registry<nat>)
    requires RegInv(members, reg) && sid !in members
    ensures RegInv(members[sid := who], reg)
  {
  }

  /** What the lazy bind passes is the session owner's identity, whether or not it is registered. */
  lemma LazyArgsOwn(cfg: Config, members: map<string, Identity>, reg: Registry<nat>, c: Claims, ws: string)
    requires RegInv(members, reg) && MembersInv(members)
    requires c.sessionId in members && members[c.sessionId] == Identity(c.moniker, c.isSysop, c.loginid)
    ensures OwnArgs(members, LazyArgs(reg, c, ws)) && LazyArgs(reg, c, ws).sessionId == c.sessionId
  {
  }

  /** A token the validator accepts is stored, and its claims are its record's. */
  lemma AcceptedIsStored(gate: Gate, cfg: Config, members: map<string, Identity>, minted: set<string>, last: int,
                         s: Records, token: string, first: int, second: int)
    requires Good(cfg) && StoreInv(cfg, members, minted, last, s)
    requires Validate(gate, cfg, s, token, first, second).1.Accepted?
    ensures var t, c := Strip(token), Validate(gate, cfg, s, token, first, second).1.claims;
      && t in s && c == s[t].claims && cfg.codec.decode(t) == Decoded(c)
      && c == MintClaims(cfg, members[c.sessionId], c.sessionId, c.websocketId, c.issuedAt)
      && c.sessionId == s[t].sessionId && c.sessionId in members
      && Validate(gate, cfg, s, token, first, second).0 == s
  {
    var t := Strip(token);
    assert t in s;
    assert Genuine(cfg, members, t, s[t]);
    assert cfg.codec.decode(cfg.codec.encode(s[t].claims)) == Decoded(s[t].claims);
  }

  lemma ResolveRegInv(gate: Gate, cfg: Config, w: World, spare: nat, ws: Option<string>, token: string,
                      first: int, second: int)
    requires Inv(cfg, w) && spare !in w.bed.reg.heap
    ensures RegInv(w.members, Resolve(gate, cfg, w.bed, spare, ws, token, first, second).0.reg)
  {
    hide Validate, LazyArgs, BoundRef, Bind, MintedInv, StoreInv, Strip;
    var (_, verdict) := Validate(gate, cfg, w.bed.store, token, first, second);
    if ws.Some? && verdict.Accepted? {
      AcceptedIsStored(gate, cfg, w.members, w.minted, w.lastMint, w.bed.store, token, first, second);
      var args := LazyArgs(w.bed.reg, verdict.claims, ws.value);
      LazyArgsOwn(cfg, w.members, w.bed.reg, verdict.claims, ws.value);
      BindRegInv(w.members, w.bed.reg, spare, args);
      var reg, r := Bind(w.bed.reg, spare, args), BoundRef(w.bed.reg, spare, args);
      TouchRegInv(w.members, reg, r, reg.heap[r].(authServiceToken := Some(Strip(token))));
    }
  }

  lemma CheckAccessReg<R>(gate: Gate, cfg: Config, bed: Bed<R>, spare: R, ws: Option<string>, token: string,
                          first: int, second: int)
    requires Keyed(bed.reg)
    ensures CheckAccess(gate, cfg, bed, spare, ws, token, first, second).0.reg
         == Resolve(gate, cfg, bed, spare, ws, token, first, second).0.reg
  {
    hide Validate, Resolve;
  }

  lemma LoginRegInv(cfg: Config, w: World, a: Action)
    requires Inv(cfg, w) && Enabled(w, a) && a.DoLogin?
    ensures RegInv(Next(cfg, w, a).members, Step(cfg, w, a).0.reg)
  {
    if MintOf(cfg, w, a).Some? {
      var info := a.found.value;
      var members' := w.members[a.sid := info.who];
      GrownRegInv(w.members, a.sid, info.who, w.bed.reg);
      var args := LoginArgs(info, a.sid, a.socket);
      BindRegInv(members', w.bed.reg, a.spare, args);
      hide BoundRef, Bind, RegInv;
      var reg, r := Bind(w.bed.reg, a.spare, args), BoundRef(w.bed.reg, a.spare, args);
      var token := if a.put == Kept then Some(MintOf(cfg, w, a).value.token) else None;
      TouchRegInv(members', reg, r, reg.heap[r].(authServiceToken := token));
      var reg' := WithToken(reg, r, token);
      TouchRegInv(members', reg', r, reg'.heap[r].(balance := a.balance));
    }
  }

  lemma ForgetPendingInv(cfg: Config, members: map<string, Identity>, reg: Registry<nat>, token: string, reply: Reply)
    requires RegInv(members, reg)
    ensures RegInv(members, ForgetPending(cfg, reg, token, reply))
  {
  }

  lemma ReconnectRegInv(cfg: Config, w: World, a: Action)
    requires Inv(cfg, w) && Enabled(w, a) && a.DoReconnect?
    ensures RegInv(w.members, Step(cfg, w, a).0.reg)
  {
    var p := Present(cfg, w.bed.store, a.token, a.at);
    if p.Refused? {
      ForgetPendingInv(cfg, w.members, w.bed.reg, a.token, p.reply);
      hide Present, Bind, ForgetPending, RegInv, StoreInv, MintedInv;
    } else {
      assert Genuine(cfg, w.members, a.token, p.rec);
      var args := ReconnectArgs(p.rec, a.socket);
      BindRegInv(w.members, w.bed.reg, a.spare, args);
      hide BoundRef, Bind, RegInv, Present, StoreInv, MintedInv;
      var reg, r := Bind(w.bed.reg, a.spare, args), BoundRef(w.bed.reg, a.spare, args);
      var rotated := Mint(cfg, IdentityOf(p.rec), p.rec.sessionId, a.socket, a.at.mint);
      TouchRegInv(w.members, reg, r,
        reg.heap[r].(authServiceToken := Some(rotated.token), pendingRequest := None));
    }
  }

  lemma RefreshRegInv(cfg: Config, w: World, a: Action)
    requires Inv(cfg, w) && Enabled(w, a) && a.DoRefresh?
    ensures RegInv(w.members, Step(cfg, w, a).0.reg)
  {
    hide Present, StoreInv, MintedInv;
    if a.ws.Some? && a.ws.value in w.bed.reg.byWebsocket {
      var r := w.bed.reg.byWebsocket[a.ws.value];
      forall token ensures RegInv(w.members, WithToken(w.bed.reg, r, token)) {
        TouchRegInv(w.members, w.bed.reg, r, w.bed.reg.heap[r].(authServiceToken := token));
      }
    }
  }

  lemma StepRegInv(cfg: Config, w: World, a: Action)
    requires Inv(cfg, w) && Enabled(w, a)
    ensures RegInv(Next(cfg, w, a).members, Step(cfg, w, a).0.reg)
  {
    match a
    case DoLogin(_, _, _, _, _, _, _, _, _, _) => LoginRegInv(cfg, w, a);
    case DoReconnect(_, _, _, _, _, _) =>
      ReconnectRegInv(cfg, w, a);
      hide Step, MintOf, RegInv;
    case DoRefresh(_, _, _, _, _) =>
      RefreshRegInv(cfg, w, a);
      hide Step, MintOf, RegInv;
    case DoGate(gate, spare, ws, token, first, second) =>
      ResolveRegInv(gate, cfg, w, spare, ws, token, first, second);
      CheckAccessReg(gate, cfg, w.bed, spare, ws, token, first, second);
      hide CheckAccess, Resolve, RegInv;
    case DoRegistry(op) =>
      ApplyRegInv(w.members, w.bed.reg, op);
      hide Apply, RegInv;
    case _ => hide RegInv;
  }

  // ------------------------------------------------------ the token part

  lemma InvKeyed(cfg: Config, w: World)
    requires Inv(cfg, w)
    ensures Keyed(w.bed.reg)
  {
  }

  /** A rotation mints for the member the presented token's session belongs to. */
  lemma RotationIsOwn(cfg: Config, w: World, a: Action)
    requires Inv(cfg, w) && Enabled(w, a) && (a.DoReconnect? || a.DoRefresh?) && MintOf(cfg, w, a).Some?
    ensures var token, rec := TokenOf(a), MintOf(cfg, w, a).value;
      && token in w.bed.store && rec.sessionId in w.members
      && rec == Mint(cfg, w.members[rec.sessionId], rec.sessionId, rec.websocketId, rec.issuedAt)
      && rec.issuedAt == a.at.mint
  {
    hide MintedInv, RegInv, Genuine, Strip, MembersInv;
    var rec := Present(cfg, w.bed.store, TokenOf(a), a.at).rec;
    assert rec == w.bed.store[TokenOf(a)];
    StoredIsOwn(cfg, w, TokenOf(a));
    hide StoreInv, Present;
  }

  lemma StoredIsOwn(cfg: Config, w: World, t: string)
    requires Inv(cfg, w) && t in w.bed.store
    ensures w.bed.store[t].sessionId in w.members
    ensures IdentityOf(w.bed.store[t]) == w.members[w.bed.store[t].sessionId]
  {
    assert Genuine(cfg, w.members, t, w.bed.store[t]);
  }

  /** What minting adds, whichever handler mints. */
  lemma MintIsGenuine(cfg: Config, w: World, a: Action)
    requires Inv(cfg, w) && Enabled(w, a) && MintOf(cfg, w, a).Some?
    ensures var rec, w' := MintOf(cfg, w, a).value, Next(cfg, w, a);
      && Genuine(cfg, w'.members, rec.token, rec)
      && rec.claims == MintClaims(cfg, w'.members[rec.sessionId], rec.sessionId, rec.websocketId, rec.issuedAt)
      && rec.token == cfg.codec.encode(rec.claims)
      && rec.issuedAt == w'.lastMint && w.clock <= rec.issuedAt <= w'.clock
      && (forall sid :: sid in w.members ==> sid in w'.members && w'.members[sid] == w.members[sid])
  {
    hide Step, StoreInv, MintedInv, RegInv, MembersInv, Strip, Present;
    if a.DoReconnect? || a.DoRefresh? {
      RotationIsOwn(cfg, w, a);
      hide MintOf, Enabled;
    }
  }

  lemma MintedInvNext(cfg: Config, w: World, a: Action)
    requires Inv(cfg, w) && Enabled(w, a) && MintOf(cfg, w, a).Some?
    ensures var w' := Next(cfg, w, a); MintedInv(cfg, w'.members, w'.minted, w'.lastMint)
  {
    MintIsGenuine(cfg, w, a);
    hide Step, MintOf, MintClaims;
    var w', rec := Next(cfg, w, a), MintOf(cfg, w, a).value;
    assert cfg.codec.decode(cfg.codec.encode(rec.claims)) == Decoded(rec.claims);
    forall t | t in w'.minted
      ensures cfg.codec.decode(t).Decoded?
      ensures var c := cfg.codec.decode(t).claims;
         c.sessionId in w'.members && c.issuedAt <= w'.lastMint
         && t == cfg.codec.encode(c)
         && c == MintClaims(cfg, w'.members[c.sessionId], c.sessionId, c.websocketId, c.issuedAt)
    {
      if t in w.minted { assert cfg.codec.decode(t).claims.sessionId in w.members; }
    }
  }

  lemma StoreInvNext(cfg: Config, w: World, a: Action)
    requires Inv(cfg, w) && Enabled(w, a)
    ensures var w' := Next(cfg, w, a); StoreInv(cfg, w'.members, w'.minted, w'.lastMint, w'.bed.store)
  {
    StepStore(cfg, w, a);
    var s, w' := w.bed.store, Next(cfg, w, a);
    var mint := MintOf(cfg, w, a);
    if mint.None? {
      RemovedInv(cfg, w.members, w.minted, w.lastMint, s, w'.bed.store);
    } else {
      MintIsGenuine(cfg, w, a);
      WidenedInv(cfg, w.members, w.minted, w.lastMint, w'.members, w'.minted, w'.lastMint, s);
      if a.DoLogin? { FreshSession(cfg, w, a); }
      hide Step, MintOf, Genuine, StoreInv, MintedInv, RegInv, Rotates;
      var rec := mint.value;
      if a.DoLogin? {
        StoredInv(cfg, w'.members, w'.minted, w'.lastMint, s, rec);
      } else {
        RotatedInv(cfg, w'.members, w'.minted, w'.lastMint, s, TokenOf(a), rec, a.put, w'.bed.store);
      }
    }
  }

  /** A login's session id has no stored record yet. */
  lemma FreshSession(cfg: Config, w: World, a: Action)
    requires Inv(cfg, w) && Enabled(w, a) && a.DoLogin? && MintOf(cfg, w, a).Some?
    ensures MintOf(cfg, w, a).value.sessionId == a.sid
    ensures forall t :: t in w.bed.store ==> w.bed.store[t].sessionId != a.sid
  {
    hide MintedInv, RegInv;
  }

  lemma BookkeepingNext(cfg: Config, w: World, a: Action)
    requires Inv(cfg, w) && Enabled(w, a)
    ensures var w' := Next(cfg, w, a);
      && MembersInv(w'.members) && w'.lastMint <= w'.clock && w.clock <= w'.clock && w.lastMint <= w'.lastMint
      && w.minted <= w'.minted
      && (MintOf(cfg, w, a).None? ==> w'.members == w.members && w'.minted == w.minted && w'.lastMint == w.lastMint)
  {
    if MintOf(cfg, w, a).Some? { MintIsGenuine(cfg, w, a); }
    hide Step, StoreInv, MintedInv, RegInv;
  }

  /** The invariant is kept by every step. */
  lemma InvNext(cfg: Config, w: World, a: Action)
    requires Inv(cfg, w) && Enabled(w, a)
    ensures Inv(cfg, Next(cfg, w, a))
  {
    StoreInvNext(cfg, w, a);
    StepRegInv(cfg, w, a);
    BookkeepingNext(cfg, w, a);
    if MintOf(cfg, w, a).Some? { MintedInvNext(cfg, w, a); }
    hide Step, MintOf, StoreInv, MintedInv, RegInv, MembersInv;
  }

  // ----------------------------------------------------------------- runs

  ghost predicate Possible(cfg: Config, w: World, run: seq<Action>)
    requires Inv(cfg, w)
    decreases run
  {
    run == [] || (Enabled(w, run[0]) && (InvNext(cfg, w, run[0]); Possible(cfg, Next(cfg, w, run[0]), run[1..])))
  }

  ghost function Exec(cfg: Config, w: World, run: seq<Action>): (w': World)
    requires Inv(cfg, w) && Possible(cfg, w, run)
    ensures Inv(cfg, w')
    decreases run
  {
    if run == [] then w
    else
      InvNext(cfg, w, run[0]);
      Exec(cfg, Next(cfg, w, run[0]), run[1..])
  }

  lemma {:induction false} Extend(cfg: Config, w: World, run: seq<Action>, a: Action)
    requires Inv(cfg, w) && Possible(cfg, w, run) && Enabled(Exec(cfg, w, run), a)
    ensures Possible(cfg, w, run + [a]) && Exec(cfg, w, run + [a]) == Next(cfg, Exec(cfg, w, run), a)
    decreases run
  {
    if run == [] {
      InvNext(cfg, w, a);
      hide Inv, Enabled, Next;
      assert run + [a] == [a];
      assert Possible(cfg, Next(cfg, w, a), [a][1..]);
    } else {
      InvNext(cfg, w, run[0]);
      hide Inv, Enabled, Next;
      Extend(cfg, Next(cfg, w, run[0]), run[1..], a);
      assert (run + [a])[1..] == run[1..] + [a];
    }
  }

  /** In every reachable state each session id has at most one stored record. */
  lemma OneRecordPerSession(cfg: Config, clock: int, run: seq<Action>, t: string, u: string)
    requires Good(cfg) && Inv(cfg, Start(clock)) && Possible(cfg, Start(clock), run)
    requires var s := Exec(cfg, Start(clock), run).bed.store;
      t in s && u in s && s[t].sessionId == s[u].sessionId
    ensures t == u
  {
  }
}
