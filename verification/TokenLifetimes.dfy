/**
  How long a token lives: what takes it out of the store, and whether it can ever come back. No
  statement here assumes anything of the mints of other tokens or of the rest of the run.
 */
module TokenLifetimes {
  import opened Basics
  import opened PyText
  import opened Tokens
  import opened TokenStore
  import opened Sessions
  import opened AuthSpec
  import opened AuthRuns
  import opened AuthInvariant
  import opened AuthTheorems

  // ------------------------------------------------- tokens that left the store

  /**
    A token that is not stored can come back only while the clock has not passed the reading it
    was minted at, and only from a live token of the same session.
   */
  ghost predicate Returnable(cfg: Config, w: World, t: string) {
    cfg.codec.decode(t).Decoded? &&
    var c := cfg.codec.decode(t).claims;
    && c.issuedAt == w.clock
    && exists u :: u in w.bed.store && w.bed.store[u].sessionId == c.sessionId && w.clock < w.bed.store[u].expiresAt
  }

  /** What a step can bring into the store: nothing but what it mints. */
  lemma StepBrings(cfg: Config, w: World, a: Action)
    requires Inv(cfg, w) && Enabled(w, a)
    ensures var s, post, mint := w.bed.store, Next(cfg, w, a).bed.store, MintOf(cfg, w, a);
      forall u :: u in post ==>
        (u in s && post[u] == s[u]) || (mint.Some? && u == mint.value.token && post[u] == mint.value)
  {
    StepStore(cfg, w, a);
    var mint := MintOf(cfg, w, a);
    if mint.Some? { OnlyTheMintedAppears(w.bed.store, TokenOf(a), mint.value, a.put, Step(cfg, w, a).0.store); }
    hide Step, MintOf, Inv, Enabled, ReadingOf, Rotates, Persisted;
  }

  lemma OnlyTheMintedAppears(s: Records, token: string, rec: TokenRecord, put: PutOutcome, post: Records)
    requires post == Persisted(s, rec, put) || Rotates(s, token, rec, put, post)
    ensures forall u :: u in post ==> (u in s && post[u] == s[u]) || (u == rec.token && post[u] == rec)
  {
  }

  /** A step mints for a new session, or for one with a live token. */
  lemma MintsForLive(cfg: Config, w: World, a: Action)
    requires Inv(cfg, w) && Enabled(w, a) && MintOf(cfg, w, a).Some?
    ensures var s, rec := w.bed.store, MintOf(cfg, w, a).value;
      if a.DoLogin? then rec.sessionId !in w.members
      else TokenOf(a) in s && s[TokenOf(a)].sessionId == rec.sessionId && w.clock < s[TokenOf(a)].expiresAt
  {
    hide Inv, Bind, Strip;
  }

  /** A token that cannot come back is not minted, and what is minted does not help it. */
  lemma HopelessMint(cfg: Config, w: World, a: Action, t: string)
    requires Inv(cfg, w) && Enabled(w, a) && MintOf(cfg, w, a).Some?
    requires t in w.minted && t !in w.bed.store && !Returnable(cfg, w, t)
    ensures var c, rec := cfg.codec.decode(t).claims, MintOf(cfg, w, a).value;
      rec.token != t && (rec.sessionId != c.sessionId || c.issuedAt < w.clock)
  {
    hide Inv, Step, MintOf, Enabled, Mint, Next;
    MintsForLive(cfg, w, a);
    MintReads(cfg, w, a);
    MintedClaims(cfg, w, t);
  }

  /** A minted token reads back as its record. */
  lemma MintReads(cfg: Config, w: World, a: Action)
    requires Inv(cfg, w) && Enabled(w, a) && MintOf(cfg, w, a).Some?
    ensures var rec := MintOf(cfg, w, a).value;
      && cfg.codec.decode(rec.token) == Decoded(rec.claims) && w.clock <= rec.issuedAt
      && rec.claims.sessionId == rec.sessionId && rec.claims.issuedAt == rec.issuedAt
  {
    MintIsGenuine(cfg, w, a);
    var rec := MintOf(cfg, w, a).value;
    assert cfg.codec.decode(cfg.codec.encode(rec.claims)) == Decoded(rec.claims);
    hide StoreInv, MintedInv, RegInv, MembersInv, Step, MintOf, Enabled, Next, Genuine;
  }

  lemma MintedClaims(cfg: Config, w: World, t: string)
    requires Inv(cfg, w) && t in w.minted
    ensures cfg.codec.decode(t).Decoded?
    ensures var c := cfg.codec.decode(t).claims; c.sessionId in w.members && c.issuedAt <= w.clock
  {
    hide StoreInv, RegInv, MembersInv;
  }

  lemma HopelessStep(cfg: Config, w: World, a: Action, t: string)
    requires Inv(cfg, w) && Enabled(w, a)
    requires t in w.minted && t !in w.bed.store && !Returnable(cfg, w, t)
    ensures var w' := Next(cfg, w, a); t in w'.minted && t !in w'.bed.store && !Returnable(cfg, w', t)
  {
    InvKeyed(cfg, w);
    hide Inv, Step, MintOf, Enabled;
    StepBrings(cfg, w, a);
    BookkeepingNext(cfg, w, a);
    hide Next;
    MintedClaims(cfg, w, t);
    if MintOf(cfg, w, a).Some? { HopelessMint(cfg, w, a, t); }
    StaysHopeless(cfg, w, Next(cfg, w, a), MintOf(cfg, w, a), t);
  }

  /** Where the store gains at most a record of another session, or the clock has passed, nothing changes for t. */
  lemma StaysHopeless(cfg: Config, w: World, w': World, mint: Option<TokenRecord>, t: string)
    requires cfg.codec.decode(t).Decoded? && cfg.codec.decode(t).claims.issuedAt <= w.clock <= w'.clock
    requires t !in w.bed.store && !Returnable(cfg, w, t)
    requires mint.Some? ==> mint.value.token != t
    requires mint.Some? && mint.value.sessionId == cfg.codec.decode(t).claims.sessionId ==>
      cfg.codec.decode(t).claims.issuedAt < w.clock
    requires forall u :: u in w'.bed.store ==>
      || (u in w.bed.store && w'.bed.store[u] == w.bed.store[u])
      || (mint.Some? && u == mint.value.token && w'.bed.store[u] == mint.value)
    ensures t !in w'.bed.store && !Returnable(cfg, w', t)
  {
  }

  lemma {:induction false} GoneForGood(cfg: Config, w: World, run: seq<Action>, t: string)
    requires Inv(cfg, w) && Possible(cfg, w, run)
    requires t in w.minted && t !in w.bed.store && !Returnable(cfg, w, t)
    ensures t !in Exec(cfg, w, run).bed.store
    decreases run
  {
    if run != [] {
      InvNext(cfg, w, run[0]);
      HopelessStep(cfg, w, run[0], t);
      hide Inv, Next, Returnable;
      GoneForGood(cfg, Next(cfg, w, run[0]), run[1..], t);
    }
  }

  /** Some natural number is not in use. */
  lemma Unused(s: set<nat>) returns (n: nat)
    ensures n !in s
  {
    n := 0;
    var todo := s;
    while todo != {}
      invariant todo <= s && forall x :: x in s && x !in todo ==> x < n
      decreases todo
    {
      var x :| x in todo;
      todo := todo - {x};
      if x >= n { n := x + 1; }
    }
  }

  /** A token that can come back does so by a reconnect of its session's live token on its own socket. */
  lemma BringsBack(cfg: Config, w: World, t: string) returns (a: Action)
    requires Inv(cfg, w) && t in w.minted && t !in w.bed.store && Returnable(cfg, w, t)
    ensures Enabled(w, a) && t in Next(cfg, w, a).bed.store
  {
    var c, n := cfg.codec.decode(t).claims, w.clock;
    var u :| u in w.bed.store && w.bed.store[u].sessionId == c.sessionId && n < w.bed.store[u].expiresAt;
    assert Genuine(cfg, w.members, u, w.bed.store[u]);
    assert t == Mint(cfg, IdentityOf(w.bed.store[u]), c.sessionId, c.websocketId, n).token;
    var spare := Unused(w.bed.reg.heap.Keys);
    a := DoReconnect(spare, u, c.websocketId, Reads(n, n, n), true, Kept);
    ReconnectMints(cfg, w, a);
    HandedOutIff(cfg, w, a);
    hide Inv, Next, Mint, Genuine;
  }

  lemma NoSteps(cfg: Config, w: World)
    requires Inv(cfg, w)
    ensures Possible(cfg, w, []) && Exec(cfg, w, []) == w
  {
  }

  /** A token that has left the store re-enters it in some continuation exactly when it is returnable. */
  lemma ReturnsIff(cfg: Config, w: World, t: string)
    requires Inv(cfg, w) && t in w.minted && t !in w.bed.store
    ensures (exists run :: Possible(cfg, w, run) && t in Exec(cfg, w, run).bed.store) <==> Returnable(cfg, w, t)
  {
    hide Inv, Next, Enabled, Returnable, Possible, Exec;
    if Returnable(cfg, w, t) {
      var a := BringsBack(cfg, w, t);
      NoSteps(cfg, w);
      Extend(cfg, w, [], a);
      assert t in Exec(cfg, w, [] + [a]).bed.store;
    } else {
      forall run | Possible(cfg, w, run) ensures t !in Exec(cfg, w, run).bed.store {
        GoneForGood(cfg, w, run, t);
      }
    }
  }

  /** No resurrection: once the clock has passed the reading it was minted at, a token that left stays away. */
  lemma NoResurrection(cfg: Config, w: World, run: seq<Action>, t: string)
    requires Inv(cfg, w) && Possible(cfg, w, run) && t in w.minted && t !in w.bed.store
    requires cfg.codec.decode(t).Decoded? && cfg.codec.decode(t).claims.issuedAt < w.clock
    ensures t !in Exec(cfg, w, run).bed.store
  {
    GoneForGood(cfg, w, run, t);
  }

  /** No mint of the token's session in the run is at the reading the token was minted at. */
  ghost predicate MintsAtOtherTimes(cfg: Config, w: World, run: seq<Action>, sid: string, issuedAt: int)
    requires Inv(cfg, w) && Possible(cfg, w, run)
    decreases run
  {
    run == [] ||
    (var mint := MintOf(cfg, w, run[0]);
     (mint.Some? && mint.value.sessionId == sid ==> mint.value.issuedAt != issuedAt)
     && (InvNext(cfg, w, run[0]); MintsAtOtherTimes(cfg, Next(cfg, w, run[0]), run[1..], sid, issuedAt)))
  }

  /** The same on a clock that stands still, if the session's own mints do not fall on that reading again. */
  lemma {:induction false} OtherTimesNeverRestore(cfg: Config, w: World, run: seq<Action>, t: string)
    requires Inv(cfg, w) && Possible(cfg, w, run) && t in w.minted && t !in w.bed.store
    requires cfg.codec.decode(t).Decoded?
    requires var c := cfg.codec.decode(t).claims; MintsAtOtherTimes(cfg, w, run, c.sessionId, c.issuedAt)
    ensures t !in Exec(cfg, w, run).bed.store
    decreases run
  {
    if run != [] {
      InvNext(cfg, w, run[0]);
      StepBrings(cfg, w, run[0]);
      BookkeepingNext(cfg, w, run[0]);
      if MintOf(cfg, w, run[0]).Some? {
        MintIsGenuine(cfg, w, run[0]);
        var rec := MintOf(cfg, w, run[0]).value;
        assert cfg.codec.decode(cfg.codec.encode(rec.claims)) == Decoded(rec.claims);
        assert rec.claims.sessionId == rec.sessionId && rec.claims.issuedAt == rec.issuedAt;
      }
      hide Inv, Next, MintOf, Genuine;
      OtherTimesNeverRestore(cfg, Next(cfg, w, run[0]), run[1..], t);
    }
  }

  /** So a token that cannot come back is refused at every later reconnect, refresh and gate. */
  lemma GoneIsRefusedForever(cfg: Config, w: World, run: seq<Action>, t: string, at: Reads)
    requires Inv(cfg, w) && Possible(cfg, w, run) && t in w.minted && t !in w.bed.store && !Returnable(cfg, w, t)
    ensures var s := Exec(cfg, w, run).bed.store;
      && Present(cfg, s, t, at).Refused?
      && (forall gate, token, first, second :: Strip(token) == t ==>
            !Validate(gate, cfg, s, token, first, second).1.Accepted?)
  {
    GoneForGood(cfg, w, run, t);
    AbsentIsRefused(cfg, Exec(cfg, w, run).bed.store, t, at);
  }

  /** A revoked token is such a one at once, whatever the clock: it was its session's only token. */
  lemma RevokedForGood(cfg: Config, w: World, a: Action)
    requires Inv(cfg, w) && Enabled(w, a) && a.DoRevoke? && a.allow && a.token in w.bed.store
    ensures var w' := Next(cfg, w, a);
      a.token in w'.minted && a.token !in w'.bed.store && !Returnable(cfg, w', a.token)
  {
    RevokeSucceedsIff(cfg, w, a);
    ReachableIsMirrored(cfg, w);
    assert Genuine(cfg, w.members, a.token, w.bed.store[a.token]);
    OneEach(cfg, w, a.token);
    hide StoreInv, MintedInv, RegInv, Step, Mirrored;
  }

  lemma OneEach(cfg: Config, w: World, token: string)
    requires Inv(cfg, w) && token in w.bed.store
    ensures forall t :: t in w.bed.store && w.bed.store[t].sessionId == w.bed.store[token].sessionId ==> t == token
  {
  }

  /** So is a token that went because its time was up. */
  lemma ExpiredForGood(cfg: Config, w: World, t: string)
    requires Inv(cfg, w) && t in w.minted && t !in w.bed.store
    requires cfg.codec.decode(t).Decoded? && cfg.codec.decode(t).claims.expiresAt <= w.clock
    ensures !Returnable(cfg, w, t)
  {
    assert cfg.codec.decode(t).claims.expiresAt == cfg.codec.decode(t).claims.issuedAt + cfg.ttl;
  }

  // ------------------------------------------------------------ stored tokens

  /** The steps that take a live token out of the store: an allowed revocation, and its own rotation. */
  ghost predicate Spends(cfg: Config, w: World, a: Action, t: string) {
    || (a.DoRevoke? && a.allow && a.token == t)
    || ((a.DoReconnect? || a.DoRefresh?) && TokenOf(a) == t && MintOf(cfg, w, a).Some?
        && (a.put == Kept || MintOf(cfg, w, a).value.token == t))
  }

  /** t is stored with the same record. */
  ghost predicate Keeps(s: Records, post: Records, t: string) {
    t in s && t in post && post[t] == s[t]
  }

  /** The record of a stored token expires when its claims do and is of this instance. */
  ghost predicate Sound(cfg: Config, s: Records, t: string) {
    && t in s && s[t].instanceId == cfg.instanceId
    && cfg.codec.decode(t).Decoded? && cfg.codec.decode(t).claims.expiresAt == s[t].expiresAt
  }

  lemma StoredIsSound(cfg: Config, w: World, t: string)
    requires Inv(cfg, w) && t in w.bed.store
    ensures Sound(cfg, w.bed.store, t) && cfg.codec.decode(t).claims.sessionId in w.members
  {
    ReachableIsMirrored(cfg, w);
    assert Genuine(cfg, w.members, t, w.bed.store[t]);
    hide MintedInv, RegInv;
  }

  lemma PresentKeeps(cfg: Config, s: Records, t: string, token: string, at: Reads)
    requires Sound(cfg, s, t) && at.check < s[t].expiresAt && at.lookup < s[t].expiresAt
    ensures Keeps(s, Present(cfg, s, token, at).store, t)
  {
  }

  lemma ValidateKeeps(gate: Gate, cfg: Config, s: Records, t: string, token: string, first: int, second: int)
    requires Sound(cfg, s, t) && first < s[t].expiresAt && second < s[t].expiresAt
    ensures Keeps(s, Validate(gate, cfg, s, token, first, second).0, t)
    ensures Sound(cfg, Validate(gate, cfg, s, token, first, second).0, t)
  {
    hide Strip;
  }

  lemma ResolveKeeps(gate: Gate, cfg: Config, bed: Bed<nat>, spare: nat, ws: Option<string>, token: string,
                     first: int, second: int, t: string)
    requires Keyed(bed.reg) && Sound(cfg, bed.store, t)
    requires first < bed.store[t].expiresAt && second < bed.store[t].expiresAt
    ensures var post := Resolve(gate, cfg, bed, spare, ws, token, first, second).0.store;
      Keeps(bed.store, post, t) && Sound(cfg, post, t)
  {
    ValidateKeeps(gate, cfg, bed.store, t, token, first, second);
    hide Validate, LazyBind, Strip;
  }

  lemma CheckAccessKeeps(gate: Gate, cfg: Config, bed: Bed<nat>, spare: nat, ws: Option<string>, token: string,
                         first: int, second: int, t: string)
    requires Keyed(bed.reg) && Sound(cfg, bed.store, t)
    requires first < bed.store[t].expiresAt && second < bed.store[t].expiresAt
    ensures Keeps(bed.store, CheckAccess(gate, cfg, bed, spare, ws, token, first, second).0.store, t)
  {
    ResolveKeeps(gate, cfg, bed, spare, ws, token, first, second, t);
    var (bed', access) := Resolve(gate, cfg, bed, spare, ws, token, first, second);
    ValidateKeeps(gate, cfg, bed'.store, t, token, first, second);
    var s' := Validate(gate, cfg, bed'.store, token, first, second).0;
    if access.Granted? {
      var own := bed'.reg.heap[access.state].authServiceToken;
      ValidateKeeps(gate, cfg, s', t, if own.Some? then own.value else "", first, second);
    }
    hide Resolve, Validate, Sound, Keyed;
  }

  lemma GateKeeps(cfg: Config, w: World, a: Action, t: string)
    requires Inv(cfg, w) && Enabled(w, a) && a.DoGate? && t in w.bed.store
    requires Next(cfg, w, a).clock < w.bed.store[t].expiresAt
    ensures Keeps(w.bed.store, Next(cfg, w, a).bed.store, t)
  {
    StoredIsSound(cfg, w, t);
    CheckAccessKeeps(a.gate, cfg, w.bed, a.spare, a.ws, a.token, a.first, a.second, t);
    hide Inv, CheckAccess, Sound, Keeps;
  }

  lemma RotationKeepsIff(cfg: Config, w: World, a: Action, t: string)
    requires Inv(cfg, w) && Enabled(w, a) && (a.DoReconnect? || a.DoRefresh?)
    requires MintOf(cfg, w, a).Some? && t in w.bed.store
    ensures t in Next(cfg, w, a).bed.store <==> !Spends(cfg, w, a, t)
    ensures t in Next(cfg, w, a).bed.store ==> Keeps(w.bed.store, Next(cfg, w, a).bed.store, t)
  {
    StepStore(cfg, w, a);
    RotatedTokenIff(cfg, w, a);
    RotatesKeepsIff(w.bed.store, TokenOf(a), MintOf(cfg, w, a).value, a.put, Next(cfg, w, a).bed.store, t);
    hide Inv, Step, MintOf, Enabled, Rotates, Keeps;
  }

  lemma RotatesKeepsIff(s: Records, token: string, rec: TokenRecord, put: PutOutcome, post: Records, t: string)
    requires Rotates(s, token, rec, put, post) && t in s && (rec.token == token || rec.token !in s)
    ensures t in post <==> !(token == t && (put == Kept || rec.token == t))
    ensures t in post ==> Keeps(s, post, t)
  {
  }

  lemma UnmintedKeeps(cfg: Config, w: World, a: Action, t: string)
    requires Inv(cfg, w) && Enabled(w, a) && (a.DoReconnect? || a.DoRefresh?) && MintOf(cfg, w, a).None?
    requires t in w.bed.store && Next(cfg, w, a).clock < w.bed.store[t].expiresAt
    ensures Keeps(w.bed.store, Next(cfg, w, a).bed.store, t)
  {
    StoredIsSound(cfg, w, t);
    PresentKeeps(cfg, w.bed.store, t, TokenOf(a), a.at);
    hide Inv, Sound, Present, Keeps, ForgetPending, Bind, BoundRef, Refreshed, Mint, Rotated, RolledBack;
    assert Keeps(w.bed.store, w.bed.store, t) by { KeepsItself(w.bed.store, t); }
  }

  lemma KeepsItself(s: Records, t: string)
    requires t in s
    ensures Keeps(s, s, t)
  {
  }

  lemma LoginKeeps(cfg: Config, w: World, a: Action, t: string)
    requires Inv(cfg, w) && Enabled(w, a) && a.DoLogin? && t in w.bed.store
    ensures Keeps(w.bed.store, Next(cfg, w, a).bed.store, t)
  {
    InvKeyed(cfg, w);
    hide Inv, Step, MintOf, Enabled, Keeps;
    StepStore(cfg, w, a);
    KeepsItself(w.bed.store, t);
    if MintOf(cfg, w, a).Some? {
      MintsForLive(cfg, w, a);
      MintReads(cfg, w, a);
      StoredIsSound(cfg, w, t);
      StoringKeeps(w.bed.store, MintOf(cfg, w, a).value, a.put, t);
    } else {
      UnmintedLogin(cfg, w, a);
    }
  }

  lemma StoringKeeps(s: Records, rec: TokenRecord, put: PutOutcome, t: string)
    requires t in s && rec.token != t
    ensures Keeps(s, Persisted(s, rec, put), t)
  {
  }

  lemma UnmintedLogin(cfg: Config, w: World, a: Action)
    requires Inv(cfg, w) && Enabled(w, a) && a.DoLogin? && MintOf(cfg, w, a).None?
    ensures Next(cfg, w, a).bed.store == w.bed.store
  {
    InvKeyed(cfg, w);
    hide Inv, Enabled, Bind, BoundRef, Strip;
  }

  /** A token that is live after a step is still stored, with its record, exactly when the step does not spend it. */
  lemma StaysIff(cfg: Config, w: World, a: Action, t: string)
    requires Inv(cfg, w) && Enabled(w, a) && t in w.bed.store && Next(cfg, w, a).clock < w.bed.store[t].expiresAt
    ensures t in Next(cfg, w, a).bed.store <==> !Spends(cfg, w, a, t)
    ensures t in Next(cfg, w, a).bed.store ==> Next(cfg, w, a).bed.store[t] == w.bed.store[t]
  {
    InvKeyed(cfg, w);
    hide Inv, Enabled, Next, Step, MintOf;
    if a.DoReconnect? || a.DoRefresh? {
      if MintOf(cfg, w, a).Some? { RotationKeepsIff(cfg, w, a, t); } else { UnmintedKeeps(cfg, w, a, t); }
    } else if a.DoRevoke? {
      RevokeKeeps(cfg, w, a, t);
    } else if a.DoGate? {
      GateKeeps(cfg, w, a, t);
    } else if a.DoLogin? {
      LoginKeeps(cfg, w, a, t);
    } else {
      OtherKeeps(cfg, w, a, t);
    }
  }

  lemma RevokeKeeps(cfg: Config, w: World, a: Action, t: string)
    requires Inv(cfg, w) && Enabled(w, a) && a.DoRevoke? && t in w.bed.store
    ensures if a.allow && a.token == t then t !in Next(cfg, w, a).bed.store
            else Keeps(w.bed.store, Next(cfg, w, a).bed.store, t)
  {
    InvKeyed(cfg, w);
    hide *;
    RevokeStep(cfg, w, a);
    if a.token in w.bed.store { StoredDecodes(cfg, w, a.token); }
    RevokeRemoves(cfg, w.bed.store, a.token, a.allow);
    RemovalKeeps(w.bed.store, a.token, t);
    KeepsItself(w.bed.store, t);
  }

  lemma RemovalKeeps(s: Records, token: string, t: string)
    requires t in s
    ensures if token == t then t !in s - {token} else Keeps(s, s - {token}, t)
  {
  }

  lemma RevokeStep(cfg: Config, w: World, a: Action)
    requires Keyed(w.bed.reg) && Enabled(w, a) && a.DoRevoke?
    ensures Next(cfg, w, a).bed.store == Revoke(cfg, w.bed.store, a.token, a.allow).0
  {
    hide Keyed, Revoke;
  }

  lemma StoredDecodes(cfg: Config, w: World, t: string)
    requires Inv(cfg, w) && t in w.bed.store
    ensures t != "" && cfg.codec.decode(t).Decoded?
  {
    StoredIsSound(cfg, w, t);
    AcceptsStored(FamilyGate, cfg, w, t, w.bed.store[t].expiresAt - 1);
    hide Inv, Validate, Strip;
  }

  lemma OtherKeeps(cfg: Config, w: World, a: Action, t: string)
    requires Inv(cfg, w) && Enabled(w, a) && (a.DoGet? || a.DoCollect? || a.DoRegistry?) && t in w.bed.store
    requires Next(cfg, w, a).clock < w.bed.store[t].expiresAt
    ensures Keeps(w.bed.store, Next(cfg, w, a).bed.store, t)
  {
    hide Inv, Apply;
  }

  ghost predicate NeverSpent(cfg: Config, w: World, run: seq<Action>, t: string)
    requires Inv(cfg, w) && Possible(cfg, w, run)
    decreases run
  {
    run == [] ||
    (!Spends(cfg, w, run[0], t) && (InvNext(cfg, w, run[0]); NeverSpent(cfg, Next(cfg, w, run[0]), run[1..], t)))
  }

  ghost predicate StoredThroughout(cfg: Config, w: World, run: seq<Action>, t: string)
    requires Inv(cfg, w) && Possible(cfg, w, run)
    decreases run
  {
    t in w.bed.store &&
    (run == [] || (InvNext(cfg, w, run[0]); StoredThroughout(cfg, Next(cfg, w, run[0]), run[1..], t)))
  }

  lemma {:induction false} ClockRises(cfg: Config, w: World, run: seq<Action>)
    requires Inv(cfg, w) && Possible(cfg, w, run)
    ensures w.clock <= Exec(cfg, w, run).clock && w.minted <= Exec(cfg, w, run).minted
    decreases run
  {
    if run != [] {
      InvNext(cfg, w, run[0]);
      BookkeepingNext(cfg, w, run[0]);
      hide Inv, Next;
      ClockRises(cfg, Next(cfg, w, run[0]), run[1..]);
    }
  }

  /**
    Over every run that ends before the token expires: it is stored in all the states in between,
    with the same record, exactly when no step spends it.
   */
  lemma {:induction false} StoredThroughoutIff(cfg: Config, w: World, run: seq<Action>, t: string)
    requires Inv(cfg, w) && Possible(cfg, w, run)
    requires t in w.bed.store && Exec(cfg, w, run).clock < w.bed.store[t].expiresAt
    ensures StoredThroughout(cfg, w, run, t) <==> NeverSpent(cfg, w, run, t)
    ensures NeverSpent(cfg, w, run, t) ==> Keeps(w.bed.store, Exec(cfg, w, run).bed.store, t)
    decreases run
  {
    if run != [] {
      var w' := Next(cfg, w, run[0]);
      InvNext(cfg, w, run[0]);
      ClockRises(cfg, w', run[1..]);
      StaysIff(cfg, w, run[0], t);
      hide Inv, Next, Spends, Enabled;
      if t in w'.bed.store { StoredThroughoutIff(cfg, w', run[1..], t); }
    }
  }

  /**
    The token a login, reconnect or refresh has answered with, unless it minted the presented one
    again, works until it expires: anywhere in a run that does not spend it, reconnect, refresh and
    both gates accept it.
   */
  lemma HandedOutWorks(cfg: Config, w: World, a: Action, run: seq<Action>, gate: Gate, now: int)
    requires Inv(cfg, w) && Enabled(w, a) && (a.DoLogin? || a.DoReconnect? || a.DoRefresh?)
    requires MintOf(cfg, w, a).Some? && a.put == Kept && (a.DoLogin? || MintOf(cfg, w, a).value.token != TokenOf(a))
    requires var w', t := Next(cfg, w, a), MintOf(cfg, w, a).value.token;
      && Inv(cfg, w') && Possible(cfg, w', run) && NeverSpent(cfg, w', run, t)
      && Exec(cfg, w', run).clock <= now < MintOf(cfg, w, a).value.issuedAt + cfg.ttl
    ensures var s, rec := Exec(cfg, Next(cfg, w, a), run).bed.store, MintOf(cfg, w, a).value;
      && Present(cfg, s, rec.token, Reads(now, now, now)) == Valid(s, rec)
      && Validate(gate, cfg, s, rec.token, now, now) == (s, Accepted(rec.claims))
  {
    HandedOutIff(cfg, w, a);
    hide Inv, Step, MintOf, Enabled, Next, Present, Validate, Possible, Exec, NeverSpent;
    var w', rec := Next(cfg, w, a), MintOf(cfg, w, a).value;
    StoredThroughoutIff(cfg, w', run, rec.token);
    var w'' := Exec(cfg, w', run);
    AcceptsStored(gate, cfg, w'', rec.token, now);
    PresentsStored(cfg, w'', rec.token, Reads(now, now, now));
  }
}
