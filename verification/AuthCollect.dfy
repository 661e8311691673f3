/**
  Garbage collection cannot be told from the outside: collecting expired records, or looking
  tokens up, anywhere in a run changes no later reply of login, reconnect or refresh and no later
  decision of a gate. (A revocation does tell: it answers whether the record was still there.)
 */
module AuthCollect {
  import opened Basics
  import opened PyText
  import opened Tokens
  import opened TokenStore
  import opened Sessions
  import opened AuthSpec
  import opened AuthRuns
  import opened AuthInvariant

  /** The same live records at n. */
  ghost predicate SameLive(s: Records, s': Records, n: int) {
    Collected(s, n) == Collected(s', n)
  }

  lemma SameLiveLater(s: Records, s': Records, n: int, m: int)
    requires SameLive(s, s', n) && n <= m
    ensures SameLive(s, s', m)
  {
    CollectTwice(s, n, m);
    CollectTwice(s', n, m);
  }

  lemma SameLiveLookup(s: Records, s': Records, n: int, t: string, m: int)
    requires SameLive(s, s', n) && n <= m
    ensures Live(s, t, m) == Live(s', t, m)
    ensures SameLive(AfterGet(s, t, m), AfterGet(s', t, m), m)
    ensures SameLive(AfterGet(s, t, m), s', m)
  {
    GetAfterCollect(s, t, n, m);
    GetAfterCollect(s', t, n, m);
    SameLiveLater(s, s', n, m);
    GetAfterCollect(s, t, m, m);
    GetAfterCollect(s', t, m, m);
    hide Collected, AfterGet, Live;
  }

  lemma SameLiveRemoved(s: Records, s': Records, n: int, t: string)
    requires SameLive(s, s', n)
    ensures SameLive(Removed(s, t), Removed(s', t), n)
  {
    var m := Collected(s, n);
    assert Collected(Removed(s, t), n) == Removed(m, t);
    assert Collected(Removed(s', t), n) == Removed(m, t);
  }

  lemma SameLiveStored(s: Records, s': Records, n: int, rec: TokenRecord)
    requires SameLive(s, s', n)
    ensures SameLive(Stored(s, rec), Stored(s', rec), n)
  {
    assert forall t :: t in Collected(s, n) <==> t in s && n < s[t].expiresAt;
    assert forall t :: t in Collected(s', n) <==> t in s' && n < s'[t].expiresAt;
    assert forall t :: t in Collected(s, n) ==> s[t] == Collected(s, n)[t] == s'[t];
  }

  // ---------------------------------------------------- the gates and checks

  lemma ValidateAlike(gate: Gate, cfg: Config, s: Records, s': Records, n: int, token: string, first: int, second: int)
    requires SameLive(s, s', n) && n <= first <= second
    ensures Validate(gate, cfg, s, token, first, second).1 == Validate(gate, cfg, s', token, first, second).1
    ensures SameLive(Validate(gate, cfg, s, token, first, second).0,
      Validate(gate, cfg, s', token, first, second).0, second)
    ensures Validate(gate, cfg, s, token, first, second).1.NoToken? ==>
      Validate(gate, cfg, s, token, first, second).0 == s && Validate(gate, cfg, s', token, first, second).0 == s'
  {
    hide Collected, AfterGet, Live, Removed, SameLive, Strip;
    var t := Strip(token);
    SameLiveLookup(s, s', n, t, first);
    SameLiveLookup(s, s', n, t, second);
    SameLiveLater(AfterGet(s, t, first), AfterGet(s', t, first), first, second);
    SameLiveLater(s, s', n, second);
    SameLiveRemoved(s, s', second, t);
  }

  lemma ResolveAlike(gate: Gate, cfg: Config, bed: Bed<nat>, bed': Bed<nat>, n: int, spare: nat,
                     ws: Option<string>, token: string, first: int, second: int)
    requires Keyed(bed.reg) && bed'.reg == bed.reg && SameLive(bed.store, bed'.store, n) && n <= first <= second
    ensures var (b, access) := Resolve(gate, cfg, bed, spare, ws, token, first, second);
      var (b', access') := Resolve(gate, cfg, bed', spare, ws, token, first, second);
      && access == access' && b.reg == b'.reg && SameLive(b.store, b'.store, second)
      && (access.Granted? && access.claims.None? ==> b == bed && b' == bed')
  {
    SameLiveLater(bed.store, bed'.store, n, second);
    ValidateAlike(gate, cfg, bed.store, bed'.store, n, token, first, second);
    hide Validate, LazyBind, SameLive, Strip, Keyed;
  }

  lemma CheckAccessAlike(gate: Gate, cfg: Config, bed: Bed<nat>, bed': Bed<nat>, n: int, spare: nat,
                         ws: Option<string>, token: string, first: int, second: int)
    requires Keyed(bed.reg) && bed'.reg == bed.reg && SameLive(bed.store, bed'.store, n) && n <= first <= second
    ensures var (b, access) := CheckAccess(gate, cfg, bed, spare, ws, token, first, second);
      var (b', access') := CheckAccess(gate, cfg, bed', spare, ws, token, first, second);
      access == access' && b.reg == b'.reg && SameLive(b.store, b'.store, second)
  {
    ResolveAlike(gate, cfg, bed, bed', n, spare, ws, token, first, second);
    ValidateAlike(gate, cfg, bed.store, bed'.store, n, token, first, second);
    var access := Resolve(gate, cfg, bed, spare, ws, token, first, second).1;
    if access.Granted? && access.claims.None? {
      var own := bed.reg.heap[access.state].authServiceToken;
      ValidateAlike(gate, cfg, bed.store, bed'.store, n, if own.Some? then own.value else "", first, second);
    }
    hide Validate, Resolve, SameLive, Keyed;
  }

  lemma PresentAlike(cfg: Config, s: Records, s': Records, n: int, token: string, at: Reads)
    requires SameLive(s, s', n) && n <= at.check <= at.lookup
    ensures var p, p' := Present(cfg, s, token, at), Present(cfg, s', token, at);
      && (p.Refused? <==> p'.Refused?)
      && (p.Refused? ==> p.reply == p'.reply)
      && (p.Valid? ==> p.rec == p'.rec)
      && SameLive(p.store, p'.store, at.lookup)
  {
    hide Collected, AfterGet, Live, Removed, SameLive;
    SameLiveLookup(s, s', n, token, at.lookup);
    SameLiveLater(s, s', n, at.lookup);
    SameLiveRemoved(s, s', at.lookup, token);
  }

  lemma RotationAlike(s: Records, s': Records, n: int, m: int, token: string, rec: TokenRecord, put: PutOutcome)
    requires SameLive(s, s', n) && n <= m
    ensures SameLive(Rotated(s, token, rec), Rotated(s', token, rec), m)
    ensures SameLive(RolledBack(s, rec, put), RolledBack(s', rec, put), m)
    ensures SameLive(Persisted(s, rec, put), Persisted(s', rec, put), m)
  {
    SameLiveLater(s, s', n, m);
    SameLiveStored(s, s', m, rec);
    SameLiveRemoved(Stored(s, rec), Stored(s', rec), m, token);
    SameLiveRemoved(Persisted(s, rec, put), Persisted(s', rec, put), m, rec.token);
    hide SameLive, Stored, Removed;
  }

  // --------------------------------------------------------------- worlds

  /** The second world has the same history but has collected more, possibly at later readings. */
  ghost predicate Alike(w: World, w': World) {
    && w'.bed.reg == w.bed.reg && w'.lastMint == w.lastMint && w'.minted == w.minted && w'.members == w.members
    && w.clock <= w'.clock
    && SameLive(w.bed.store, w'.bed.store, w'.clock)
  }

  lemma EnabledAlike(w: World, w': World, a: Action)
    requires Alike(w, w') && Enabled(w', a)
    ensures Enabled(w, a)
  {
    hide SameLive;
  }

  lemma ReconnectAlike(cfg: Config, w: World, w': World, a: Action)
    requires Keyed(w.bed.reg) && Alike(w, w') && Enabled(w, a) && Enabled(w', a) && (a.DoReconnect? || a.DoRefresh?)
    ensures Step(cfg, w, a).1 == Step(cfg, w', a).1 && MintOf(cfg, w, a) == MintOf(cfg, w', a)
    ensures Step(cfg, w, a).0.reg == Step(cfg, w', a).0.reg
    ensures SameLive(Step(cfg, w, a).0.store, Step(cfg, w', a).0.store, ReadingOf(w', a))
  {
    var s, s', token := w.bed.store, w'.bed.store, TokenOf(a);
    var p, p' := Present(cfg, s, token, a.at), Present(cfg, s', token, a.at);
    PresentAlike(cfg, s, s', w'.clock, token, a.at);
    SameLiveLater(p.store, p'.store, a.at.lookup, a.at.mint);
    SameLiveLater(s, s', w'.clock, a.at.mint);
    if MintOf(cfg, w, a).Some? {
      RotationAlike(p.store, p'.store, a.at.lookup, a.at.mint, token, MintOf(cfg, w, a).value, a.put);
    }
    hide Present, Bind, BoundRef, ForgetPending, SameLive, Rotated, RolledBack, Mint;
  }

  lemma LoginAlike(cfg: Config, w: World, w': World, a: Action)
    requires Keyed(w.bed.reg) && Alike(w, w') && Enabled(w, a) && Enabled(w', a) && a.DoLogin?
    ensures Step(cfg, w, a).1 == Step(cfg, w', a).1
    ensures Step(cfg, w, a).0.reg == Step(cfg, w', a).0.reg
    ensures SameLive(Step(cfg, w, a).0.store, Step(cfg, w', a).0.store, a.now)
  {
    var s, s' := w.bed.store, w'.bed.store;
    SameLiveLater(s, s', w'.clock, a.now);
    if MintOf(cfg, w, a).Some? { RotationAlike(s, s', w'.clock, a.now, "", MintOf(cfg, w, a).value, a.put); }
    hide Bind, BoundRef, SameLive, Mint, Persisted, LoginArgs, WithToken, WithBalance;
  }

  lemma RevokeAlike(cfg: Config, s: Records, s': Records, n: int, token: string, allow: bool)
    requires SameLive(s, s', n)
    ensures SameLive(Revoke(cfg, s, token, allow).0, Revoke(cfg, s', token, allow).0, n)
  {
    SameLiveRemoved(s, s', n, token);
    if token !in s { assert Removed(s, token) == s; }
    if token !in s' { assert Removed(s', token) == s'; }
    hide SameLive, Removed;
  }

  /** One step from alike worlds gives the same answer, revocations apart, and alike worlds again. */
  lemma StepAlike(cfg: Config, w: World, w': World, a: Action)
    requires Keyed(w.bed.reg) && Alike(w, w') && Enabled(w, a) && Enabled(w', a)
    ensures a.DoRevoke? || Step(cfg, w, a).1 == Step(cfg, w', a).1
    ensures Alike(Next(cfg, w, a), Next(cfg, w', a))
  {
    var s, s', n := w.bed.store, w'.bed.store, w'.clock;
    match a
    case DoReconnect(_, _, _, _, _, _) => ReconnectAlike(cfg, w, w', a); hide Step, MintOf, SameLive;
    case DoRefresh(_, _, _, _, _) => ReconnectAlike(cfg, w, w', a); hide Step, MintOf, SameLive;
    case DoLogin(_, _, _, _, _, _, _, _, _, _) => LoginAlike(cfg, w, w', a); hide Step, SameLive;
    case DoRevoke(token, allow) => RevokeAlike(cfg, s, s', n, token, allow); hide SameLive, Revoke;
    case DoGate(gate, spare, ws, token, first, second) =>
      CheckAccessAlike(gate, cfg, w.bed, w'.bed, n, spare, ws, token, first, second);
      hide CheckAccess, SameLive;
    case DoGet(token, now) => SameLiveLookup(s, s', n, token, now); hide SameLive, AfterGet;
    case DoCollect(now) =>
      var m := Later(n, now);
      CollectTwice(s, now, m);
      CollectTwice(s', now, m);
      SameLiveLater(s, s', n, m);
      hide Collected;
    case DoRegistry(op) => hide SameLive, Apply;
  }

  predicate Housekeeping(a: Action) { a.DoGet? || a.DoCollect? }

  /** Housekeeping in the second world alone keeps the worlds alike. */
  lemma HousekeepingAlike(cfg: Config, w: World, w': World, a: Action)
    requires Keyed(w.bed.reg) && Alike(w, w') && Enabled(w', a) && Housekeeping(a)
    ensures Alike(w, Next(cfg, w', a))
  {
    var s, s', n := w.bed.store, w'.bed.store, w'.clock;
    match a
    case DoGet(token, now) =>
      assert SameLive(s', s, n);
      SameLiveLookup(s', s, n, token, now);
      hide AfterGet;
    case DoCollect(now) =>
      CollectTwice(s', now, Later(n, now));
      SameLiveLater(s, s', n, Later(n, now));
  }

  // ----------------------------------------------------------------- runs

  /** run' is run with housekeeping inserted anywhere. */
  ghost predicate Inserted(run: seq<Action>, run': seq<Action>)
    decreases |run'|
  {
    if run' == [] then run == []
    else
      || (run != [] && run'[0] == run[0] && Inserted(run[1..], run'[1..]))
      || (Housekeeping(run'[0]) && Inserted(run, run'[1..]))
  }

  /** What the clients see of a run: every answer but those of housekeeping and of revocations. */
  ghost function Answers(cfg: Config, w: World, run: seq<Action>): seq<Answer>
    requires Inv(cfg, w) && Possible(cfg, w, run)
    decreases run
  {
    if run == [] then []
    else
      InvNext(cfg, w, run[0]);
      (if Housekeeping(run[0]) || run[0].DoRevoke? then [] else [Step(cfg, w, run[0]).1])
        + Answers(cfg, Next(cfg, w, run[0]), run[1..])
  }

  lemma {:induction false} InsertedIsUnseen(cfg: Config, w: World, w': World, run: seq<Action>, run': seq<Action>)
    requires Inv(cfg, w) && Inv(cfg, w') && Alike(w, w')
    requires Possible(cfg, w', run') && Inserted(run, run')
    ensures Possible(cfg, w, run)
    ensures Answers(cfg, w, run) == Answers(cfg, w', run')
    ensures Alike(Exec(cfg, w, run), Exec(cfg, w', run'))
    decreases |run'|
  {
    if run' != [] {
      var a := run'[0];
      InvNext(cfg, w', a);
      if run != [] && a == run[0] && Inserted(run[1..], run'[1..]) {
        EnabledAlike(w, w', a);
        InvNext(cfg, w, a);
        StepAlike(cfg, w, w', a);
        hide Inv, Next, Step, Alike, Enabled;
        InsertedIsUnseen(cfg, Next(cfg, w, a), Next(cfg, w', a), run[1..], run'[1..]);
      } else {
        HousekeepingAlike(cfg, w, w', a);
        hide Inv, Next, Step, Alike, Enabled;
        InsertedIsUnseen(cfg, w, Next(cfg, w', a), run, run'[1..]);
      }
    }
  }

  /** Collections and lookups inserted anywhere in a run change no answer the clients see, and no later lookup. */
  lemma CollectionIsUnseen(cfg: Config, w: World, run: seq<Action>, run': seq<Action>)
    requires Inv(cfg, w) && Possible(cfg, w, run') && Inserted(run, run')
    ensures Possible(cfg, w, run) && Answers(cfg, w, run) == Answers(cfg, w, run')
    ensures forall t, m :: Exec(cfg, w, run').clock <= m ==>
      Live(Exec(cfg, w, run).bed.store, t, m) == Live(Exec(cfg, w, run').bed.store, t, m)
  {
    InsertedIsUnseen(cfg, w, w, run, run');
    hide Possible, Exec, Inv, Inserted, Answers, SameLive, Live;
    var s, s', n := Exec(cfg, w, run).bed.store, Exec(cfg, w, run').bed.store, Exec(cfg, w, run').clock;
    forall t, m | n <= m ensures Live(s, t, m) == Live(s', t, m) {
      SameLiveLookup(s, s', n, t, m);
    }
  }

  /**
    The collector runs in a worker thread, so it may strike between the store operations of one
    rotation, at any readings. The outcome is that of collecting after the rotation, whether it
    goes through or is rolled back.
   */
  lemma CollectInsideRotation(s: Records, token: string, rec: TokenRecord, put: PutOutcome, n1: int, n2: int, m: int)
    requires n1 <= m && n2 <= m
    ensures Collected(Removed(Collected(Stored(Collected(s, n1), rec), n2), token), m)
         == Collected(Rotated(s, token, rec), m)
    ensures Collected(Removed(Collected(Persisted(Collected(s, n1), rec, put), n2), rec.token), m)
         == Collected(RolledBack(s, rec, put), m)
  {
    CollectTwice(s, n1, m);
    RotationAlike(Collected(s, n1), s, m, m, token, rec, put);
    var kept, raised := Stored(Collected(s, n1), rec), Persisted(Collected(s, n1), rec, put);
    CollectTwice(kept, n2, m);
    CollectTwice(raised, n2, m);
    SameLiveRemoved(Collected(kept, n2), kept, m, token);
    SameLiveRemoved(Collected(raised, n2), raised, m, rec.token);
    hide Collected, Stored, Removed, Persisted;
  }

  /** A revocation can tell a collection, exactly when the token is still stored and its time is up. */
  lemma RevocationTellsIff(cfg: Config, s: Records, t: string, now: int)
    requires t != "" && cfg.codec.decode(t).Decoded?
    ensures Revoke(cfg, s, t, true).1 != Revoke(cfg, Collected(s, now), t, true).1
       <==> t in s && s[t].expiresAt <= now
  {
    assert t in Collected(s, now) <==> t in s && now < s[t].expiresAt;
    assert RevokeResult(true, None, false) != RevokeResult(false, Some(TokenRevoked), true);
  }
}
