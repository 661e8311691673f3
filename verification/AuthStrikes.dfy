/**
  Collections that strike inside a call. A handler makes its store calls one after the other, each
  under the store's lock, and what it does next depends on the store only through what its lookup
  answered. The collector may take the lock between any two of them.
 */
module AuthStrikes {
  import opened Basics
  import opened PyText
  import opened Tokens
  import opened TokenStore
  import opened Sessions
  import opened AuthSpec
  import opened AuthRuns
  import opened AuthInvariant
  import opened AuthAnswers
  import opened AuthCollect

  // ------------------------------------------------------------ store calls

  datatype StoreCall =
    | GetCall(token: string, now: int)
    | PutCall(rec: TokenRecord)
    | DeleteCall(token: string)
    | CollectCall(now: int)

  function After(s: Records, c: StoreCall): Records {
    match c
    case GetCall(token, now) => AfterGet(s, token, now)
    case PutCall(rec) => Stored(s, rec)
    case DeleteCall(token) => Removed(s, token)
    case CollectCall(now) => Collected(s, now)
  }

  function Performed(s: Records, calls: seq<StoreCall>): Records
    decreases calls
  {
    if calls == [] then s else Performed(After(s, calls[0]), calls[1..])
  }

  /** What the lookups among the calls answer. */
  function Lookups(s: Records, calls: seq<StoreCall>): seq<Option<TokenRecord>>
    decreases calls
  {
    if calls == [] then []
    else
      var answer := if calls[0].GetCall? then [Live(s, calls[0].token, calls[0].now)] else [];
      answer + Lookups(After(s, calls[0]), calls[1..])
  }

  /** The calls without the collections among them. */
  function Unstruck(calls: seq<StoreCall>): seq<StoreCall>
    decreases calls
  {
    if calls == [] then []
    else if calls[0].CollectCall? then Unstruck(calls[1..])
    else [calls[0]] + Unstruck(calls[1..])
  }

  /** The latest of n and the readings the collections come with. */
  function Horizon(n: int, calls: seq<StoreCall>): int
    decreases calls
  {
    if calls == [] then n else Horizon(if calls[0].CollectCall? then Later(n, calls[0].now) else n, calls[1..])
  }

  /**
    A lookup reads the clock under the lock, so later than any collection that came before; a
    collection reads it before it takes the lock, so at any time.
   */
  predicate Timely(n: int, calls: seq<StoreCall>)
    decreases calls
  {
    calls == [] ||
    match calls[0]
    case GetCall(_, now) => n <= now && Timely(n, calls[1..])
    case CollectCall(now) => Timely(Later(n, now), calls[1..])
    case _ => Timely(n, calls[1..])
  }

  lemma GetAlike(s: Records, s': Records, n: int, t: string, m: int)
    requires SameLive(s, s', n) && n <= m
    ensures Live(s, t, m) == Live(s', t, m)
    ensures SameLive(AfterGet(s, t, m), AfterGet(s', t, m), n)
  {
    assert forall x :: x in Collected(s, n) <==> x in s && n < s[x].expiresAt;
    assert forall x :: x in Collected(s', n) <==> x in s' && n < s'[x].expiresAt;
    assert forall x :: x in Collected(s, n) ==> s[x] == Collected(s, n)[x] == s'[x];
  }

  lemma AfterAlike(s: Records, s': Records, n: int, c: StoreCall)
    requires SameLive(s, s', n) && Timely(n, [c])
    ensures c.GetCall? ==> Live(s, c.token, c.now) == Live(s', c.token, c.now)
    ensures if c.CollectCall? then SameLive(s, After(s', c), Later(n, c.now))
      else SameLive(After(s, c), After(s', c), n)
  {
    match c
    case GetCall(token, now) => GetAlike(s, s', n, token, now); hide SameLive, AfterGet, Live;
    case PutCall(rec) => SameLiveStored(s, s', n, rec); hide SameLive, Stored;
    case DeleteCall(token) => SameLiveRemoved(s, s', n, token); hide SameLive, Removed;
    case CollectCall(now) =>
      var m := Later(n, now);
      SameLiveLater(s, s', n, m);
      CollectTwice(s', now, m);
      hide Collected;
  }

  /** Whoever calls the store sees no collection in its lookups, and leaves the same live records. */
  lemma {:induction false} StrikesUnseen(s: Records, s': Records, n: int, calls: seq<StoreCall>)
    requires SameLive(s, s', n) && Timely(n, calls)
    ensures Lookups(s, Unstruck(calls)) == Lookups(s', calls)
    ensures SameLive(Performed(s, Unstruck(calls)), Performed(s', calls), Horizon(n, calls)) && n <= Horizon(n, calls)
    decreases calls
  {
    if calls != [] {
      var c := calls[0];
      assert Timely(n, [c]) by { assert [c][1..] == []; }
      AfterAlike(s, s', n, c);
      hide SameLive, After, Live;
      if c.CollectCall? {
        StrikesUnseen(s, After(s', c), Later(n, c.now), calls[1..]);
      } else {
        StrikesUnseen(After(s, c), After(s', c), n, calls[1..]);
        var rest := Unstruck(calls[1..]);
        assert ([c] + rest)[0] == c && ([c] + rest)[1..] == rest;
      }
    }
  }

  // ------------------------------------------------- the calls of each step

  function PresentCalls(cfg: Config, s: Records, token: string, at: Reads): seq<StoreCall> {
    match cfg.codec.decode(token)
    case Invalid => []
    case Escapes => []
    case Decoded(claims) =>
      if claims.expiresAt <= at.check then [DeleteCall(token)]
      else
        var found := Live(s, token, at.lookup);
        if found.Some? && found.value.instanceId != cfg.instanceId then [GetCall(token, at.lookup), DeleteCall(token)]
        else [GetCall(token, at.lookup)]
  }

  /** Storing the new record and deleting the old one, or the rollback. */
  function RotationCalls(token: string, rec: TokenRecord, put: PutOutcome): seq<StoreCall> {
    match put
    case Kept => [PutCall(rec), DeleteCall(token)]
    case RaisedBefore => [DeleteCall(rec.token)]
    case RaisedAfter => [PutCall(rec), DeleteCall(rec.token)]
  }

  function ValidateCalls(gate: Gate, cfg: Config, s: Records, token: string, first: int, second: int): seq<StoreCall>
  {
    var t := Strip(token);
    if t == "" then []
    else
      match cfg.codec.decode(t)
      case Invalid => []
      case Escapes => []
      case Decoded(claims) =>
        var lookup := if gate == FamilyGate then first else second;
        var found := Live(s, t, lookup);
        if gate == MessageGate && claims.expiresAt <= first then [DeleteCall(t)]
        else if found.Some? && (found.value.instanceId != cfg.instanceId
                                || (gate == FamilyGate && found.value.expiresAt <= second))
        then [GetCall(t, lookup), DeleteCall(t)]
        else [GetCall(t, lookup)]
  }

  /** The store calls of one step, in order. */
  function CallsOf(cfg: Config, w: World, a: Action): seq<StoreCall>
    requires Keyed(w.bed.reg)
  {
    var s, mint := w.bed.store, MintOf(cfg, w, a);
    match a
    case DoLogin(_, _, _, _, _, _, _, _, put, _) =>
      if mint.Some? && put != RaisedBefore then [PutCall(mint.value)] else []
    case DoReconnect(_, token, _, at, _, put) =>
      if token == "" then []
      else PresentCalls(cfg, s, token, at) + (if mint.Some? then RotationCalls(token, mint.value, put) else [])
    case DoRefresh(token, ws, at, _, put) =>
      if ws.None? then []
      else PresentCalls(cfg, s, token, at) + (if mint.Some? then RotationCalls(token, mint.value, put) else [])
    case DoRevoke(token, allow) =>
      if token != "" && cfg.codec.decode(token).Decoded? && allow then [DeleteCall(token)] else []
    case DoGate(gate, _, ws, token, first, second) =>
      ValidateCalls(gate, cfg, s, GateToken(w.bed.reg, ws, token), first, second)
    case DoGet(token, now) => [GetCall(token, now)]
    case DoCollect(now) => [CollectCall(now)]
    case DoRegistry(_) => []
  }

  lemma {:induction false} PerformedBoth(s: Records, calls: seq<StoreCall>, more: seq<StoreCall>)
    ensures Performed(s, calls + more) == Performed(Performed(s, calls), more)
    decreases calls
  {
    if calls == [] {
      assert calls + more == more;
    } else {
      assert (calls + more)[1..] == calls[1..] + more;
      hide After;
      PerformedBoth(After(s, calls[0]), calls[1..], more);
    }
  }

  lemma TwoCalls(s: Records, c: StoreCall, d: StoreCall)
    ensures Performed(s, []) == s && Performed(s, [c]) == After(s, c)
    ensures Performed(s, [c, d]) == After(After(s, c), d)
  {
    assert [c][1..] == [] && [d][1..] == [] && [c, d][1..] == [d];
    assert Performed(After(s, c), []) == After(s, c) && Performed(After(After(s, c), d), []) == After(After(s, c), d);
    assert Performed(After(s, c), [d]) == After(After(s, c), d);
    hide After;
  }

  lemma PresentPerformed(cfg: Config, s: Records, token: string, at: Reads)
    ensures Performed(s, PresentCalls(cfg, s, token, at)) == Present(cfg, s, token, at).store
  {
    TwoCalls(s, GetCall(token, at.lookup), DeleteCall(token));
    TwoCalls(s, DeleteCall(token), DeleteCall(token));
    hide Performed;
  }

  lemma RotationPerformed(s: Records, token: string, rec: TokenRecord, put: PutOutcome)
    ensures Performed(s, RotationCalls(token, rec, put))
         == if put == Kept then Rotated(s, token, rec) else RolledBack(s, rec, put)
  {
    TwoCalls(s, PutCall(rec), DeleteCall(token));
    TwoCalls(s, PutCall(rec), DeleteCall(rec.token));
    TwoCalls(s, DeleteCall(rec.token), DeleteCall(token));
    hide Performed, Stored, Removed;
  }

  lemma ValidatePerformed(gate: Gate, cfg: Config, s: Records, token: string, first: int, second: int)
    ensures Performed(s, ValidateCalls(gate, cfg, s, token, first, second))
         == Validate(gate, cfg, s, token, first, second).0
  {
    var t, lookup := Strip(token), if gate == FamilyGate then first else second;
    TwoCalls(s, GetCall(t, lookup), DeleteCall(t));
    TwoCalls(s, DeleteCall(t), DeleteCall(t));
    hide Performed, Strip;
  }

  lemma GatePerformed(cfg: Config, w: World, a: Action)
    requires Keyed(w.bed.reg) && Enabled(w, a) && a.DoGate?
    ensures Performed(w.bed.store, CallsOf(cfg, w, a)) == Step(cfg, w, a).0.store
  {
    ValidatePerformed(a.gate, cfg, w.bed.store, GateToken(w.bed.reg, a.ws, a.token), a.first, a.second);
    BlankIsNoToken(a.gate, cfg, w.bed.store, a.token, a.first, a.second);
    BlankIsNoToken(a.gate, cfg, w.bed.store, "", a.first, a.second);
    hide Validate, ValidateCalls, Performed, LazyBind, Strip, Keyed;
  }

  /** The store a step leaves is what its calls leave. */
  lemma StepPerformed(cfg: Config, w: World, a: Action)
    requires Keyed(w.bed.reg) && Enabled(w, a)
    ensures Performed(w.bed.store, CallsOf(cfg, w, a)) == Step(cfg, w, a).0.store
  {
    var s, mint := w.bed.store, MintOf(cfg, w, a);
    if a.DoReconnect? || a.DoRefresh? {
      var p := Present(cfg, s, TokenOf(a), a.at);
      PresentPerformed(cfg, s, TokenOf(a), a.at);
      if mint.Some? {
        PerformedBoth(s, PresentCalls(cfg, s, TokenOf(a), a.at), RotationCalls(TokenOf(a), mint.value, a.put));
        RotationPerformed(p.store, TokenOf(a), mint.value, a.put);
      }
      assert PresentCalls(cfg, s, TokenOf(a), a.at) + [] == PresentCalls(cfg, s, TokenOf(a), a.at);
      hide Performed, PresentCalls, RotationCalls, Present, Bind, BoundRef, Rotated, RolledBack, Mint, ForgetPending;
    } else if a.DoGate? {
      GatePerformed(cfg, w, a);
      hide *;
    } else {
      var c := if mint.Some? then PutCall(mint.value) else DeleteCall("");
      TwoCalls(s, c, c);
      if a.DoRevoke? {
        TwoCalls(s, DeleteCall(a.token), c);
        if a.token !in s { assert Removed(s, a.token) == s; }
      } else if a.DoGet? {
        TwoCalls(s, GetCall(a.token, a.now), c);
      } else if a.DoCollect? {
        TwoCalls(s, CollectCall(a.now), c);
      }
      hide Performed, Bind, BoundRef, Apply, Mint, Removed, AfterGet, Collected, CheckAccess, Reconnect, Refresh;
    }
  }

  // --------------------------------------------- lookups decide the course

  /** The world with another store. */
  function With(w: World, s: Records): World {
    w.(bed := w.bed.(store := s))
  }

  lemma FirstLookup(s: Records, s': Records, calls: seq<StoreCall>)
    requires calls != [] && calls[0].GetCall? && Lookups(s, calls) == Lookups(s', calls)
    ensures Live(s, calls[0].token, calls[0].now) == Live(s', calls[0].token, calls[0].now)
  {
    assert Lookups(s, calls)[0] == Lookups(s', calls)[0];
    hide Live, After;
  }

  lemma PresentDecides(cfg: Config, s: Records, s': Records, token: string, at: Reads, rest: seq<StoreCall>)
    requires var calls := PresentCalls(cfg, s', token, at) + rest; Lookups(s, calls) == Lookups(s', calls)
    ensures PresentCalls(cfg, s, token, at) == PresentCalls(cfg, s', token, at)
    ensures var p, p' := Present(cfg, s, token, at), Present(cfg, s', token, at);
      && (p.Refused? <==> p'.Refused?)
      && (p.Refused? ==> p.reply == p'.reply)
      && (p.Valid? ==> p.rec == p'.rec)
  {
    var calls := PresentCalls(cfg, s', token, at) + rest;
    if cfg.codec.decode(token).Decoded? && at.check < cfg.codec.decode(token).claims.expiresAt {
      FirstLookup(s, s', calls);
    }
    hide Lookups, Live, AfterGet, Removed;
  }

  lemma ValidateDecides(gate: Gate, cfg: Config, s: Records, s': Records, token: string, first: int, second: int)
    requires var calls := ValidateCalls(gate, cfg, s', token, first, second); Lookups(s, calls) == Lookups(s', calls)
    ensures ValidateCalls(gate, cfg, s, token, first, second) == ValidateCalls(gate, cfg, s', token, first, second)
    ensures Validate(gate, cfg, s, token, first, second).1 == Validate(gate, cfg, s', token, first, second).1
  {
    var calls := ValidateCalls(gate, cfg, s', token, first, second);
    if calls != [] && calls[0].GetCall? { FirstLookup(s, s', calls); }
    hide Lookups, Live, AfterGet, Removed, Strip;
  }

  lemma RotationDecides(cfg: Config, w: World, a: Action, seen: Records)
    requires Keyed(w.bed.reg) && Enabled(w, a) && (a.DoReconnect? || a.DoRefresh?)
    requires var calls := CallsOf(cfg, With(w, seen), a); Lookups(w.bed.store, calls) == Lookups(seen, calls)
    ensures CallsOf(cfg, With(w, seen), a) == CallsOf(cfg, w, a)
    ensures MintOf(cfg, With(w, seen), a) == MintOf(cfg, w, a)
    ensures Step(cfg, With(w, seen), a).0.reg == Step(cfg, w, a).0.reg
    ensures Step(cfg, With(w, seen), a).1 == Step(cfg, w, a).1
  {
    if (a.DoReconnect? && a.token == "") || (a.DoRefresh? && a.ws.None?) {
    } else {
      var mint := MintOf(cfg, With(w, seen), a);
      var rest := if mint.Some? then RotationCalls(TokenOf(a), mint.value, a.put) else [];
      PresentDecides(cfg, w.bed.store, seen, TokenOf(a), a.at, rest);
    }
    hide Present, PresentCalls, RotationCalls, Bind, BoundRef, ForgetPending, Mint, Lookups, Rotated, RolledBack;
  }

  lemma GateDecides(cfg: Config, w: World, a: Action, seen: Records)
    requires Keyed(w.bed.reg) && Enabled(w, a) && a.DoGate?
    requires var calls := CallsOf(cfg, With(w, seen), a); Lookups(w.bed.store, calls) == Lookups(seen, calls)
    ensures CallsOf(cfg, With(w, seen), a) == CallsOf(cfg, w, a)
    ensures Step(cfg, With(w, seen), a).0.reg == Step(cfg, w, a).0.reg
    ensures Step(cfg, With(w, seen), a).1 == Step(cfg, w, a).1
  {
    var token := GateToken(w.bed.reg, a.ws, a.token);
    ValidateDecides(a.gate, cfg, w.bed.store, seen, token, a.first, a.second);
    BlankIsNoToken(a.gate, cfg, w.bed.store, a.token, a.first, a.second);
    BlankIsNoToken(a.gate, cfg, seen, a.token, a.first, a.second);
    hide Validate, ValidateCalls, Lookups, LazyBind, Strip, Keyed;
  }

  /**
    A step takes its course by what its lookups answer: if they answer what another store would
    answer, it makes the calls, and gives the answer, it would on that store.
   */
  lemma LookupsDecide(cfg: Config, w: World, a: Action, seen: Records)
    requires Keyed(w.bed.reg) && Enabled(w, a)
    requires var calls := CallsOf(cfg, With(w, seen), a); Lookups(w.bed.store, calls) == Lookups(seen, calls)
    ensures CallsOf(cfg, With(w, seen), a) == CallsOf(cfg, w, a)
    ensures MintOf(cfg, With(w, seen), a) == MintOf(cfg, w, a)
    ensures Step(cfg, With(w, seen), a).0.reg == Step(cfg, w, a).0.reg
    ensures a.DoRevoke? || Step(cfg, With(w, seen), a).1 == Step(cfg, w, a).1
  {
    if a.DoReconnect? || a.DoRefresh? {
      RotationDecides(cfg, w, a, seen);
      hide *;
    } else if a.DoGate? {
      GateDecides(cfg, w, a, seen);
      hide CallsOf, Step, Lookups;
    } else {
      hide Lookups, Bind, BoundRef, Apply, Mint, Removed, AfterGet, Collected, Present, CheckAccess;
    }
  }

  // ------------------------------------------------------------ struck runs

  /**
    A step with collections among its store calls: the calls it makes, and a store on which its
    lookups would answer as they did.
   */
  datatype Struck = Struck(action: Action, calls: seq<StoreCall>, seen: Records)

  /** The step goes on after each lookup as the answer has it go on. */
  ghost predicate Fits(cfg: Config, w: World, x: Struck)
    requires Keyed(w.bed.reg)
  {
    && Enabled(w, x.action) && !x.action.DoCollect? && Timely(w.clock, x.calls)
    && Unstruck(x.calls) == CallsOf(cfg, With(w, x.seen), x.action)
    && Lookups(w.bed.store, x.calls) == Lookups(x.seen, Unstruck(x.calls))
  }

  function StruckAnswer(cfg: Config, w: World, x: Struck): Answer
    requires Keyed(w.bed.reg) && Enabled(w, x.action)
  {
    Step(cfg, With(w, x.seen), x.action).1
  }

  function StruckNext(cfg: Config, w: World, x: Struck): World
    requires Keyed(w.bed.reg) && Enabled(w, x.action)
  {
    var n := Next(cfg, With(w, x.seen), x.action);
    With(n, Performed(w.bed.store, x.calls)).(clock := Later(n.clock, Horizon(w.clock, x.calls)))
  }

  /** However its calls are struck, a step answers as it would unstruck and leaves the same but for dead records. */
  lemma StruckStep(cfg: Config, w: World, x: Struck)
    requires Keyed(w.bed.reg) && Fits(cfg, w, x)
    ensures Unstruck(x.calls) == CallsOf(cfg, w, x.action)
    ensures x.action.DoRevoke? || StruckAnswer(cfg, w, x) == Step(cfg, w, x.action).1
    ensures var n := Next(cfg, w, x.action);
      With(StruckNext(cfg, w, x), n.bed.store).(clock := n.clock) == n && Alike(n, StruckNext(cfg, w, x))
  {
    var s, a := w.bed.store, x.action;
    assert SameLive(s, s, w.clock);
    StrikesUnseen(s, s, w.clock, x.calls);
    LookupsDecide(cfg, w, a, x.seen);
    StepPerformed(cfg, w, a);
    var n, n' := Next(cfg, w, a), StruckNext(cfg, w, x);
    assert With(n', n.bed.store).(clock := n.clock) == n by {
      hide CallsOf, Performed, Lookups, Step, MintOf, Timely, Enabled, SameLive, Fits, Horizon;
    }
    hide CallsOf, Performed, Lookups, Step, MintOf, Timely, Enabled, SameLive, Fits, Horizon;
    SameLiveLater(Performed(s, Unstruck(x.calls)), Performed(s, x.calls), Horizon(w.clock, x.calls), n'.clock);
  }

  /** A course is possible exactly when, the collections apart, it makes the calls of the unstruck step. */
  lemma FitsIff(cfg: Config, w: World, a: Action, calls: seq<StoreCall>)
    requires Keyed(w.bed.reg) && Enabled(w, a) && !a.DoCollect? && Timely(w.clock, calls)
    ensures (exists seen :: Fits(cfg, w, Struck(a, calls, seen))) <==> Unstruck(calls) == CallsOf(cfg, w, a)
  {
    var s := w.bed.store;
    assert SameLive(s, s, w.clock) && With(w, s) == w;
    StrikesUnseen(s, s, w.clock, calls);
    hide CallsOf, Lookups, Unstruck, Timely, Enabled;
    if Unstruck(calls) == CallsOf(cfg, w, a) {
      assert Fits(cfg, w, Struck(a, calls, s));
    }
    if seen :| Fits(cfg, w, Struck(a, calls, seen)) {
      StruckStep(cfg, w, Struck(a, calls, seen));
    }
  }

  lemma {:induction false} StrikesShrink(s: Records, s': Records, calls: seq<StoreCall>)
    requires Shrinks(s, s')
    ensures Shrinks(Performed(s, Unstruck(calls)), Performed(s', calls))
    decreases calls
  {
    if calls != [] {
      var c, rest := calls[0], Unstruck(calls[1..]);
      if c.CollectCall? {
        assert Shrinks(s, After(s', c));
        hide After, Shrinks;
        StrikesShrink(s, After(s', c), calls[1..]);
      } else {
        assert Shrinks(After(s, c), After(s', c));
        hide After, Shrinks;
        StrikesShrink(After(s, c), After(s', c), calls[1..]);
        assert ([c] + rest)[0] == c && ([c] + rest)[1..] == rest;
      }
    }
  }

  lemma StruckInv(cfg: Config, w: World, x: Struck)
    requires Inv(cfg, w) && Fits(cfg, w, x)
    ensures Inv(cfg, StruckNext(cfg, w, x))
  {
    InvNext(cfg, w, x.action);
    StruckStep(cfg, w, x);
    StepPerformed(cfg, w, x.action);
    assert Shrinks(w.bed.store, w.bed.store);
    StrikesShrink(w.bed.store, w.bed.store, x.calls);
    var n, n' := Next(cfg, w, x.action), StruckNext(cfg, w, x);
    hide Performed, Unstruck, Lookups, CallsOf, Fits, Enabled, MintOf, StoreInv, MintedInv, RegInv, MembersInv, Step;
    RemovedInv(cfg, n.members, n.minted, n.lastMint, n.bed.store, n'.bed.store);
  }

  ghost predicate StruckPossible(cfg: Config, w: World, run: seq<Struck>)
    requires Inv(cfg, w)
    decreases run
  {
    run == [] ||
    (Fits(cfg, w, run[0]) && (StruckInv(cfg, w, run[0]); StruckPossible(cfg, StruckNext(cfg, w, run[0]), run[1..])))
  }

  ghost function StruckExec(cfg: Config, w: World, run: seq<Struck>): (w': World)
    requires Inv(cfg, w) && StruckPossible(cfg, w, run)
    ensures Inv(cfg, w')
    decreases run
  {
    if run == [] then w
    else
      StruckInv(cfg, w, run[0]);
      StruckExec(cfg, StruckNext(cfg, w, run[0]), run[1..])
  }

  ghost function StruckAnswers(cfg: Config, w: World, run: seq<Struck>): seq<Answer>
    requires Inv(cfg, w) && StruckPossible(cfg, w, run)
    decreases run
  {
    if run == [] then []
    else
      StruckInv(cfg, w, run[0]);
      var a := run[0].action;
      var answer := if Housekeeping(a) || a.DoRevoke? then [] else [StruckAnswer(cfg, w, run[0])];
      answer + StruckAnswers(cfg, StruckNext(cfg, w, run[0]), run[1..])
  }

  function Actions(run: seq<Struck>): seq<Action>
    decreases run
  {
    if run == [] then [] else [run[0].action] + Actions(run[1..])
  }

  lemma AlikeTwice(w: World, v: World, w': World)
    requires Alike(w, v) && Alike(v, w')
    ensures Alike(w, w')
  {
    SameLiveLater(w.bed.store, v.bed.store, v.clock, w'.clock);
  }

  lemma {:induction false} StruckIsUnseen(cfg: Config, w: World, w': World, run: seq<Struck>)
    requires Inv(cfg, w) && Inv(cfg, w') && Alike(w, w') && StruckPossible(cfg, w', run)
    ensures Possible(cfg, w, Actions(run))
    ensures Answers(cfg, w, Actions(run)) == StruckAnswers(cfg, w', run)
    ensures Alike(Exec(cfg, w, Actions(run)), StruckExec(cfg, w', run))
    decreases run
  {
    if run != [] {
      var x, rest := run[0], Actions(run[1..]);
      var a := x.action;
      EnabledAlike(w, w', a);
      StepAlike(cfg, w, w', a);
      StruckStep(cfg, w', x);
      InvNext(cfg, w, a);
      StruckInv(cfg, w', x);
      hide Inv, Alike, Next, StruckNext, Step, StruckAnswer, Enabled, CallsOf, Lookups, Unstruck, Performed, Timely;
      AlikeTwice(Next(cfg, w, a), Next(cfg, w', a), StruckNext(cfg, w', x));
      StruckIsUnseen(cfg, Next(cfg, w, a), StruckNext(cfg, w', x), run[1..]);
      assert ([a] + rest)[0] == a && ([a] + rest)[1..] == rest;
    }
  }

  /**
    Collections may strike anywhere in a run, inside the calls as well as between them, and as
    often as they like: no answer the clients see changes, and no later lookup.
   */
  lemma StrikesAreUnseen(cfg: Config, w: World, run: seq<Struck>)
    requires Inv(cfg, w) && StruckPossible(cfg, w, run)
    ensures Possible(cfg, w, Actions(run)) && Answers(cfg, w, Actions(run)) == StruckAnswers(cfg, w, run)
    ensures forall t, m :: StruckExec(cfg, w, run).clock <= m ==>
      Live(Exec(cfg, w, Actions(run)).bed.store, t, m) == Live(StruckExec(cfg, w, run).bed.store, t, m)
  {
    StruckIsUnseen(cfg, w, w, run);
    hide Possible, Exec, Inv, StruckPossible, StruckExec, Answers, StruckAnswers, SameLive, Live;
    var v, v' := Exec(cfg, w, Actions(run)), StruckExec(cfg, w, run);
    forall t, m | v'.clock <= m ensures Live(v.bed.store, t, m) == Live(v'.bed.store, t, m) {
      SameLiveLookup(v.bed.store, v'.bed.store, v'.clock, t, m);
    }
  }
}
