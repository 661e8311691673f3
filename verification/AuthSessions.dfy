/**
  The registry's own properties over whole runs of the daemon, in which the handlers bind sessions
  and write tokens, balances and pending requests into their states.
 */
module AuthSessions {
  import opened Basics
  import opened PyText
  import opened Tokens
  import opened TokenStore
  import opened Sessions
  import opened SessionInvariants
  import opened AuthSpec
  import opened AuthRuns
  import opened AuthInvariant
  import opened AuthTheorems
  import opened AuthAgreement

  /** The registry operation a step comes to: the bind of a handler or gate, or an operation of its own. */
  ghost function OpOf(cfg: Config, w: World, a: Action): Option<Op<nat>>
    requires Keyed(w.bed.reg)
  {
    match a
    case DoLogin(spare, _, _, _, found, sid, socket, _, _, _) =>
      if MintOf(cfg, w, a).Some? then Some(BindOp(spare, LoginArgs(found.value, sid, socket))) else None
    case DoReconnect(spare, token, socket, at, _, _) =>
      if MintOf(cfg, w, a).Some?
      then Some(BindOp(spare, ReconnectArgs(Present(cfg, w.bed.store, token, at).rec, socket))) else None
    case DoGate(gate, spare, ws, token, first, second) =>
      var v := Validate(gate, cfg, w.bed.store, token, first, second).1;
      if ws.Some? && ws.value !in w.bed.reg.byWebsocket && v.Accepted? && Strip(v.claims.sessionId) != ""
      then Some(BindOp(spare, LazyArgs(w.bed.reg, v.claims, ws.value))) else None
    case DoRegistry(op) => Some(op)
    case _ => None
  }

  /** What the step does to the registry obeys the rule. */
  ghost predicate Respects(rule: Rule, cfg: Config, w: World, a: Action)
    requires Keyed(w.bed.reg)
  {
    OpOf(cfg, w, a).Some? ==> Obeys(rule, w.bed.reg, OpOf(cfg, w, a).value)
  }

  // ------------------------------------------- fields the rules do not see

  /** Only fields that no index depends on may differ. */
  predicate SameIndexed(s: Session, s': Session) {
    s.sessionId == s'.sessionId && s.websocketId == s'.websocketId && s.spectatorOf == s'.spectatorOf
  }

  /** Changing a state's token, pending request or balance changes nothing any of the rules protects. */
  lemma TouchMeetsIff(rule: Rule, reg: Registry<nat>, r: nat, s: Session)
    requires Keyed(reg) && r in reg.heap && SameIndexed(s, reg.heap[r])
    ensures Meets(rule, reg.(heap := reg.heap[r := s])) <==> Meets(rule, reg)
  {
    var reg' := reg.(heap := reg.heap[r := s]);
    assert Keyed(reg') && reg'.observers == reg.observers;
    assert forall sid :: sid in reg.bySession ==> SameIndexed(StateOf(reg', sid), StateOf(reg, sid));
    assert forall ws :: ws in reg.byWebsocket ==> (IsHome(reg', ws) <==> IsHome(reg, ws));
    hide IsHome, Sees, NoEmptyTable, Keyed;
  }

  lemma BoundMeetsIff(rule: Rule, reg: Registry<nat>, spare: nat, a: BindArgs, bound: Session)
    requires Keyed(reg) && Meets(rule, reg) && spare !in reg.heap
    ensures var reg', r := Bind(reg, spare, a), BoundRef(reg, spare, a);
      && r in reg'.heap
      && (SameIndexed(bound, reg'.heap[r]) ==>
            (Meets(rule, reg'.(heap := reg'.heap[r := bound])) <==> Obeys(rule, reg, BindOp(spare, a))))
  {
    var reg', r := Bind(reg, spare, a), BoundRef(reg, spare, a);
    assert Apply(reg, BindOp(spare, a)) == reg';
    BindKeyed(reg, spare, a);
    BindSockets(reg, spare, a);
    hide Bind, BoundRef, Meets, Obeys, Keyed, Apply;
    ApplyMeetsIff(rule, reg, BindOp(spare, a));
    if SameIndexed(bound, reg'.heap[r]) { TouchMeetsIff(rule, reg', r, bound); }
  }

  // ------------------------------------------------------------ each handler

  lemma LoginMeetsIff(rule: Rule, cfg: Config, w: World, a: Action)
    requires Inv(cfg, w) && Enabled(w, a) && Meets(rule, w.bed.reg) && a.DoLogin? && MintOf(cfg, w, a).Some?
    ensures Keyed(w.bed.reg)
    ensures Meets(rule, Next(cfg, w, a).bed.reg)
       <==> Obeys(rule, w.bed.reg, BindOp(a.spare, LoginArgs(a.found.value, a.sid, a.socket)))
  {
    InvKeyed(cfg, w);
    var args, rec := LoginArgs(a.found.value, a.sid, a.socket), MintOf(cfg, w, a).value;
    if a.put == Kept { LoginSets(cfg, w, a); } else { LoginRaises(cfg, w, a); }
    hide Bind, BoundRef, Meets, Obeys, Inv, Next, Step, MintOf, Enabled, Stored, Persisted;
    var reg, r := Bind(w.bed.reg, a.spare, args), BoundRef(w.bed.reg, a.spare, args);
    BoundMeetsIff(rule, w.bed.reg, a.spare, args, if a.put != Kept then reg.heap[r].(authServiceToken := None)
      else reg.heap[r].(authServiceToken := Some(rec.token),
                        balance := if a.balance.Some? then a.balance else reg.heap[r].balance));
  }

  lemma ReconnectMeetsIff(rule: Rule, cfg: Config, w: World, a: Action)
    requires Inv(cfg, w) && Enabled(w, a) && Meets(rule, w.bed.reg) && a.DoReconnect? && MintOf(cfg, w, a).Some?
    ensures Keyed(w.bed.reg)
    ensures Meets(rule, Next(cfg, w, a).bed.reg) <==>
      Obeys(rule, w.bed.reg, BindOp(a.spare, ReconnectArgs(Present(cfg, w.bed.store, a.token, a.at).rec, a.socket)))
  {
    InvKeyed(cfg, w);
    var args := ReconnectArgs(Present(cfg, w.bed.store, a.token, a.at).rec, a.socket);
    var rec := MintOf(cfg, w, a).value;
    BoundState(w.bed.reg, a.spare, args);
    if a.put == Kept { ReconnectSets(cfg, w, a); } else { ReconnectRaises(cfg, w, a); }
    hide Bind, BoundRef, Meets, Obeys, Inv, Next, Step, MintOf, Enabled, Present;
    var reg, r := Bind(w.bed.reg, a.spare, args), BoundRef(w.bed.reg, a.spare, args);
    BoundMeetsIff(rule, w.bed.reg, a.spare, args, if a.put != Kept then reg.heap[r]
      else reg.heap[r].(authServiceToken := Some(rec.token), pendingRequest := None));
  }

  lemma GateMeetsIff(rule: Rule, cfg: Config, w: World, a: Action)
    requires Inv(cfg, w) && Keyed(w.bed.reg) && Enabled(w, a) && Meets(rule, w.bed.reg) && a.DoGate?
    ensures Meets(rule, Next(cfg, w, a).bed.reg) <==> Respects(rule, cfg, w, a)
  {
    CheckAccessReg(a.gate, cfg, w.bed, a.spare, a.ws, a.token, a.first, a.second);
    var v := Validate(a.gate, cfg, w.bed.store, a.token, a.first, a.second).1;
    if OpOf(cfg, w, a).Some? {
      var args := LazyArgs(w.bed.reg, v.claims, a.ws.value);
      assert Strip(a.token) != "";
      hide CheckAccess, Inv, Validate, LazyArgs, Bind, BoundRef, Meets, Obeys, Strip;
      var reg, r := Bind(w.bed.reg, a.spare, args), BoundRef(w.bed.reg, a.spare, args);
      BoundMeetsIff(rule, w.bed.reg, a.spare, args, reg.heap[r].(authServiceToken := Some(Strip(a.token))));
    } else {
      hide CheckAccess, Validate, LazyArgs, Bind, BoundRef, Meets, Inv, Strip;
    }
  }

  lemma RefreshMeets(rule: Rule, cfg: Config, w: World, a: Action)
    requires Inv(cfg, w) && Enabled(w, a) && Meets(rule, w.bed.reg) && a.DoRefresh?
    ensures Meets(rule, Next(cfg, w, a).bed.reg)
  {
    InvKeyed(cfg, w);
    if MintOf(cfg, w, a).Some? && a.put == Kept {
      RefreshSets(cfg, w, a);
      hide Inv, Meets, Next, MintOf, Enabled;
      var r := w.bed.reg.byWebsocket[a.ws.value];
      TouchMeetsIff(rule, w.bed.reg, r, w.bed.reg.heap[r].(authServiceToken := Some(MintOf(cfg, w, a).value.token)));
    } else {
      UnmintedRefreshKeeps(cfg, w, a);
      hide Inv, Meets, Next, MintOf, Enabled;
    }
  }

  lemma UnmintedRefreshKeeps(cfg: Config, w: World, a: Action)
    requires Inv(cfg, w) && Enabled(w, a) && a.DoRefresh? && (MintOf(cfg, w, a).None? || a.put != Kept)
    ensures Next(cfg, w, a).bed.reg == w.bed.reg
  {
    InvKeyed(cfg, w);
    hide Inv, Enabled, Present, Rotated, RolledBack, WithToken, Mint;
  }

  /** A refused reconnect forgets a pending request at most, which no rule forbids. */
  lemma ForgetMeets(rule: Rule, cfg: Config, reg: Registry<nat>, token: string, reply: Reply)
    requires Keyed(reg) && Meets(rule, reg)
    ensures Meets(rule, ForgetPending(cfg, reg, token, reply))
  {
    if cfg.codec.decode(token).Decoded? {
      var op: Op<nat> := PendingOp(cfg.codec.decode(token).claims.sessionId, None);
      ApplyMeetsIff(rule, reg, op);
      hide Meets, RecordPending, Keyed;
    }
  }

  lemma UnmintedReconnectMeets(rule: Rule, cfg: Config, w: World, a: Action)
    requires Inv(cfg, w) && Enabled(w, a) && Meets(rule, w.bed.reg) && a.DoReconnect? && MintOf(cfg, w, a).None?
    ensures Meets(rule, Next(cfg, w, a).bed.reg)
  {
    InvKeyed(cfg, w);
    var p := Present(cfg, w.bed.store, a.token, a.at);
    if p.Refused? { ForgetMeets(rule, cfg, w.bed.reg, a.token, p.reply); }
    hide Inv, Bind, BoundRef, Meets, Present, Rotated, RolledBack, ForgetPending;
  }

  lemma RegistryMeetsIff(rule: Rule, cfg: Config, w: World, a: Action)
    requires Inv(cfg, w) && Keyed(w.bed.reg) && Enabled(w, a) && Meets(rule, w.bed.reg) && a.DoRegistry?
    ensures Meets(rule, Next(cfg, w, a).bed.reg) <==> Obeys(rule, w.bed.reg, a.op)
  {
    ApplyMeetsIff(rule, w.bed.reg, a.op);
    hide Inv, Meets, Obeys, Apply;
  }

  lemma OtherKeepsReg(cfg: Config, w: World, a: Action)
    requires Inv(cfg, w) && Enabled(w, a)
    requires a.DoRevoke? || a.DoGet? || a.DoCollect? || (a.DoLogin? && MintOf(cfg, w, a).None?)
    ensures Next(cfg, w, a).bed.reg == w.bed.reg
  {
    InvKeyed(cfg, w);
    hide Inv, Bind, BoundRef, Revoke, AfterGet, Collected, Mint;
  }

  // ---------------------------------------------------------------- every step

  /** What a rule protects survives a step exactly when what the step does to the registry obeys the rule. */
  lemma StepMeetsIff(rule: Rule, cfg: Config, w: World, a: Action)
    requires Inv(cfg, w) && Enabled(w, a) && Meets(rule, w.bed.reg)
    ensures Keyed(w.bed.reg)
    ensures Meets(rule, Next(cfg, w, a).bed.reg) <==> Respects(rule, cfg, w, a)
  {
    InvKeyed(cfg, w);
    hide Inv, Meets, Obeys, Enabled, Next, MintOf, Validate;
    if a.DoGate? { GateMeetsIff(rule, cfg, w, a); hide OpOf, Respects; }
    else if a.DoRefresh? { RefreshMeets(rule, cfg, w, a); }
    else if a.DoRegistry? { RegistryMeetsIff(rule, cfg, w, a); }
    else if a.DoReconnect? {
      if MintOf(cfg, w, a).Some? { ReconnectMeetsIff(rule, cfg, w, a); }
      else { UnmintedReconnectMeets(rule, cfg, w, a); }
    } else if a.DoLogin? && MintOf(cfg, w, a).Some? {
      LoginMeetsIff(rule, cfg, w, a);
    } else {
      OtherKeepsReg(cfg, w, a);
    }
  }

  /** In particular it leaves no stale socket entry behind exactly when the bind it performs, if any, moves cleanly. */
  lemma StepTidyIff(cfg: Config, w: World, a: Action)
    requires Inv(cfg, w) && Enabled(w, a) && Tidy(w.bed.reg)
    ensures Tidy(Next(cfg, w, a).bed.reg) <==>
      match OpOf(cfg, w, a)
      case Some(BindOp(_, args)) => MovesCleanly(w.bed.reg, args)
      case _ => true
  {
    StepMeetsIff(LeavesNoneStale, cfg, w, a);
    hide Inv, Tidy, Enabled, Next, MovesCleanly, OpOf;
  }

  // ----------------------------------------------------------------- runs

  ghost predicate RespectsThroughout(rule: Rule, cfg: Config, w: World, run: seq<Action>)
    requires Inv(cfg, w) && Possible(cfg, w, run)
    decreases run
  {
    run == [] ||
    (InvNext(cfg, w, run[0]);
     InvKeyed(cfg, w);
     Respects(rule, cfg, w, run[0]) && RespectsThroughout(rule, cfg, Next(cfg, w, run[0]), run[1..]))
  }

  /** The registry meets what the rule protects in every state of the run. */
  ghost predicate MeetsInRun(rule: Rule, cfg: Config, w: World, run: seq<Action>)
    requires Inv(cfg, w) && Possible(cfg, w, run)
    decreases run
  {
    Meets(rule, w.bed.reg) &&
    (run == [] || (InvNext(cfg, w, run[0]); MeetsInRun(rule, cfg, Next(cfg, w, run[0]), run[1..])))
  }

  /** Over every run of the daemon: all its states meet what a rule protects exactly when every step respects it. */
  lemma {:induction false} MeetsInRunIff(rule: Rule, cfg: Config, w: World, run: seq<Action>)
    requires Inv(cfg, w) && Possible(cfg, w, run) && Meets(rule, w.bed.reg)
    ensures MeetsInRun(rule, cfg, w, run) <==> RespectsThroughout(rule, cfg, w, run)
    decreases run
  {
    if run != [] {
      InvNext(cfg, w, run[0]);
      StepMeetsIff(rule, cfg, w, run[0]);
      hide Inv, Next, Meets, Respects, Enabled;
      var w' := Next(cfg, w, run[0]);
      if Meets(rule, w'.bed.reg) { MeetsInRunIff(rule, cfg, w', run[1..]); }
    }
  }

  /** Over every run from the start, without exception, each registered session is listed at every table it watches. */
  lemma AlwaysListed(cfg: Config, clock: int, run: seq<Action>)
    requires Good(cfg) && Inv(cfg, Start(clock)) && Possible(cfg, Start(clock), run)
    ensures MeetsInRun(Anything, cfg, Start(clock), run) && Listed(Exec(cfg, Start(clock), run).bed.reg)
  {
    EmptyIsOrderly(Start(clock).bed.reg);
    MeetsInRunIff(Anything, cfg, Start(clock), run);
    hide Inv, Possible, Exec, Listed;
    RespectsAnything(cfg, Start(clock), run);
    MeetsAtEnd(Anything, cfg, Start(clock), run);
  }

  lemma {:induction false} RespectsAnything(cfg: Config, w: World, run: seq<Action>)
    requires Inv(cfg, w) && Possible(cfg, w, run)
    ensures RespectsThroughout(Anything, cfg, w, run)
    decreases run
  {
    if run != [] {
      InvNext(cfg, w, run[0]);
      InvKeyed(cfg, w);
      hide Inv, Next, Enabled, OpOf;
      RespectsAnything(cfg, Next(cfg, w, run[0]), run[1..]);
    }
  }

  lemma {:induction false} MeetsAtEnd(rule: Rule, cfg: Config, w: World, run: seq<Action>)
    requires Inv(cfg, w) && Possible(cfg, w, run) && MeetsInRun(rule, cfg, w, run)
    ensures Meets(rule, Exec(cfg, w, run).bed.reg)
    decreases run
  {
    if run != [] {
      InvNext(cfg, w, run[0]);
      hide Inv, Next, Meets, Enabled;
      MeetsAtEnd(rule, cfg, Next(cfg, w, run[0]), run[1..]);
    }
  }

  /** A handler names no tables, so it can lose one only behind a stale socket entry. */
  lemma TidyLosesNoTable(cfg: Config, w: World, a: Action)
    requires Inv(cfg, w) && Keyed(w.bed.reg) && Enabled(w, a) && Tidy(w.bed.reg)
    ensures Respects(LosesNoTable, cfg, w, a)
  {
    var op := OpOf(cfg, w, a);
    if op.Some? && op.value.BindOp? { TidyPurgesAll(w.bed.reg, op.value.args); }
    hide Inv, Tidy, PurgesAll, Validate, Present, Strip, MintOf;
  }

  /**
    So while every session that moves has its previous socket unbound first, each table's
    observers are exactly the registered sessions watching it.
   */
  lemma {:induction false} CleanMovesKeepExact(cfg: Config, w: World, run: seq<Action>)
    requires Inv(cfg, w) && Possible(cfg, w, run) && Tidy(w.bed.reg) && Exact(w.bed.reg)
    requires RespectsThroughout(LeavesNoneStale, cfg, w, run)
    ensures MeetsInRun(LosesNoTable, cfg, w, run)
    decreases run
  {
    if run != [] {
      InvNext(cfg, w, run[0]);
      StepMeetsIff(LeavesNoneStale, cfg, w, run[0]);
      StepMeetsIff(LosesNoTable, cfg, w, run[0]);
      TidyLosesNoTable(cfg, w, run[0]);
      hide Inv, Next, Respects, Enabled, Tidy, Exact;
      CleanMovesKeepExact(cfg, Next(cfg, w, run[0]), run[1..]);
    }
  }
}
