/** What every sequence of registry operations keeps, and what only orderly sequences keep. */
module SessionInvariants {
  import opened Basics
  import opened Sessions

  // ------------------------------------------------------------ the socket

  /** Every registered session is the state its own socket looks up to. */
  ghost predicate Housed<R>(reg: Registry<R>) {
    Keyed(reg) &&
    forall sid :: sid in reg.bySession ==>
      var s := StateOf(reg, sid);
      s.websocketId in reg.byWebsocket && reg.byWebsocket[s.websocketId] == reg.bySession[sid]
  }

  /** ws looks up to a registered session whose own socket is ws. */
  ghost predicate IsHome<R>(reg: Registry<R>, ws: string)
    requires Keyed(reg)
  {
    ws in reg.byWebsocket &&
    var r := reg.byWebsocket[ws];
    var s := reg.heap[r];
    s.websocketId == ws && s.sessionId in reg.bySession && reg.bySession[s.sessionId] == r
  }

  lemma BindHoused<R>(reg: Registry<R>, spare: R, a: BindArgs)
    requires Housed(reg) && spare !in reg.heap
    ensures Housed(Bind(reg, spare, a))
    ensures IsHome(Bind(reg, spare, a), a.websocketId)
  {
    BindSessions(reg, spare, a);
    BindSockets(reg, spare, a);
    hide Bind, BoundRef;
  }

  /** The socket `newWs` is the home of a session other than the one moving there. */
  ghost predicate Steals<R>(reg: Registry<R>, oldWs: string, newWs: string)
    requires Keyed(reg)
  {
    oldWs in reg.byWebsocket && IsHome(reg, newWs) && reg.byWebsocket[newWs] != reg.byWebsocket[oldWs]
  }

  /** rebind_websocket keeps sessions housed unless it takes another session's own socket. */
  lemma RebindHousedIff<R>(reg: Registry<R>, oldWs: string, newWs: string)
    requires Housed(reg)
    ensures Housed(Rebind(reg, oldWs, newWs)) <==> !Steals(reg, oldWs, newWs)
  {
    if Steals(reg, oldWs, newWs) {
      var lost := reg.heap[reg.byWebsocket[newWs]].sessionId;
      assert Keyed(Rebind(reg, oldWs, newWs));
      assert StateOf(Rebind(reg, oldWs, newWs), lost).websocketId == newWs;
    }
  }

  /** unbind_websocket keeps sessions housed exactly when the socket is nobody's home. */
  lemma UnbindHousedIff<R>(reg: Registry<R>, ws: string)
    requires Housed(reg)
    ensures Housed(Unbind(reg, ws)) <==> !IsHome(reg, ws)
  {
    if IsHome(reg, ws) {
      var lost := reg.heap[reg.byWebsocket[ws]].sessionId;
      assert StateOf(Unbind(reg, ws), lost).websocketId == ws;
    }
  }

  /** Housed sessions never share a socket. */
  lemma SocketsAreDistinct<R>(reg: Registry<R>, a: string, b: string)
    requires Housed(reg) && a in reg.bySession && b in reg.bySession
    ensures StateOf(reg, a).websocketId == StateOf(reg, b).websocketId ==> a == b
  {
  }

  // ------------------------------------------------- the observer index

  /** A registered session is listed at every table it watches, and no table lists nobody. */
  ghost predicate Listed<R>(reg: Registry<R>) {
    && Keyed(reg)
    && (forall sid, t :: sid in reg.bySession && t in StateOf(reg, sid).spectatorOf ==> Sees(reg.observers, t, sid))
    && NoEmptyTable(reg.observers)
  }

  lemma BindListed<R>(reg: Registry<R>, spare: R, a: BindArgs)
    requires Listed(reg) && spare !in reg.heap
    ensures Listed(Bind(reg, spare, a))
  {
    BindSessions(reg, spare, a);
    BindListings(reg, spare, a);
    hide Bind, BoundRef, Sees, NoEmptyTable;
  }

  // ------------------------------------------------- orderly moves

  /** Every socket entry is a registered session's own socket: nothing stale is left behind. */
  ghost predicate Tidy<R>(reg: Registry<R>) {
    Keyed(reg) && forall ws :: ws in reg.byWebsocket ==> IsHome(reg, ws)
  }

  /** A session that moves to another socket had its previous socket unbound first. */
  ghost predicate MovesCleanly<R>(reg: Registry<R>, a: BindArgs) {
    Keyed(reg) && a.sessionId in reg.bySession ==>
      var s := StateOf(reg, a.sessionId);
      s.websocketId == a.websocketId || s.websocketId !in reg.byWebsocket
        || reg.byWebsocket[s.websocketId] != reg.bySession[a.sessionId]
  }

  lemma BindTidy<R>(reg: Registry<R>, spare: R, a: BindArgs)
    requires Tidy(reg) && spare !in reg.heap && MovesCleanly(reg, a)
    ensures Tidy(Bind(reg, spare, a))
  {
    BindSessions(reg, spare, a);
    BindSockets(reg, spare, a);
    hide Bind, BoundRef, Updated, NewSession;
    var post := Bind(reg, spare, a);
    BoundLivesAt(reg, a);
    forall ws | ws in post.byWebsocket ensures IsHome(post, ws) {
      if ws != a.websocketId { assert IsHome(reg, ws); }
    }
  }

  lemma BoundLivesAt<R>(reg: Registry<R>, a: BindArgs)
    requires Keyed(reg)
    ensures NewSession(a).websocketId == a.websocketId && NewSession(a).sessionId == a.sessionId
    ensures forall s: Session :: Updated(s, a).websocketId == a.websocketId && Updated(s, a).sessionId == s.sessionId
  {
  }

  /** A bind leaves nothing stale behind exactly when the session moves cleanly. */
  lemma BindTidyIff<R>(reg: Registry<R>, spare: R, a: BindArgs)
    requires Tidy(reg) && spare !in reg.heap
    ensures Tidy(Bind(reg, spare, a)) <==> MovesCleanly(reg, a)
  {
    if MovesCleanly(reg, a) {
      BindTidy(reg, spare, a);
    } else {
      BindSessions(reg, spare, a);
      BindSockets(reg, spare, a);
      hide Bind;
      var post := Bind(reg, spare, a);
      var ws := StateOf(reg, a.sessionId).websocketId;
      assert ws in post.byWebsocket && !IsHome(post, ws);
    }
  }

  /** The index lists exactly the registered sessions that watch each table. */
  ghost predicate Exact<R>(reg: Registry<R>) {
    && Listed(reg)
    && (forall t, sid :: Sees(reg.observers, t, sid) ==>
          sid in reg.bySession && t in StateOf(reg, sid).spectatorOf)
  }

  /** A bind of a registered session that names spectator tables drops none of the old ones. */
  ghost predicate KeepsTables<R>(reg: Registry<R>, a: BindArgs) {
    Keyed(reg) && a.sessionId in reg.bySession && a.spectatorOf.Some? ==>
      StateOf(reg, a.sessionId).spectatorOf <= a.spectatorOf.value
  }

  /**
    The session a bind removes from its socket is forgotten at every table it watches. What is
    forgotten are the tables of the state the socket leads to, which behind a stale socket entry
    need not be the registered one.
   */
  ghost predicate PurgesAll<R>(reg: Registry<R>, a: BindArgs) {
    Keyed(reg) && a.websocketId in reg.byWebsocket ==>
      var prior := reg.heap[reg.byWebsocket[a.websocketId]];
      prior.sessionId != a.sessionId && prior.sessionId in reg.bySession ==>
        StateOf(reg, prior.sessionId).spectatorOf <= prior.spectatorOf
  }

  /** Without stale entries the socket leads to the registered state, and nothing can be missed. */
  lemma TidyPurgesAll<R>(reg: Registry<R>, a: BindArgs)
    requires Tidy(reg)
    ensures PurgesAll(reg, a)
  {
    assert a.websocketId in reg.byWebsocket ==> IsHome(reg, a.websocketId);
  }

  lemma BindExact<R>(reg: Registry<R>, spare: R, a: BindArgs)
    requires Exact(reg) && spare !in reg.heap && KeepsTables(reg, a) && PurgesAll(reg, a)
    ensures Exact(Bind(reg, spare, a))
  {
    BindSessions(reg, spare, a);
    BindListings(reg, spare, a);
    BindListed(reg, spare, a);
    hide Bind, BoundRef, Sees, NoEmptyTable, Listed;
    var post := Bind(reg, spare, a);
    assert forall t, sid :: Sees(post.observers, t, sid) ==>
      sid in post.bySession && t in StateOf(post, sid).spectatorOf;
  }

  /**
    The index stays exact exactly when a re-bind drops no table the session watched and the
    session the socket lets go of is forgotten at all of its own.
   */
  lemma BindExactIff<R>(reg: Registry<R>, spare: R, a: BindArgs)
    requires Exact(reg) && spare !in reg.heap
    ensures Exact(Bind(reg, spare, a)) <==> KeepsTables(reg, a) && PurgesAll(reg, a)
  {
    if !KeepsTables(reg, a) {
      DropsTable(reg, spare, a);
    } else if !PurgesAll(reg, a) {
      MissesTable(reg, spare, a);
    } else {
      BindExact(reg, spare, a);
    }
  }

  lemma DropsTable<R>(reg: Registry<R>, spare: R, a: BindArgs)
    requires Exact(reg) && spare !in reg.heap && !KeepsTables(reg, a)
    ensures !Exact(Bind(reg, spare, a))
  {
    BindSessions(reg, spare, a);
    BindListings(reg, spare, a);
    hide Bind, BoundRef, Sees, NoEmptyTable;
    var t :| t in StateOf(reg, a.sessionId).spectatorOf && t !in a.spectatorOf.value;
    assert Sees(Bind(reg, spare, a).observers, t, a.sessionId);
  }

  lemma MissesTable<R>(reg: Registry<R>, spare: R, a: BindArgs)
    requires Exact(reg) && spare !in reg.heap && !PurgesAll(reg, a)
    ensures !Exact(Bind(reg, spare, a))
  {
    BindSessions(reg, spare, a);
    BindListings(reg, spare, a);
    hide Bind, BoundRef, Sees, NoEmptyTable;
    var prior := reg.heap[reg.byWebsocket[a.websocketId]];
    var t :| t in StateOf(reg, prior.sessionId).spectatorOf && t !in prior.spectatorOf;
    assert Displaced(reg, a, prior.sessionId);
    assert Sees(Bind(reg, spare, a).observers, t, prior.sessionId);
  }

  // ----------------------------------------------------------------- runs

  /** What a sequence of operations is asked to respect. */
  datatype Rule = Anything | TakesNoHome | LosesNoTable | LeavesNoneStale

  ghost predicate Obeys<R>(rule: Rule, reg: Registry<R>, op: Op<R>)
    requires Keyed(reg)
  {
    match rule
    case Anything => true
    case TakesNoHome =>
      (match op
       case RebindOp(oldWs, newWs) => !Steals(reg, oldWs, newWs)
       case UnbindOp(ws) => !IsHome(reg, ws)
       case _ => true)
    case LosesNoTable => op.BindOp? ==> KeepsTables(reg, op.args) && PurgesAll(reg, op.args)
    case LeavesNoneStale => op.BindOp? ==> MovesCleanly(reg, op.args)
  }

  ghost predicate Runs<R>(rule: Rule, reg: Registry<R>, ops: seq<Op<R>>)
    requires Keyed(reg)
    decreases ops
  {
    ops == [] ||
    (Allowed(reg, ops[0]) && Obeys(rule, reg, ops[0]) &&
     (ApplyKeyed(reg, ops[0]); Runs(rule, Apply(reg, ops[0]), ops[1..])))
  }

  ghost function Outcome<R>(rule: Rule, reg: Registry<R>, ops: seq<Op<R>>): (post: Registry<R>)
    requires Keyed(reg) && Runs(rule, reg, ops)
    ensures Keyed(post)
    decreases ops
  {
    if ops == [] then reg
    else
      ApplyKeyed(reg, ops[0]);
      Outcome(rule, Apply(reg, ops[0]), ops[1..])
  }

  /** An operation keeps sessions housed exactly when it takes no registered session's own socket. */
  lemma ApplyHousedIff<R>(reg: Registry<R>, op: Op<R>)
    requires Housed(reg) && Allowed(reg, op)
    ensures Housed(Apply(reg, op)) <==> Obeys(TakesNoHome, reg, op)
  {
    hide Bind, Unindexed, Indexed, Steals, IsHome;
    match op
    case BindOp(spare, args) => BindHoused(reg, spare, args);
    case RebindOp(oldWs, newWs) => RebindHousedIff(reg, oldWs, newWs);
    case UnbindOp(ws) => UnbindHousedIff(reg, ws);
    case _ =>
  }

  /** In every run of binds, drops, and rebinds that take nobody's home, sessions stay housed. */
  lemma {:induction false} HousedThroughout<R>(reg: Registry<R>, ops: seq<Op<R>>)
    requires Housed(reg) && Runs(TakesNoHome, reg, ops)
    ensures Housed(Outcome(TakesNoHome, reg, ops))
    decreases ops
  {
    if ops != [] {
      ApplyHousedIff(reg, ops[0]);
      hide Housed, Apply;
      HousedThroughout(Apply(reg, ops[0]), ops[1..]);
    }
  }

  /** The listing effect of the two operations that change what one session watches. */
  lemma WatchListings<R>(reg: Registry<R>, op: Op<R>)
    requires Keyed(reg) && (op.WatchOp? || op.StopWatchingOp? || op.SeatOp? || op.DropOp?) && op.sid in reg.bySession
    ensures NoEmptyTable(reg.observers) ==> NoEmptyTable(Apply(reg, op).observers)
    ensures forall t, x :: Sees(Apply(reg, op).observers, t, x) <==>
      (var s := StateOf(reg, op.sid);
       match op
       case WatchOp(sid, table) => Sees(reg.observers, t, x) || (x == sid && t == table)
       case StopWatchingOp(sid, table) => Sees(reg.observers, t, x) && !(x == sid && t == table)
       case SeatOp(sid, _) => Sees(reg.observers, t, x) || (x == sid && t in s.spectatorOf)
       case DropOp(sid) => Sees(reg.observers, t, x) && !(x == sid && t in s.spectatorOf)
       case _ => true)
  {
    var s := StateOf(reg, op.sid);
    match op
    case WatchOp(sid, table) => IndexedSees(reg.observers, {table}, sid);
    case StopWatchingOp(sid, table) => UnindexedSees(reg.observers, {table}, sid);
    case SeatOp(sid, _) => IndexedSees(reg.observers, s.spectatorOf, sid);
    case DropOp(sid) => UnindexedSees(reg.observers, s.spectatorOf, sid);
  }

  lemma ApplyListed<R>(reg: Registry<R>, op: Op<R>)
    requires Listed(reg) && Allowed(reg, op)
    ensures Listed(Apply(reg, op))
  {
    hide Bind, Unindexed, Indexed, Sees, NoEmptyTable;
    match op
    case BindOp(spare, args) => BindListed(reg, spare, args);
    case DropOp(sid) => if sid in reg.bySession { WatchListings(reg, op); }
    case WatchOp(sid, table) => if sid in reg.bySession { WatchListings(reg, op); }
    case StopWatchingOp(sid, table) => if sid in reg.bySession { WatchListings(reg, op); }
    case SeatOp(sid, _) => if sid in reg.bySession { WatchListings(reg, op); }
    case _ =>
  }

  /** Any sequence of operations at all keeps watching sessions listed. */
  lemma {:induction false} ListedThroughout<R>(reg: Registry<R>, ops: seq<Op<R>>)
    requires Listed(reg) && Runs(Anything, reg, ops)
    ensures Listed(Outcome(Anything, reg, ops))
    decreases ops
  {
    if ops != [] {
      ApplyListed(reg, ops[0]);
      hide Listed, Apply;
      ListedThroughout(Apply(reg, ops[0]), ops[1..]);
    }
  }

  /** An operation leaves no stale socket entry exactly when it is no bind that moves a session off a bound socket. */
  lemma ApplyTidyIff<R>(reg: Registry<R>, op: Op<R>)
    requires Tidy(reg) && Allowed(reg, op)
    ensures Tidy(Apply(reg, op)) <==> Obeys(LeavesNoneStale, reg, op)
  {
    hide Bind, Unindexed, Indexed, MovesCleanly;
    match op
    case BindOp(spare, args) => BindTidyIff(reg, spare, args);
    case _ =>
  }

  /** The same for the exactness of the index. */
  lemma ApplyExactIff<R>(reg: Registry<R>, op: Op<R>)
    requires Exact(reg) && Allowed(reg, op)
    ensures Exact(Apply(reg, op)) <==> Obeys(LosesNoTable, reg, op)
  {
    ApplyListed(reg, op);
    hide Bind, Unindexed, Indexed, Sees, NoEmptyTable, KeepsTables, PurgesAll;
    match op
    case BindOp(spare, args) => BindExactIff(reg, spare, args);
    case DropOp(sid) => if sid in reg.bySession { WatchListings(reg, op); }
    case WatchOp(sid, table) => if sid in reg.bySession { WatchListings(reg, op); }
    case StopWatchingOp(sid, table) => if sid in reg.bySession { WatchListings(reg, op); }
    case SeatOp(sid, _) => if sid in reg.bySession { WatchListings(reg, op); }
    case _ =>
  }

  /** In every run that loses no table each table's observers are exactly the sessions watching it. */
  lemma {:induction false} ExactThroughout<R>(reg: Registry<R>, ops: seq<Op<R>>)
    requires Exact(reg) && Runs(LosesNoTable, reg, ops)
    ensures Exact(Outcome(LosesNoTable, reg, ops))
    decreases ops
  {
    if ops != [] {
      ApplyExactIff(reg, ops[0]);
      hide Exact, Apply;
      ExactThroughout(Apply(reg, ops[0]), ops[1..]);
    }
  }

  // ------------------------------------------- what a rule is exactly good for

  /** What a rule protects. */
  ghost predicate Meets<R>(rule: Rule, reg: Registry<R>) {
    match rule
    case Anything => Listed(reg)
    case TakesNoHome => Housed(reg)
    case LosesNoTable => Exact(reg)
    case LeavesNoneStale => Tidy(reg)
  }

  ghost predicate MeetsThroughout<R>(rule: Rule, reg: Registry<R>, ops: seq<Op<R>>)
    requires Keyed(reg) && Runs(Anything, reg, ops)
    decreases ops
  {
    Meets(rule, reg) &&
    (ops == [] || (ApplyKeyed(reg, ops[0]); MeetsThroughout(rule, Apply(reg, ops[0]), ops[1..])))
  }

  lemma ApplyMeetsIff<R>(rule: Rule, reg: Registry<R>, op: Op<R>)
    requires Meets(rule, reg) && Keyed(reg) && Allowed(reg, op)
    ensures Meets(rule, Apply(reg, op)) <==> Obeys(rule, reg, op)
  {
    hide Apply, Listed, Housed, Exact, Tidy;
    match rule
    case Anything => ApplyListed(reg, op);
    case TakesNoHome => ApplyHousedIff(reg, op);
    case LosesNoTable => ApplyExactIff(reg, op);
    case LeavesNoneStale => ApplyTidyIff(reg, op);
  }

  /**
    Over every sequence of operations: all the states in between meet what a rule protects exactly
    when every operation obeys the rule.
   */
  lemma {:induction false} MeetsThroughoutIff<R>(rule: Rule, reg: Registry<R>, ops: seq<Op<R>>)
    requires Keyed(reg) && Meets(rule, reg) && Runs(Anything, reg, ops)
    ensures MeetsThroughout(rule, reg, ops) <==> Runs(rule, reg, ops)
    decreases ops
  {
    if ops != [] {
      ApplyKeyed(reg, ops[0]);
      ApplyMeetsIff(rule, reg, ops[0]);
      hide Apply, Meets, Keyed, Allowed;
      if Meets(rule, Apply(reg, ops[0])) {
        MeetsThroughoutIff(rule, Apply(reg, ops[0]), ops[1..]);
      }
    }
  }

  /** The registry as the daemon starts it has all of these properties. */
  lemma EmptyIsOrderly<R>(reg: Registry<R>)
    requires reg == EmptyRegistry()
    ensures Housed(reg) && Listed(reg) && Tidy(reg) && Exact(reg)
  {
  }
}
