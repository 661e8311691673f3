/**
  What the session registry does, as functions on values. A state object is a reference R into
  `heap`; the three dictionaries hold references and ids, so aliasing between the socket index
  and the session index, and entries left behind by a move, are part of the value.
 */
module Sessions {
  import opened Basics

  datatype Session = Session(
    sessionId: string,
    websocketId: string,
    moniker: string,
    isSysop: bool,
    balance: Option<int>,
    requestIdCounter: nat,
    pendingRequest: Option<string>,
    authServiceToken: Option<string>,
    loginid: Option<string>,
    tableMoniker: Option<string>,
    spectatorOf: set<string>
  )

  type Observers = map<string, set<string>>

  datatype Registry<R(==)> = Registry(
    heap: map<R, Session>,
    bySession: map<string, R>,
    byWebsocket: map<string, R>,
    observers: Observers
  )

  function EmptyRegistry<R(==)>(): Registry<R> {
    Registry(map[], map[], map[], map[])
  }

  /** Both indices point at allocated states, and a state is filed under its own session id. */
  ghost predicate Keyed<R>(reg: Registry<R>) {
    && (forall sid :: sid in reg.bySession ==>
          reg.bySession[sid] in reg.heap && reg.heap[reg.bySession[sid]].sessionId == sid)
    && (forall ws :: ws in reg.byWebsocket ==> reg.byWebsocket[ws] in reg.heap)
  }

  /** The state registered for a session id. */
  function StateOf<R(==)>(reg: Registry<R>, sid: string): Session
    requires Keyed(reg) && sid in reg.bySession
  {
    reg.heap[reg.bySession[sid]]
  }

  // ------------------------------------------------------ observer index

  /** _purge_indices: forget sid at these tables, and forget tables nobody watches any more. */
  function Unindexed(obs: Observers, tables: set<string>, sid: string): Observers {
    map t | t in obs && (t in tables ==> obs[t] - {sid} != {}) ::
      if t in tables then obs[t] - {sid} else obs[t]
  }

  /** _table_observers.get(table, set()) */
  function Audience(obs: Observers, t: string): set<string> {
    if t in obs then obs[t] else {}
  }

  /** _reindex: list sid at these tables. */
  function Indexed(obs: Observers, tables: set<string>, sid: string): Observers {
    map t | t in obs.Keys + tables :: if t in tables then Audience(obs, t) + {sid} else obs[t]
  }

  /** sid is listed at table t. */
  predicate Sees(obs: Observers, t: string, sid: string) {
    t in obs && sid in obs[t]
  }

  predicate NoEmptyTable(obs: Observers) {
    forall t :: t in obs ==> obs[t] != {}
  }

  /** What the two index updates do, pair by pair. */
  lemma UnindexedSees(obs: Observers, tables: set<string>, sid: string)
    ensures forall t, x :: Sees(Unindexed(obs, tables, sid), t, x) <==> Sees(obs, t, x) && !(t in tables && x == sid)
    ensures NoEmptyTable(obs) ==> NoEmptyTable(Unindexed(obs, tables, sid))
  {
    var post := Unindexed(obs, tables, sid);
    forall t, x ensures Sees(post, t, x) <==> Sees(obs, t, x) && !(t in tables && x == sid) {
      if Sees(obs, t, x) && x != sid { assert x in obs[t] - {sid}; }
    }
    forall t | t in post && NoEmptyTable(obs) ensures post[t] != {} {
      assert obs[t] != {};
    }
  }

  lemma IndexedSees(obs: Observers, tables: set<string>, sid: string)
    ensures forall t, x :: Sees(Indexed(obs, tables, sid), t, x) <==> Sees(obs, t, x) || (t in tables && x == sid)
    ensures NoEmptyTable(obs) ==> NoEmptyTable(Indexed(obs, tables, sid))
  {
  }

  // ---------------------------------------------------------- operations

  datatype BindArgs = BindArgs(
    sessionId: string,
    websocketId: string,
    moniker: string,
    isSysop: bool,
    balance: Option<int>,
    loginid: Option<string>,
    tableMoniker: Option<string>,
    spectatorOf: Option<set<string>>
  )

  function NewSession(a: BindArgs): Session {
    Session(a.sessionId, a.websocketId, a.moniker, a.isSysop, a.balance, 0, None, None, a.loginid,
      a.tableMoniker, if a.spectatorOf.Some? then a.spectatorOf.value else {})
  }

  /** The fields a bind overwrites on a state that is already registered. */
  function Updated(s: Session, a: BindArgs): Session {
    s.(websocketId := a.websocketId,
       moniker := a.moniker,
       isSysop := a.isSysop,
       balance := if a.balance.Some? then a.balance else s.balance,
       loginid := if a.loginid.Some? then a.loginid else s.loginid,
       tableMoniker := if a.tableMoniker.Some? then a.tableMoniker else s.tableMoniker,
       spectatorOf := if a.spectatorOf.Some? then a.spectatorOf.value else s.spectatorOf)
  }

  /** The first half of bind: the socket lets go of whatever other session it carried. */
  function Evicted<R(==)>(reg: Registry<R>, sid: string, ws: string): Registry<R>
    requires Keyed(reg)
  {
    if ws !in reg.byWebsocket then reg
    else
      var prior := reg.heap[reg.byWebsocket[ws]];
      var freed := reg.(byWebsocket := reg.byWebsocket - {ws});
      if prior.sessionId == sid then freed
      else freed.(bySession := reg.bySession - {prior.sessionId},
                  observers := Unindexed(reg.observers, prior.spectatorOf, prior.sessionId))
  }

  /** The reference bind returns; `spare` is the one a new state would be allocated at. */
  function BoundRef<R(==)>(reg: Registry<R>, spare: R, a: BindArgs): R
    requires Keyed(reg)
  {
    var e := Evicted(reg, a.sessionId, a.websocketId);
    if a.sessionId in e.bySession then e.bySession[a.sessionId] else spare
  }

  function Bind<R(==)>(reg: Registry<R>, spare: R, a: BindArgs): Registry<R>
    requires Keyed(reg)
  {
    var e := Evicted(reg, a.sessionId, a.websocketId);
    var r := BoundRef(reg, spare, a);
    var s := if a.sessionId in e.bySession then Updated(e.heap[r], a) else NewSession(a);
    Registry(e.heap[r := s], e.bySession[a.sessionId := r], e.byWebsocket[a.websocketId := r],
      Indexed(e.observers, s.spectatorOf, s.sessionId))
  }

  function Rebind<R(==)>(reg: Registry<R>, oldWs: string, newWs: string): Registry<R>
    requires Keyed(reg)
  {
    if oldWs !in reg.byWebsocket then reg
    else
      var r := reg.byWebsocket[oldWs];
      reg.(heap := reg.heap[r := reg.heap[r].(websocketId := newWs)],
           byWebsocket := (reg.byWebsocket - {oldWs})[newWs := r])
  }

  function Unbind<R(==)>(reg: Registry<R>, ws: string): Registry<R> {
    reg.(byWebsocket := reg.byWebsocket - {ws})
  }

  function Drop<R(==)>(reg: Registry<R>, sid: string): Registry<R>
    requires Keyed(reg)
  {
    if sid !in reg.bySession then reg
    else
      var s := StateOf(reg, sid);
      reg.(bySession := reg.bySession - {sid},
           byWebsocket := reg.byWebsocket - {s.websocketId},
           observers := Unindexed(reg.observers, s.spectatorOf, s.sessionId))
  }

  /** The registry after one registered state changes its fields. */
  function WithState<R(==)>(reg: Registry<R>, sid: string, s: Session): Registry<R>
    requires sid in reg.bySession
  {
    reg.(heap := reg.heap[reg.bySession[sid] := s])
  }

  function Watch<R(==)>(reg: Registry<R>, sid: string, table: string): Registry<R>
    requires Keyed(reg)
  {
    if sid !in reg.bySession then reg
    else
      var s := StateOf(reg, sid);
      WithState(reg, sid, s.(spectatorOf := s.spectatorOf + {table}))
        .(observers := Indexed(reg.observers, {table}, sid))
  }

  function StopWatching<R(==)>(reg: Registry<R>, sid: string, table: string): Registry<R>
    requires Keyed(reg)
  {
    if sid !in reg.bySession then reg
    else
      var s := StateOf(reg, sid);
      WithState(reg, sid, s.(spectatorOf := s.spectatorOf - {table}))
        .(observers := Unindexed(reg.observers, {table}, sid))
  }

  function Seat<R(==)>(reg: Registry<R>, sid: string, table: Option<string>): Registry<R>
    requires Keyed(reg)
  {
    if sid !in reg.bySession then reg
    else
      var s := StateOf(reg, sid);
      WithState(reg, sid, s.(tableMoniker := table))
        .(observers := Indexed(reg.observers, s.spectatorOf, s.sessionId))
  }

  function RecordPending<R(==)>(reg: Registry<R>, sid: string, env: Option<string>): Registry<R>
    requires Keyed(reg)
  {
    if sid !in reg.bySession then reg
    else WithState(reg, sid, StateOf(reg, sid).(pendingRequest := env))
  }

  /** The un-acked request take_pending hands back. */
  function PendingOf<R(==)>(reg: Registry<R>, sid: string): Option<string>
    requires Keyed(reg)
  {
    if sid in reg.bySession then StateOf(reg, sid).pendingRequest else None
  }

  function CountRequest<R(==)>(reg: Registry<R>, sid: string): Registry<R>
    requires Keyed(reg) && sid in reg.bySession
  {
    var s := StateOf(reg, sid);
    WithState(reg, sid, s.(requestIdCounter := s.requestIdCounter + 1))
  }

  // ------------------------------------------------------ runs of operations

  datatype Op<R> =
    | BindOp(spare: R, args: BindArgs)
    | DropOp(sid: string)
    | RebindOp(oldWs: string, newWs: string)
    | UnbindOp(ws: string)
    | WatchOp(sid: string, table: string)
    | StopWatchingOp(sid: string, table: string)
    | SeatOp(sid: string, seat: Option<string>)
    | PendingOp(sid: string, env: Option<string>)
    | CountOp(sid: string)

  /** A bind allocates at an unused reference; next_request_id raises for an unknown session. */
  ghost predicate Allowed<R>(reg: Registry<R>, op: Op<R>) {
    match op
    case BindOp(spare, _) => spare !in reg.heap
    case CountOp(sid) => sid in reg.bySession
    case _ => true
  }

  function Apply<R(==)>(reg: Registry<R>, op: Op<R>): Registry<R>
    requires Keyed(reg) && Allowed(reg, op)
  {
    match op
    case BindOp(spare, args) => Bind(reg, spare, args)
    case DropOp(sid) => Drop(reg, sid)
    case RebindOp(oldWs, newWs) => Rebind(reg, oldWs, newWs)
    case UnbindOp(ws) => Unbind(reg, ws)
    case WatchOp(sid, table) => Watch(reg, sid, table)
    case StopWatchingOp(sid, table) => StopWatching(reg, sid, table)
    case SeatOp(sid, seat) => Seat(reg, sid, seat)
    case PendingOp(sid, env) => RecordPending(reg, sid, env)
    case CountOp(sid) => CountRequest(reg, sid)
  }

  lemma BindKeyed<R>(reg: Registry<R>, spare: R, a: BindArgs)
    requires Keyed(reg) && (spare !in reg.heap || a.sessionId in reg.bySession)
    ensures Keyed(Bind(reg, spare, a))
  {
    EvictedKeyed(reg, a.sessionId, a.websocketId);
    var e := Evicted(reg, a.sessionId, a.websocketId);
    assert (if a.sessionId in e.bySession then Updated(e.heap[BoundRef(reg, spare, a)], a) else NewSession(a)).sessionId
      == a.sessionId;
    hide Unindexed, Indexed, Evicted, Updated, NewSession;
  }

  lemma EvictedKeyed<R>(reg: Registry<R>, sid: string, ws: string)
    requires Keyed(reg)
    ensures var e := Evicted(reg, sid, ws);
      Keyed(e) && e.heap == reg.heap && (sid in e.bySession <==> sid in reg.bySession)
  {
    hide Unindexed;
  }

  lemma ApplyKeyed<R>(reg: Registry<R>, op: Op<R>)
    requires Keyed(reg) && Allowed(reg, op)
    ensures Keyed(Apply(reg, op))
  {
    hide Unindexed, Indexed, Bind;
    match op
    case BindOp(spare, args) => BindKeyed(reg, spare, args);
    case _ =>
  }

  // ------------------------------------------------- what a bind does

  /** The session bind removes: the one the socket carried, when it is another session. */
  ghost predicate Displaced<R>(reg: Registry<R>, a: BindArgs, sid: string)
    requires Keyed(reg)
  {
    && a.websocketId in reg.byWebsocket
    && reg.heap[reg.byWebsocket[a.websocketId]].sessionId == sid
    && sid != a.sessionId
  }

  /** Registered sessions after a bind: the bound one, and every other but the displaced one. */
  lemma BindSessions<R>(reg: Registry<R>, spare: R, a: BindArgs)
    requires Keyed(reg) && spare !in reg.heap
    ensures var post := Bind(reg, spare, a);
      && Keyed(post)
      && a.sessionId in post.bySession
      && post.bySession[a.sessionId] == BoundRef(reg, spare, a)
      && StateOf(post, a.sessionId)
           == (if a.sessionId in reg.bySession then Updated(StateOf(reg, a.sessionId), a) else NewSession(a))
      && (forall sid :: sid != a.sessionId ==>
            (sid in post.bySession <==> sid in reg.bySession && !Displaced(reg, a, sid)))
      && (forall sid :: sid != a.sessionId && sid in post.bySession ==>
            post.bySession[sid] == reg.bySession[sid] && StateOf(post, sid) == StateOf(reg, sid))
    ensures BoundRef(reg, spare, a) == if a.sessionId in reg.bySession then reg.bySession[a.sessionId] else spare
  {
    hide Unindexed, Indexed;
    BindKeyed(reg, spare, a);
  }

  /**
    The bound session's fields. A bind of a registered session keeps its counter, un-acked request
    and token, and whatever else it is given no value for.
   */
  lemma BindFields<R>(reg: Registry<R>, spare: R, a: BindArgs)
    requires Keyed(reg) && spare !in reg.heap
    ensures var post := Bind(reg, spare, a);
      && Keyed(post) && a.sessionId in post.bySession
      && var s := StateOf(post, a.sessionId);
         && s.websocketId == a.websocketId && s.moniker == a.moniker && s.isSysop == a.isSysop
         && (a.balance.Some? ==> s.balance == a.balance)
         && (a.loginid.Some? ==> s.loginid == a.loginid)
         && (a.tableMoniker.Some? ==> s.tableMoniker == a.tableMoniker)
         && (a.spectatorOf.Some? ==> s.spectatorOf == a.spectatorOf.value)
         && (a.sessionId in reg.bySession ==>
               var before := StateOf(reg, a.sessionId);
               && s.requestIdCounter == before.requestIdCounter && s.pendingRequest == before.pendingRequest
               && s.authServiceToken == before.authServiceToken
               && (a.balance.None? ==> s.balance == before.balance)
               && (a.loginid.None? ==> s.loginid == before.loginid)
               && (a.tableMoniker.None? ==> s.tableMoniker == before.tableMoniker)
               && (a.spectatorOf.None? ==> s.spectatorOf == before.spectatorOf))
         && (a.sessionId !in reg.bySession ==>
               && s.requestIdCounter == 0 && s.pendingRequest == None && s.authServiceToken == None
               && (a.balance.None? ==> s.balance == None) && (a.loginid.None? ==> s.loginid == None)
               && (a.tableMoniker.None? ==> s.tableMoniker == None)
               && (a.spectatorOf.None? ==> s.spectatorOf == {}))
  {
    BindSessions(reg, spare, a);
    hide Bind, BoundRef;
  }

  /** Socket entries after a bind: the bound one is set, the others stay as they were. */
  lemma BindSockets<R>(reg: Registry<R>, spare: R, a: BindArgs)
    requires Keyed(reg) && spare !in reg.heap
    ensures var post := Bind(reg, spare, a);
      && post.byWebsocket == reg.byWebsocket[a.websocketId := BoundRef(reg, spare, a)]
      && post.heap.Keys == reg.heap.Keys + {BoundRef(reg, spare, a)}
      && (forall r :: r in reg.heap && r != BoundRef(reg, spare, a) ==> post.heap[r] == reg.heap[r])
  {
    hide Unindexed, Indexed, Updated, NewSession;
  }

  /** Table listings after a bind. */
  lemma BindListings<R>(reg: Registry<R>, spare: R, a: BindArgs)
    requires Keyed(reg) && spare !in reg.heap
    ensures var post := Bind(reg, spare, a);
      && Keyed(post) && a.sessionId in post.bySession
      && (NoEmptyTable(reg.observers) ==> NoEmptyTable(post.observers))
      && (forall t, x :: Sees(post.observers, t, x) <==>
            || (x == a.sessionId && t in StateOf(post, a.sessionId).spectatorOf)
            || (Sees(reg.observers, t, x)
                && !(Displaced(reg, a, x) && t in reg.heap[reg.byWebsocket[a.websocketId]].spectatorOf)))
  {
    BindSessions(reg, spare, a);
    var e := Evicted(reg, a.sessionId, a.websocketId);
    if a.websocketId in reg.byWebsocket {
      var prior := reg.heap[reg.byWebsocket[a.websocketId]];
      UnindexedSees(reg.observers, prior.spectatorOf, prior.sessionId);
    }
    var s := StateOf(Bind(reg, spare, a), a.sessionId);
    IndexedSees(e.observers, s.spectatorOf, s.sessionId);
    hide Unindexed, Indexed, Updated, NewSession, Sees, NoEmptyTable;
  }

  // --------------------------------------------- what the others write

  /** Which field of a registered session's state each operation but bind writes; all the others stay. */
  ghost predicate Writes<R>(reg: Registry<R>, op: Op<R>, sid: string, s: Session, s': Session) {
    var mine := !op.BindOp? && !op.RebindOp? && !op.UnbindOp? && op.sid == sid;
    && s'.sessionId == s.sessionId && s'.moniker == s.moniker && s'.isSysop == s.isSysop
    && s'.loginid == s.loginid && s'.balance == s.balance && s'.authServiceToken == s.authServiceToken
    && s'.requestIdCounter == s.requestIdCounter + (if mine && op.CountOp? then 1 else 0)
    && s'.pendingRequest == (if mine && op.PendingOp? then op.env else s.pendingRequest)
    && s'.tableMoniker == (if mine && op.SeatOp? then op.seat else s.tableMoniker)
    && s'.spectatorOf == s.spectatorOf + (if mine && op.WatchOp? then {op.table} else {})
                                       - (if mine && op.StopWatchingOp? then {op.table} else {})
    && s'.websocketId == (if op.RebindOp? && op.oldWs in reg.byWebsocket && sid in reg.bySession
                             && reg.byWebsocket[op.oldWs] == reg.bySession[sid]
                          then op.newWs else s.websocketId)
  }

  lemma ApplyWrites<R>(reg: Registry<R>, op: Op<R>, sid: string)
    requires Keyed(reg) && Allowed(reg, op) && !op.BindOp? && sid in reg.bySession
    ensures var post := Apply(reg, op);
      && Keyed(post) && (sid in post.bySession <==> !(op.DropOp? && op.sid == sid))
      && (sid in post.bySession ==>
            post.bySession[sid] == reg.bySession[sid] && Writes(reg, op, sid, StateOf(reg, sid), StateOf(post, sid)))
  {
    hide Apply, Keyed, WithState, StateOf, Writes;
    if op.DropOp? || op.RebindOp? || op.UnbindOp? {
      SocketsWrite(reg, op, sid);
    } else if op.sid !in reg.bySession {
      UnknownWrites(reg, op, sid);
    } else {
      var s' := Written(reg, op);
      WithOneState(reg, op.sid, s', Apply(reg, op).observers, sid);
      if op.sid != sid { OthersKept(reg, op, sid); }
    }
  }

  lemma OthersKept<R>(reg: Registry<R>, op: Op<R>, sid: string)
    requires Keyed(reg) && sid in reg.bySession
    requires !op.BindOp? && !op.RebindOp? && !op.UnbindOp? && op.sid != sid
    ensures Writes(reg, op, sid, StateOf(reg, sid), StateOf(reg, sid))
  {
  }

  /** The operations on sockets, and drop. */
  lemma SocketsWrite<R>(reg: Registry<R>, op: Op<R>, sid: string)
    requires Keyed(reg) && (op.DropOp? || op.RebindOp? || op.UnbindOp?) && sid in reg.bySession
    ensures var post := Apply(reg, op);
      && Keyed(post) && (sid in post.bySession <==> !(op.DropOp? && op.sid == sid))
      && (sid in post.bySession ==>
            post.bySession[sid] == reg.bySession[sid] && Writes(reg, op, sid, StateOf(reg, sid), StateOf(post, sid)))
  {
    hide Unindexed;
    assert Keyed(Apply(reg, op));
  }

  /** An operation on a session that is not registered does nothing. */
  lemma UnknownWrites<R>(reg: Registry<R>, op: Op<R>, sid: string)
    requires Keyed(reg) && sid in reg.bySession && Allowed(reg, op)
    requires !op.BindOp? && !op.DropOp? && !op.RebindOp? && !op.UnbindOp? && op.sid !in reg.bySession
    ensures Apply(reg, op) == reg && Writes(reg, op, sid, StateOf(reg, sid), StateOf(reg, sid))
  {
    hide Unindexed, Indexed;
  }

  lemma WithOneState<R>(reg: Registry<R>, x: string, s: Session, obs: Observers, sid: string)
    requires Keyed(reg) && x in reg.bySession && sid in reg.bySession && s.sessionId == x
    ensures var post := WithState(reg, x, s).(observers := obs);
      && Keyed(post) && post.bySession == reg.bySession
      && StateOf(post, sid) == if sid == x then s else StateOf(reg, sid)
  {
  }

  /** The state an operation on one session leaves it. */
  ghost function Written<R>(reg: Registry<R>, op: Op<R>): (s': Session)
    requires Keyed(reg) && (op.WatchOp? || op.StopWatchingOp? || op.SeatOp? || op.PendingOp? || op.CountOp?)
    requires op.sid in reg.bySession
    ensures s'.sessionId == op.sid && Writes(reg, op, op.sid, StateOf(reg, op.sid), s')
    ensures Apply(reg, op) == WithState(reg, op.sid, s').(observers := Apply(reg, op).observers)
  {
    hide Unindexed, Indexed;
    var s := StateOf(reg, op.sid);
    match op
    case WatchOp(_, table) => s.(spectatorOf := s.spectatorOf + {table})
    case StopWatchingOp(_, table) => s.(spectatorOf := s.spectatorOf - {table})
    case SeatOp(_, seat) => s.(tableMoniker := seat)
    case PendingOp(_, env) => s.(pendingRequest := env)
    case CountOp(_) => s.(requestIdCounter := s.requestIdCounter + 1)
  }

  /** Where each socket leads after an operation other than bind; none but drop unregisters a session. */
  lemma ApplySockets<R>(reg: Registry<R>, op: Op<R>, ws: string)
    requires Keyed(reg) && Allowed(reg, op) && !op.BindOp?
    ensures var post, moved := Apply(reg, op), op.RebindOp? && op.oldWs in reg.byWebsocket;
      && post.heap.Keys == reg.heap.Keys && post.bySession.Keys <= reg.bySession.Keys
      && (moved && ws == op.newWs ==> ws in post.byWebsocket && post.byWebsocket[ws] == reg.byWebsocket[op.oldWs])
      && (!(moved && ws == op.newWs) ==>
            && (ws in post.byWebsocket <==>
                  && ws in reg.byWebsocket
                  && !(moved && ws == op.oldWs) && !(op.UnbindOp? && ws == op.ws)
                  && !(op.DropOp? && op.sid in reg.bySession && ws == StateOf(reg, op.sid).websocketId))
            && (ws in post.byWebsocket ==> post.byWebsocket[ws] == reg.byWebsocket[ws]))
  {
    hide Unindexed, Indexed, Bind;
  }
}
