/** The session registry and its state objects, updated in place as the daemon updates them. */
module SessionRegistry {
  import opened Basics
  import opened Sessions

  class SessionState {
    var sessionId: string
    var websocketId: string
    var moniker: string
    var isSysop: bool
    var balance: Option<int>
    var requestIdCounter: nat
    var pendingRequest: Option<string>
    var authServiceToken: Option<string>
    var loginid: Option<string>
    var tableMoniker: Option<string>
    var spectatorOf: set<string>

    constructor (a: BindArgs)
      ensures Value() == NewSession(a)
    {
      sessionId, websocketId, moniker, isSysop := a.sessionId, a.websocketId, a.moniker, a.isSysop;
      balance, loginid, tableMoniker := a.balance, a.loginid, a.tableMoniker;
      requestIdCounter, pendingRequest, authServiceToken := 0, None, None;
      spectatorOf := if a.spectatorOf.Some? then a.spectatorOf.value else {};
    }

    /** What a bind overwrites on a state that is already registered. */
    method Update(a: BindArgs)
      modifies this
      ensures Value() == Updated(old(Value()), a)
    {
      websocketId := a.websocketId;
      moniker := a.moniker;
      isSysop := a.isSysop;
      if a.balance.Some? { balance := a.balance; }
      if a.loginid.Some? { loginid := a.loginid; }
      if a.tableMoniker.Some? { tableMoniker := a.tableMoniker; }
      if a.spectatorOf.Some? { spectatorOf := a.spectatorOf.value; }
    }

    function Value(): Session
      reads this
    {
      Session(sessionId, websocketId, moniker, isSysop, balance, requestIdCounter, pendingRequest,
        authServiceToken, loginid, tableMoniker, spectatorOf)
    }
  }

  class SessionRegistry {
    var bySession: map<string, SessionState>
    var byWebsocket: map<string, SessionState>
    var tableObservers: Observers
    ghost var states: set<SessionState>

    constructor ()
      ensures Valid() && states == {} && Snapshot() == EmptyRegistry()
    {
      bySession, byWebsocket, tableObservers, states := map[], map[], map[], {};
    }

    /** The registry as a value: what every state object holds, and the three dictionaries. */
    ghost function Snapshot(): Registry<SessionState?>
      reads this, states
    {
      Registry(map s | s in states :: s.Value(), bySession, byWebsocket, tableObservers)
    }

    ghost predicate Valid()
      reads this, states
    {
      Keyed(Snapshot())
    }

    method PurgeIndices(state: SessionState)
      modifies this`tableObservers
      ensures tableObservers == Unindexed(old(tableObservers), state.spectatorOf, state.sessionId)
    {
      var todo := state.spectatorOf;
      ghost var done: set<string> := {};
      while todo != {}
        invariant done + todo == state.spectatorOf && done !! todo
        invariant tableObservers == Unindexed(old(tableObservers), done, state.sessionId)
        decreases |todo|
      {
        var t :| t in todo;
        UnindexedStep(old(tableObservers), done, t, state.sessionId);
        hide Unindexed;
        Forget(t, state.sessionId);
        todo, done := todo - {t}, done + {t};
      }
    }

    /** Forget one session at one table, and the table when nobody else watches it. */
    method Forget(table: string, sid: string)
      modifies this`tableObservers
      ensures tableObservers == PurgedAt(old(tableObservers), table, sid)
    {
      if table in tableObservers {
        var observers := tableObservers[table] - {sid};
        tableObservers := if observers == {} then tableObservers - {table} else tableObservers[table := observers];
      }
    }

    method Reindex(state: SessionState)
      modifies this`tableObservers
      ensures tableObservers == Indexed(old(tableObservers), state.spectatorOf, state.sessionId)
    {
      hide Indexed;
      IndexedNone(tableObservers, state.sessionId);
      var todo := state.spectatorOf;
      ghost var done: set<string> := {};
      while todo != {}
        invariant done + todo == state.spectatorOf && done !! todo
        invariant tableObservers == Indexed(old(tableObservers), done, state.sessionId)
        decreases |todo|
      {
        var t :| t in todo;
        IndexedStep(old(tableObservers), done, t, state.sessionId);
        var observers := Audience(tableObservers, t);
        tableObservers := tableObservers[t := observers + {state.sessionId}];
        todo, done := todo - {t}, done + {t};
      }
    }

    /** The first half of bind: the socket lets go of the session it carried. */
    method EvictSocket(sid: string, ws: string)
      requires Valid()
      modifies this
      ensures Valid() && states == old(states)
      ensures Snapshot() == Evicted(old(Snapshot()), sid, ws)
    {
      hide Unindexed;
      if ws in byWebsocket {
        var prior := byWebsocket[ws];
        assert prior in Snapshot().heap;
        byWebsocket := byWebsocket - {ws};
        if prior.sessionId != sid {
          bySession := bySession - {prior.sessionId};
          PurgeIndices(prior);
        }
        assert Snapshot().heap == old(Snapshot()).heap;
      }
    }

    /** A registered session's state takes over the socket. */
    method BindExisting(a: BindArgs) returns (state: SessionState)
      requires Valid() && a.sessionId in bySession
      modifies this`byWebsocket, this`tableObservers, states
      ensures state == bySession[a.sessionId] && state in states
      ensures state in old(Snapshot()).heap
      ensures var s := Updated(old(Snapshot()).heap[state], a);
        Snapshot() == Registry(old(Snapshot()).heap[state := s], old(bySession),
          old(byWebsocket)[a.websocketId := state], Indexed(old(tableObservers), s.spectatorOf, s.sessionId))
    {
      hide Indexed, Updated;
      state := bySession[a.sessionId];
      assert state in Snapshot().heap;
      state.Update(a);
      byWebsocket := byWebsocket[a.websocketId := state];
      Reindex(state);
    }

    /** A new state is registered and takes the socket. */
    method BindNew(a: BindArgs) returns (state: SessionState)
      requires Valid() && a.sessionId !in bySession
      modifies this
      ensures fresh(state) && states == old(states) + {state}
      ensures var s := NewSession(a);
        Snapshot() == Registry(old(Snapshot()).heap[state := s], old(bySession)[a.sessionId := state],
          old(byWebsocket)[a.websocketId := state], Indexed(old(tableObservers), s.spectatorOf, s.sessionId))
    {
      hide Indexed, NewSession;
      state := new SessionState(a);
      states := states + {state};
      bySession := bySession[a.sessionId := state];
      byWebsocket := byWebsocket[a.websocketId := state];
      Reindex(state);
    }

    method Bind(a: BindArgs) returns (state: SessionState)
      requires Valid()
      modifies this, states
      ensures Valid() && old(states) <= states && fresh(states - old(states))
      ensures state in states && (state in old(states) || fresh(state))
      ensures a.sessionId in old(Snapshot()).bySession || state !in old(Snapshot()).heap
      ensures state == BoundRef(old(Snapshot()), state, a)
      ensures Snapshot() == Sessions.Bind(old(Snapshot()), state, a)
    {
      ghost var before := Snapshot();
      EvictSocket(a.sessionId, a.websocketId);
      ghost var evicted := Snapshot();
      if a.sessionId in bySession {
        state := BindExisting(a);
      } else {
        state := BindNew(a);
      }
      BindAfterEviction(before, state, a);
      hide Unindexed, Indexed, Updated, NewSession, Sessions.Bind, Evicted, BoundRef;
    }

    method RebindWebsocket(oldWs: string, newWs: string) returns (state: SessionState?)
      requires Valid()
      modifies this, states
      ensures Valid() && states == old(states)
      ensures Snapshot() == Rebind(old(Snapshot()), oldWs, newWs)
      ensures state == if oldWs in old(byWebsocket) then old(byWebsocket)[oldWs] else null
    {
      if oldWs !in byWebsocket {
        return null;
      }
      state := byWebsocket[oldWs];
      assert state in Snapshot().heap;
      byWebsocket := byWebsocket - {oldWs};
      state.websocketId := newWs;
      byWebsocket := byWebsocket[newWs := state];
      assert Snapshot().heap == old(Snapshot()).heap[state := state.Value()];
    }

    method UnbindWebsocket(ws: string) returns (state: SessionState?)
      requires Valid()
      modifies this`byWebsocket
      ensures Valid()
      ensures Snapshot() == Unbind(old(Snapshot()), ws)
      ensures state == if ws in old(byWebsocket) then old(byWebsocket)[ws] else null
    {
      state := null;
      if ws in byWebsocket { state := byWebsocket[ws]; }
      byWebsocket := byWebsocket - {ws};
    }

    method Drop(sid: string)
      requires Valid()
      modifies this
      ensures Valid() && states == old(states)
      ensures Snapshot() == Sessions.Drop(old(Snapshot()), sid)
    {
      hide Unindexed;
      if sid in bySession {
        var state := bySession[sid];
        assert state in Snapshot().heap;
        bySession := bySession - {sid};
        byWebsocket := byWebsocket - {state.websocketId};
        PurgeIndices(state);
      }
    }

    /** Reading methods of the two indices. */
    method GetBySession(sid: string) returns (state: SessionState?)
      ensures state == if sid in bySession then bySession[sid] else null
    {
      state := null;
      if sid in bySession { state := bySession[sid]; }
    }

    method GetByWebsocket(ws: string) returns (state: SessionState?)
      ensures state == if ws in byWebsocket then byWebsocket[ws] else null
    {
      state := null;
      if ws in byWebsocket { state := byWebsocket[ws]; }
    }

    /** The counter after the increment; None stands for the KeyError of an unknown session. */
    method NextRequestId(sid: string) returns (id: Option<nat>)
      requires Valid()
      modifies states
      ensures Valid()
      ensures id.None? <==> sid !in bySession
      ensures id.None? ==> Snapshot() == old(Snapshot())
      ensures id.Some? ==> Snapshot() == CountRequest(old(Snapshot()), sid)
      ensures id.Some? ==> id.value == StateOf(Snapshot(), sid).requestIdCounter
    {
      if sid !in bySession {
        return None;
      }
      var state := bySession[sid];
      assert state in Snapshot().heap;
      state.requestIdCounter := state.requestIdCounter + 1;
      id := Some(state.requestIdCounter);
      assert Snapshot().heap == old(Snapshot()).heap[state := state.Value()];
    }

    method RecordPending(sid: string, env: Option<string>)
      requires Valid()
      modifies states
      ensures Valid() && Snapshot() == Sessions.RecordPending(old(Snapshot()), sid, env)
    {
      if sid in bySession {
        var state := bySession[sid];
        assert state in Snapshot().heap;
        state.pendingRequest := env;
        assert Snapshot().heap == old(Snapshot()).heap[state := state.Value()];
      }
    }

    /** The un-acked request of the session, which is cleared as it is taken. */
    method TakePending(sid: string) returns (env: Option<string>)
      requires Valid()
      modifies states
      ensures Valid() && Snapshot() == Sessions.RecordPending(old(Snapshot()), sid, None)
      ensures env == PendingOf(old(Snapshot()), sid)
    {
      if sid !in bySession {
        return None;
      }
      var state := bySession[sid];
      assert state in Snapshot().heap;
      env := state.pendingRequest;
      state.pendingRequest := None;
      assert Snapshot().heap == old(Snapshot()).heap[state := state.Value()];
    }

    method AddSpectator(sid: string, table: string)
      requires Valid()
      modifies this, states
      ensures Valid() && states == old(states)
      ensures Snapshot() == Watch(old(Snapshot()), sid, table)
    {
      if sid in bySession {
        var state := bySession[sid];
        assert state in Snapshot().heap;
        state.spectatorOf := state.spectatorOf + {table};
        var observers := Audience(tableObservers, table);
        tableObservers := tableObservers[table := observers + {sid}];
        assert tableObservers == Indexed(old(tableObservers), {table}, sid);
        assert Snapshot().heap == old(Snapshot()).heap[state := state.Value()];
      }
    }

    method RemoveSpectator(sid: string, table: string)
      requires Valid()
      modifies this, states
      ensures Valid() && states == old(states)
      ensures Snapshot() == StopWatching(old(Snapshot()), sid, table)
    {
      if sid in bySession {
        var state := bySession[sid];
        assert state in Snapshot().heap;
        state.spectatorOf := state.spectatorOf - {table};
        Forget(table, sid);
        UnindexedOne(old(tableObservers), table, sid);
        hide Unindexed;
        assert Snapshot().heap == old(Snapshot()).heap[state := state.Value()];
      }
    }

    method SetTableMoniker(sid: string, table: Option<string>)
      requires Valid()
      modifies this, states
      ensures Valid() && states == old(states)
      ensures Snapshot() == Seat(old(Snapshot()), sid, table)
    {
      if sid in bySession {
        var state := bySession[sid];
        assert state in Snapshot().heap;
        state.tableMoniker := table;
        Reindex(state);
        assert Snapshot().heap == old(Snapshot()).heap[state := state.Value()];
      }
    }

    method GetTableObservers(table: string) returns (sids: set<string>)
      requires Valid()
      ensures forall sid :: sid in sids <==> Sees(tableObservers, table, sid)
    {
      sids := Audience(tableObservers, table);
    }
  }

  /** The two ways a bind completes once the socket has been freed. */
  lemma BindAfterEviction<R>(before: Registry<R>, r: R, a: BindArgs)
    requires Keyed(before)
    requires var e := Evicted(before, a.sessionId, a.websocketId);
      if a.sessionId in e.bySession then r == e.bySession[a.sessionId] else r !in before.heap
    ensures var e := Evicted(before, a.sessionId, a.websocketId);
      var s := if a.sessionId in e.bySession then Updated(e.heap[r], a) else NewSession(a);
      var bySession := if a.sessionId in e.bySession then e.bySession else e.bySession[a.sessionId := r];
      Sessions.Bind(before, r, a)
        == Registry(e.heap[r := s], bySession, e.byWebsocket[a.websocketId := r],
             Indexed(e.observers, s.spectatorOf, s.sessionId))
    ensures BoundRef(before, r, a) == r && Keyed(Sessions.Bind(before, r, a))
  {
    hide Unindexed, Indexed, Updated, NewSession;
    BindKeyed(before, r, a);
    var e := Evicted(before, a.sessionId, a.websocketId);
    assert a.sessionId in e.bySession ==> e.bySession[a.sessionId := r] == e.bySession;
  }

  lemma UnindexedOne(obs: Observers, t: string, sid: string)
    ensures Unindexed(obs, {t}, sid) == PurgedAt(obs, t, sid)
  {
    var post := Unindexed(obs, {t}, sid);
    assert forall x :: x != t ==> (x in post <==> x in obs);
  }

  lemma UnindexedStep(obs: Observers, done: set<string>, t: string, sid: string)
    requires t !in done
    ensures Unindexed(obs, done + {t}, sid) == PurgedAt(Unindexed(obs, done, sid), t, sid)
  {
    var mid, post := Unindexed(obs, done, sid), Unindexed(obs, done + {t}, sid);
    assert t in mid <==> t in obs;
    assert forall x :: x != t ==> (x in post <==> x in mid);
    assert forall x :: x != t && x in post ==> post[x] == mid[x];
    assert t in post <==> t in obs && obs[t] - {sid} != {};
  }

  /** The index after one table forgets one session. */
  function PurgedAt(obs: Observers, t: string, sid: string): Observers {
    if t !in obs then obs
    else if obs[t] - {sid} == {} then obs - {t}
    else obs[t := obs[t] - {sid}]
  }

  lemma IndexedNone(obs: Observers, sid: string)
    ensures Indexed(obs, {}, sid) == obs
  {
    assert obs.Keys + {} == obs.Keys;
  }

  lemma IndexedStep(obs: Observers, done: set<string>, t: string, sid: string)
    requires t !in done
    ensures var mid := Indexed(obs, done, sid);
      Indexed(obs, done + {t}, sid) == mid[t := Audience(mid, t) + {sid}]
  {
  }
}
