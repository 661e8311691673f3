/**
  Who receives a member's messages: the two subscription maps, the service that updates them, and
  dispatches that interleave with subscriptions at every send. Sockets are numbered.
 */
module MessageFanout {
  import opened Basics

  /** _sessions, every subscribed socket of a moniker, and _subscribed, one of them. */
  datatype Subs = Subs(sessions: map<string, set<nat>>, subscribed: map<string, nat>)

  function Audience(s: Subs, m: string): set<nat> {
    if m in s.sessions then s.sessions[m] else {}
  }

  /** The sockets a dispatch sends to, with the fallback for a moniker that has only the one. */
  function Targets(s: Subs, m: string): set<nat> {
    if Audience(s, m) == {} && m in s.subscribed then {s.subscribed[m]} else Audience(s, m)
  }

  function Joined(s: Subs, m: string, ws: nat): Subs {
    Subs(s.sessions[m := Audience(s, m) + {ws}], s.subscribed[m := ws])
  }

  /** The sessions once ws has left m. */
  function Without(s: Subs, m: string, ws: nat): map<string, set<nat>> {
    if m !in s.sessions then s.sessions
    else if s.sessions[m] - {ws} == {} then s.sessions - {m}
    else s.sessions[m := s.sessions[m] - {ws}]
  }

  /** _drop_session; heir is the remaining socket the iteration happens to come upon. */
  function Dropped(s: Subs, m: string, ws: nat, heir: nat): Subs {
    var sessions := Without(s, m, ws);
    Subs(sessions,
      if m !in s.subscribed || s.subscribed[m] != ws then s.subscribed
      else if m in sessions && sessions[m] != {} then s.subscribed[m := heir]
      else s.subscribed - {m})
  }

  predicate MayInherit(s: Subs, m: string, ws: nat, heir: nat) {
    m in s.subscribed && s.subscribed[m] == ws && m in Without(s, m, ws) && Without(s, m, ws)[m] != {} ==>
      heir in Without(s, m, ws)[m]
  }

  /** The two maps name the same monikers, none of them without sockets, and the one is among the many. */
  ghost predicate Consistent(s: Subs) {
    && s.sessions.Keys == s.subscribed.Keys
    && (forall m :: m in s.sessions ==> s.sessions[m] != {} && s.subscribed[m] in s.sessions[m])
  }

  lemma FallbackUnused(s: Subs, m: string)
    requires Consistent(s)
    ensures Targets(s, m) == Audience(s, m) && (m in s.sessions <==> Targets(s, m) != {})
  {
  }

  lemma JoinedIs(s: Subs, m: string, ws: nat)
    requires Consistent(s)
    ensures Consistent(Joined(s, m, ws))
    ensures forall n, x :: x in Audience(Joined(s, m, ws), n) <==> x in Audience(s, n) || (n == m && x == ws)
  {
    assert s.subscribed[m := ws].Keys == s.subscribed.Keys + {m};
  }

  lemma DroppedIs(s: Subs, m: string, ws: nat, heir: nat)
    requires Consistent(s) && MayInherit(s, m, ws, heir)
    ensures Consistent(Dropped(s, m, ws, heir))
    ensures forall n, x :: x in Audience(Dropped(s, m, ws, heir), n) <==> x in Audience(s, n) && !(n == m && x == ws)
  {
    var t := Dropped(s, m, ws, heir);
    if m in s.sessions {
      var rest := s.sessions[m] - {ws};
      assert forall x :: x in rest <==> x in s.sessions[m] && x != ws;
      assert s.subscribed[m] != ws ==> s.subscribed[m] in rest;
      if rest == {} {
        assert t.sessions.Keys == s.sessions.Keys - {m} && t.subscribed.Keys == s.subscribed.Keys - {m};
      } else {
        assert t.sessions.Keys == s.sessions.Keys && t.subscribed.Keys == s.subscribed.Keys;
      }
    }
  }

  /** From s to t the moniker m has lost exactly the sockets gone, and nothing else has changed. */
  ghost predicate Lost(s: Subs, t: Subs, m: string, gone: set<nat>) {
    && (forall n :: Audience(t, n) == if n == m then Audience(s, n) - gone else Audience(s, n))
    && (forall n :: n in t.subscribed ==> n in s.subscribed)
    && (forall n :: n in t.subscribed && !(n == m && s.subscribed[n] in gone) ==> t.subscribed[n] == s.subscribed[n])
  }

  lemma DroppedLoses(s: Subs, m: string, ws: nat, heir: nat)
    requires Consistent(s) && MayInherit(s, m, ws, heir)
    ensures Lost(s, Dropped(s, m, ws, heir), m, {ws})
  {
    DroppedIs(s, m, ws, heir);
    var t := Dropped(s, m, ws, heir);
    forall n ensures Audience(t, n) == if n == m then Audience(s, n) - {ws} else Audience(s, n) {
      assert forall x :: x in Audience(t, n) <==> x in Audience(s, n) && !(n == m && x == ws);
    }
  }

  lemma LostNothing(s: Subs, m: string)
    ensures Lost(s, s, m, {})
  {
  }

  lemma LostMore(s: Subs, t: Subs, u: Subs, m: string, gone: set<nat>, more: set<nat>, last: set<nat>)
    requires Lost(s, t, m, gone) && Lost(t, u, m, last) && more == gone + last
    ensures Lost(s, u, m, more)
  {
  }

  // ------------------------------------------------------------ the service

  ghost predicate NoRepeats(q: seq<nat>) {
    forall i, j :: 0 <= i < j < |q| ==> q[i] != q[j]
  }

  function Elements(q: seq<nat>): set<nat> {
    set x | x in q
  }

  class MessageService {
    var sessions: map<string, set<nat>>
    var subscribed: map<string, nat>
    var seqNo: nat

    constructor ()
      ensures Valid() && Value() == Subs(map[], map[]) && seqNo == 0
    {
      sessions, subscribed, seqNo := map[], map[], 0;
    }

    function Value(): Subs
      reads this
    {
      Subs(sessions, subscribed)
    }

    ghost predicate Valid()
      reads this
    {
      Consistent(Value())
    }

    /** _handle_subscribe once access is granted */
    method Subscribe(m: string, ws: nat)
      requires Valid()
      modifies this`sessions, this`subscribed
      ensures Valid() && Value() == Joined(old(Value()), m, ws)
    {
      JoinedIs(Value(), m, ws);
      var sockets := if m in sessions then sessions[m] else {};
      sessions := sessions[m := sockets + {ws}];
      subscribed := subscribed[m := ws];
    }

    /** _drop_session; the heir is whichever remaining socket comes first. */
    method DropSession(m: string, ws: nat) returns (ghost heir: nat)
      requires Valid()
      modifies this`sessions, this`subscribed
      ensures MayInherit(old(Value()), m, ws, heir)
      ensures Valid() && Value() == Dropped(old(Value()), m, ws, heir)
    {
      ghost var before := Value();
      heir := 0;
      if m in sessions {
        var rest := sessions[m] - {ws};
        sessions := if rest == {} then sessions - {m} else sessions[m := rest];
      }
      if m in subscribed && subscribed[m] == ws {
        if m in sessions && sessions[m] != {} {
          var next :| next in sessions[m];
          heir := next;
          subscribed := subscribed[m := next];
        } else {
          subscribed := subscribed - {m};
        }
      }
      assert sessions == Without(before, m, ws);
      DroppedIs(before, m, ws, heir);
    }

    /** _handle_unsubscribe once access is granted: only the calling socket leaves. */
    method Unsubscribe(m: string, ws: nat) returns (ghost heir: nat)
      requires Valid()
      modifies this`sessions, this`subscribed
      ensures MayInherit(old(Value()), m, ws, heir)
      ensures Valid() && Value() == Dropped(old(Value()), m, ws, heir)
    {
      heir := DropSession(m, ws);
    }

    /** The sockets a dispatch will send to. */
    method FindTargets(m: string) returns (targets: set<nat>)
      ensures targets == Targets(Value(), m)
    {
      targets := if m in sessions then sessions[m] else {};
      if targets == {} && m in subscribed {
        targets := {subscribed[m]};
      }
    }

    /** One send of a dispatch; when it fails the socket is dropped. */
    method Deliver(m: string, ws: nat, ok: bool)
      requires Valid()
      modifies this`sessions, this`subscribed
      ensures Valid()
      ensures Lost(old(Value()), Value(), m, if ok then {} else {ws})
    {
      if !ok {
        ghost var before := Value();
        ghost var heir := DropSession(m, ws);
        DroppedLoses(before, m, ws, heir);
      }
    }

    /** The send loop of a dispatch; sends to the dead sockets fail. */
    method SendAll(m: string, all: set<nat>, dead: set<nat>) returns (tried: seq<nat>)
      requires Valid()
      modifies this`sessions, this`subscribed
      ensures Valid()
      ensures NoRepeats(tried) && Elements(tried) == all
      ensures Lost(old(Value()), Value(), m, all * dead)
    {
      ghost var before := Value();
      LostNothing(before, m);
      var targets := all;
      tried := [];
      assert (all - all) * dead == {};
      hide Consistent, Lost;
      while targets != {}
        invariant Valid()
        invariant NoRepeats(tried) && Elements(tried) == all - targets && targets <= all
        invariant Lost(before, Value(), m, (all - targets) * dead)
        decreases targets
      {
        var ws :| ws in targets;
        ghost var sofar, done := Value(), all - targets;
        targets := targets - {ws};
        tried := tried + [ws];
        assert all - targets == done + {ws};
        Deliver(m, ws, ws !in dead);
        LostMore(before, sofar, Value(), m, done * dead, (all - targets) * dead, if ws in dead then {ws} else {});
      }
      assert all - {} == all;
    }

    /**
      _dispatch_notification with nothing running beside it. Each subscribed socket is tried once
      and exactly those whose send succeeded stay; no other moniker changes. The number is that
      of the envelope's request id, None when there is nobody to send to.
     */
    method Dispatch(m: string, serving: bool, dead: set<nat>) returns (number: Option<nat>, tried: seq<nat>)
      requires Valid()
      modifies this
      ensures Valid()
      ensures number.None? <==> m == "" || old(Audience(Value(), m)) == {} || !serving
      ensures number.None? ==> Value() == old(Value()) && seqNo == old(seqNo) && tried == []
      ensures number.Some? ==> number.value == seqNo == old(seqNo) + 1
      ensures number.Some? ==> NoRepeats(tried) && Elements(tried) == old(Audience(Value(), m))
      ensures number.Some? ==> Lost(old(Value()), Value(), m, old(Audience(Value(), m)) * dead)
    {
      number, tried := None, [];
      if m == "" {
        return;
      }
      FallbackUnused(Value(), m);
      hide Consistent, Lost, Audience, Targets;
      var targets := FindTargets(m);
      if targets == {} || !serving {
        return;
      }
      seqNo := seqNo + 1;
      number := Some(seqNo);
      tried := SendAll(m, targets, dead);
    }
  }

  // -------------------------------------------------- interleaved dispatches

  /** One dispatch under way: the sockets it found, those tried, those left, and one being dropped. */
  datatype Flight = Flight(m: string, targets: set<nat>, tried: seq<nat>, left: seq<nat>, failing: Option<nat>)

  /** The service with its dispatches, each under its number. */
  datatype World = World(subs: Subs, seqNo: nat, flights: map<nat, Flight>)

  datatype Action =
    | Subscribe(m: string, ws: nat)
    | Unsubscribe(m: string, ws: nat, heir: nat)
    | Begin(m: string, order: seq<nat>)
    | Send(flight: nat, ok: bool)
    | Drop(flight: nat, m: string, ws: nat, heir: nat)

  function Start(): World { World(Subs(map[], map[]), 0, map[]) }

  ghost predicate Enabled(w: World, a: Action) {
    match a
    case Subscribe(_, _) => true
    case Unsubscribe(m, ws, heir) => MayInherit(w.subs, m, ws, heir)
    case Begin(m, order) => m != "" && order != [] && NoRepeats(order) && Elements(order) == Targets(w.subs, m)
    case Send(f, _) => f in w.flights && w.flights[f].failing.None? && w.flights[f].left != []
    case Drop(f, m, ws, heir) =>
      && f in w.flights && w.flights[f].m == m && w.flights[f].failing == Some(ws)
      && MayInherit(w.subs, m, ws, heir)
  }

  function Step(w: World, a: Action): World
    requires Enabled(w, a)
  {
    match a
    case Subscribe(m, ws) => w.(subs := Joined(w.subs, m, ws))
    case Unsubscribe(m, ws, heir) => w.(subs := Dropped(w.subs, m, ws, heir))
    case Begin(m, order) =>
      w.(seqNo := w.seqNo + 1,
         flights := w.flights[w.seqNo + 1 := Flight(m, Targets(w.subs, m), [], order, None)])
    case Send(f, ok) =>
      var d := w.flights[f];
      var ws := d.left[0];
      w.(flights := w.flights[f := d.(tried := d.tried + [ws], left := d.left[1..],
        failing := if ok then None else Some(ws))])
    case Drop(f, m, ws, heir) =>
      w.(subs := Dropped(w.subs, m, ws, heir), flights := w.flights[f := w.flights[f].(failing := None)])
  }

  ghost predicate Possible(run: seq<Action>)
    decreases run, 0
  {
    run == [] || (Possible(run[..|run| - 1]) && Enabled(Exec(run[..|run| - 1]), run[|run| - 1]))
  }

  /** The service after a run from its start. */
  ghost function Exec(run: seq<Action>): World
    requires Possible(run)
    decreases run, 1
  {
    if run == [] then Start() else Step(Exec(run[..|run| - 1]), run[|run| - 1])
  }

  /** What the last action about a socket and a moniker was: a subscription, or a removal. */
  predicate LastJoined(run: seq<Action>, m: string, ws: nat) {
    if run == [] then false
    else
      match run[|run| - 1]
      case Subscribe(n, x) => (n == m && x == ws) || LastJoined(run[..|run| - 1], m, ws)
      case Unsubscribe(n, x, _) => !(n == m && x == ws) && LastJoined(run[..|run| - 1], m, ws)
      case Drop(_, n, x, _) => !(n == m && x == ws) && LastJoined(run[..|run| - 1], m, ws)
      case _ => LastJoined(run[..|run| - 1], m, ws)
  }

  /**
    In every run of interleaved subscriptions, removals and dispatches the maps stay consistent,
    so the fallback is never used, and a socket is subscribed exactly when the last action about
    it was a subscription.
   */
  lemma {:induction false} SubscribedIff(run: seq<Action>, m: string, ws: nat)
    requires Possible(run)
    ensures Consistent(Exec(run).subs)
    ensures ws in Audience(Exec(run).subs, m) <==> LastJoined(run, m, ws)
    ensures Targets(Exec(run).subs, m) == Audience(Exec(run).subs, m)
    decreases run
  {
    if run != [] {
      var rest, a := run[..|run| - 1], run[|run| - 1];
      SubscribedIff(rest, m, ws);
      var s := Exec(rest).subs;
      match a {
        case Subscribe(n, x) => JoinedIs(s, n, x);
        case Unsubscribe(n, x, heir) => DroppedIs(s, n, x, heir);
        case Drop(_, n, x, heir) => DroppedIs(s, n, x, heir);
        case _ =>
      }
      hide Joined, Dropped, Consistent, MayInherit;
      FallbackUnused(Exec(run).subs, m);
    } else {
      FallbackUnused(Start().subs, m);
    }
  }

  /** A dispatch tries no socket twice, only those it found, and in the end all of them. */
  ghost predicate Sound(d: Flight) {
    && NoRepeats(d.tried + d.left) && Elements(d.tried + d.left) == d.targets
    && (d.failing.Some? ==> d.failing.value in d.tried)
  }

  lemma {:induction false} FlightsSound(run: seq<Action>, f: nat)
    requires Possible(run) && f in Exec(run).flights
    ensures f <= Exec(run).seqNo && Sound(Exec(run).flights[f])
    ensures Exec(run).flights[f].left == [] ==>
      Elements(Exec(run).flights[f].tried) == Exec(run).flights[f].targets && NoRepeats(Exec(run).flights[f].tried)
    decreases run
  {
    if run != [] {
      var rest, a := run[..|run| - 1], run[|run| - 1];
      var w := Exec(rest);
      var d := Exec(run).flights[f];
      if f in w.flights {
        FlightsSound(rest, f);
        if a.Send? && a.flight == f {
          var before := w.flights[f];
          assert d.tried + d.left == before.tried + before.left;
        }
      } else {
        assert a.Begin? && d.tried + d.left == a.order;
      }
      assert d.left == [] ==> d.tried + d.left == d.tried;
    }
  }

  /** Every dispatch gets a number of its own: a later one never takes that of an earlier one. */
  lemma NumbersAreFresh(run: seq<Action>, m: string, order: seq<nat>)
    requires Possible(run) && Enabled(Exec(run), Begin(m, order))
    ensures Exec(run).seqNo + 1 !in Exec(run).flights
  {
    if Exec(run).seqNo + 1 in Exec(run).flights { FlightsSound(run, Exec(run).seqNo + 1); }
  }

  /** Where a dispatch began: what it sends to is who was subscribed to its moniker then. */
  lemma {:induction false} FlightBegan(run: seq<Action>, f: nat) returns (i: nat)
    requires Possible(run) && f in Exec(run).flights
    ensures i < |run| && run[i].Begin? && Possible(run[..i]) && Exec(run[..i]).seqNo + 1 == f
    ensures Exec(run).flights[f].m == run[i].m
    ensures Exec(run).flights[f].targets == Audience(Exec(run[..i]).subs, run[i].m)
    decreases run
  {
    i := |run| - 1;
    var rest, a := run[..i], run[i];
    if f in Exec(rest).flights && !(a.Begin? && Exec(rest).seqNo + 1 == f) {
      i := FlightBegan(rest, f);
      assert rest[..i] == run[..i];
    } else {
      SubscribedIff(rest, a.m, 0);
    }
  }

  /** The last thing a dispatch did: a send, or the removal of a socket. */
  function LastOf(run: seq<Action>, f: nat): Option<Action> {
    if run == [] then None
    else
      var a := run[|run| - 1];
      if (a.Send? || a.Drop?) && a.flight == f then Some(a) else LastOf(run[..|run| - 1], f)
  }

  /** A dispatch has a socket to remove exactly when its last send failed, and it is that send's socket. */
  lemma {:induction false} FailedIsNext(run: seq<Action>, f: nat)
    requires Possible(run) && f in Exec(run).flights
    ensures var d := Exec(run).flights[f];
      && (d.failing.Some? <==> LastOf(run, f) == Some(Send(f, false)))
      && (d.failing.Some? ==> d.tried != [] && d.failing.value == d.tried[|d.tried| - 1])
    decreases run
  {
    var rest, a := run[..|run| - 1], run[|run| - 1];
    if f in Exec(rest).flights {
      FailedIsNext(rest, f);
      if a.Begin? { FlightsSound(rest, f); }
    } else {
      NothingYet(rest, f);
    }
  }

  lemma {:induction false} NothingYet(run: seq<Action>, f: nat)
    requires Possible(run) && f !in Exec(run).flights
    ensures LastOf(run, f) == None
    decreases run
  {
    if run != [] { NothingYet(run[..|run| - 1], f); }
  }

  // ------------------------------------------------- the most recent subscriber

  /** A sequence without one of its elements. */
  function Less(q: seq<nat>, ws: nat): seq<nat> {
    if q == [] then []
    else if q[|q| - 1] == ws then Less(q[..|q| - 1], ws)
    else Less(q[..|q| - 1], ws) + [q[|q| - 1]]
  }

  lemma {:induction false} LessIs(q: seq<nat>, ws: nat)
    requires NoRepeats(q)
    ensures NoRepeats(Less(q, ws)) && forall x :: x in Less(q, ws) <==> x in q && x != ws
    ensures q != [] && q[|q| - 1] != ws ==> Less(q, ws) != [] && Less(q, ws)[|Less(q, ws)| - 1] == q[|q| - 1]
  {
    if q != [] {
      var front, last := q[..|q| - 1], q[|q| - 1];
      LessIs(front, ws);
      assert q == front + [last];
      assert forall x :: x in q <==> x in front || x == last;
      assert last !in front;
    }
  }

  /** What an action does to the order of m's sockets. */
  function Reordered(order: seq<nat>, a: Action, m: string): seq<nat> {
    match a
    case Subscribe(n, x) => if n == m then Less(order, x) + [x] else order
    case Unsubscribe(n, x, _) => if n == m then Less(order, x) else order
    case Drop(_, n, x, _) => if n == m then Less(order, x) else order
    case _ => order
  }

  /** The sockets subscribed to m after a run, the one that subscribed last at the end. */
  function Order(run: seq<Action>, m: string): seq<nat> {
    if run == [] then [] else Reordered(Order(run[..|run| - 1], m), run[|run| - 1], m)
  }

  lemma AppendsNoRepeat(q: seq<nat>, x: nat)
    requires NoRepeats(q) && x !in q
    ensures NoRepeats(q + [x])
  {
    assert forall i :: 0 <= i < |q| ==> q[i] in q;
  }

  lemma ReorderedIs(w: World, order: seq<nat>, a: Action, m: string)
    requires Enabled(w, a) && Consistent(w.subs) && NoRepeats(order) && Elements(order) == Audience(w.subs, m)
    ensures var order', s' := Reordered(order, a, m), Step(w, a).subs;
      Consistent(s') && NoRepeats(order') && Elements(order') == Audience(s', m)
  {
    hide Dropped, Joined, Consistent, Audience, MayInherit, Less;
    assert forall x :: x in order <==> x in Audience(w.subs, m);
    var order', s' := Reordered(order, a, m), Step(w, a).subs;
    match a {
      case Subscribe(n, x) =>
        JoinedIs(w.subs, n, x);
        LessIs(order, x);
        AppendsNoRepeat(Less(order, x), x);
      case Unsubscribe(n, x, heir) => DroppedIs(w.subs, n, x, heir); LessIs(order, x);
      case Drop(_, n, x, heir) => DroppedIs(w.subs, n, x, heir); LessIs(order, x);
      case _ =>
    }
    assert forall y :: y in order' <==> y in Audience(s', m);
  }

  /** The order holds exactly the subscribed sockets, each once. */
  lemma {:induction false} OrderIs(run: seq<Action>, m: string)
    requires Possible(run)
    ensures NoRepeats(Order(run, m)) && Elements(Order(run, m)) == Audience(Exec(run).subs, m)
    ensures Consistent(Exec(run).subs)
    decreases run
  {
    if run != [] {
      var rest := run[..|run| - 1];
      OrderIs(rest, m);
      ReorderedIs(Exec(rest), Order(rest, m), run[|run| - 1], m);
      hide Reordered, Step, Enabled, Consistent, NoRepeats, Elements, Audience;
    }
  }

  /** _subscribed names the most recent subscriber that is left, where there is one. */
  ghost predicate NamesLatest(s: Subs, order: seq<nat>, m: string) {
    order != [] ==> m in s.subscribed && s.subscribed[m] == order[|order| - 1]
  }

  /** What an action removes from m, if it removes a socket from it. */
  function RemovedFrom(a: Action, m: string): Option<nat> {
    match a
    case Unsubscribe(n, x, _) => if n == m then Some(x) else None
    case Drop(_, n, x, _) => if n == m then Some(x) else None
    case _ => None
  }

  /** A removal names another than the most recent left: it takes the named socket and the wrong one inherits. */
  ghost predicate Misnames(order: seq<nat>, ws: nat, heir: nat) {
    var left := Less(order, ws);
    order != [] && order[|order| - 1] == ws && left != [] && heir != left[|left| - 1]
  }

  lemma RemovalNames(s: Subs, order: seq<nat>, m: string, ws: nat, heir: nat)
    requires Consistent(s) && NoRepeats(order) && Elements(order) == Audience(s, m) && NamesLatest(s, order, m)
    requires MayInherit(s, m, ws, heir)
    ensures NamesLatest(Dropped(s, m, ws, heir), Less(order, ws), m) <==> !Misnames(order, ws, heir)
  {
    LessIs(order, ws);
    var left := Less(order, ws);
    assert forall x :: x in left <==> x in Audience(s, m) && x != ws;
    if order != [] {
      assert order[|order| - 1] in Audience(s, m);
      if left != [] { assert left[|left| - 1] in s.sessions[m] - {ws}; }
    }
  }

  /** Any socket that is left may inherit from the named one. */
  lemma AnyMayInherit(s: Subs, order: seq<nat>, m: string, ws: nat, heir: nat)
    requires Consistent(s) && NoRepeats(order) && Elements(order) == Audience(s, m) && heir in Less(order, ws)
    ensures MayInherit(s, m, ws, heir)
  {
    LessIs(order, ws);
    assert heir in Audience(s, m) && heir != ws;
    assert heir in s.sessions[m] - {ws};
  }

  /**
    A removal is bound to leave the most recent one named, whichever socket inherits, exactly when
    it takes another socket than the named one or leaves no more than one.
   */
  lemma RemovalNamesLatestIff(s: Subs, order: seq<nat>, m: string, ws: nat)
    requires Consistent(s) && NoRepeats(order) && Elements(order) == Audience(s, m) && NamesLatest(s, order, m)
    ensures (forall heir :: MayInherit(s, m, ws, heir) ==> NamesLatest(Dropped(s, m, ws, heir), Less(order, ws), m))
       <==> (m !in s.subscribed || s.subscribed[m] != ws || |Audience(s, m) - {ws}| <= 1)
  {
    LessIs(order, ws);
    var left := Less(order, ws);
    LeftCount(s, order, m, ws);
    forall heir | MayInherit(s, m, ws, heir)
      ensures NamesLatest(Dropped(s, m, ws, heir), left, m) <==> !Misnames(order, ws, heir)
    {
      RemovalNames(s, order, m, ws, heir);
    }
    if |left| > 1 {
      AnyMayInherit(s, order, m, ws, left[0]);
      assert left[0] != left[|left| - 1];
    } else if left != [] {
      forall heir | MayInherit(s, m, ws, heir) && order[|order| - 1] == ws ensures heir == left[0] {
        OnlyOneInherits(s, order, m, ws, heir);
      }
    }
    hide Less, Dropped, MayInherit, Elements;
  }

  lemma LeftCount(s: Subs, order: seq<nat>, m: string, ws: nat)
    requires Consistent(s) && NoRepeats(order) && Elements(order) == Audience(s, m) && NamesLatest(s, order, m)
    ensures |Less(order, ws)| == |Audience(s, m) - {ws}|
    ensures (m in s.subscribed && s.subscribed[m] == ws) <==> (order != [] && order[|order| - 1] == ws)
  {
    LessIs(order, ws);
    assert Elements(Less(order, ws)) == Audience(s, m) - {ws};
    CountsOnce(Less(order, ws));
    if order != [] { assert order[|order| - 1] in Audience(s, m); }
    if m in s.subscribed { assert s.subscribed[m] in Elements(order); }
  }

  lemma {:induction false} CountsOnce(q: seq<nat>)
    requires NoRepeats(q)
    ensures |Elements(q)| == |q|
  {
    if q != [] {
      var front, last := q[..|q| - 1], q[|q| - 1];
      CountsOnce(front);
      assert q == front + [last];
      assert Elements(q) == Elements(front) + {last};
    }
  }

  lemma OnlyOneInherits(s: Subs, order: seq<nat>, m: string, ws: nat, heir: nat)
    requires Consistent(s) && NoRepeats(order) && Elements(order) == Audience(s, m) && NamesLatest(s, order, m)
    requires order != [] && order[|order| - 1] == ws && |Less(order, ws)| == 1 && MayInherit(s, m, ws, heir)
    ensures heir == Less(order, ws)[0]
  {
    LessIs(order, ws);
    var left := Less(order, ws);
    assert forall x :: x in left <==> x in Audience(s, m) && x != ws;
    assert left[0] in s.sessions[m] - {ws};
    assert heir in s.sessions[m] - {ws};
  }

  ghost predicate MisnamesAt(order: seq<nat>, a: Action, m: string) {
    RemovedFrom(a, m).Some? && Misnames(order, RemovedFrom(a, m).value, a.heir)
  }

  /** A step keeps the most recent one named exactly when it is not such a removal. */
  lemma StepNamesLatestIff(w: World, order: seq<nat>, a: Action, m: string)
    requires Enabled(w, a) && Consistent(w.subs) && NoRepeats(order) && Elements(order) == Audience(w.subs, m)
    requires NamesLatest(w.subs, order, m)
    ensures NamesLatest(Step(w, a).subs, Reordered(order, a, m), m) <==> !MisnamesAt(order, a, m)
  {
    hide Less, Elements, NoRepeats, Misnames, Dropped, Joined, Consistent, Audience, MayInherit;
    match a
    case Subscribe(n, x) => JoinedNames(w.subs, n, x, m);
    case Unsubscribe(n, x, heir) =>
      if n == m { RemovalNames(w.subs, order, m, x, heir); } else { OthersNamed(w.subs, n, x, heir, m); }
    case Drop(_, n, x, heir) =>
      if n == m { RemovalNames(w.subs, order, m, x, heir); } else { OthersNamed(w.subs, n, x, heir, m); }
    case _ =>
  }

  lemma JoinedNames(s: Subs, n: string, x: nat, m: string)
    ensures var t := Joined(s, n, x).subscribed;
      if n == m then m in t && t[m] == x else (m in t <==> m in s.subscribed) && (m in t ==> t[m] == s.subscribed[m])
  {
  }

  lemma OthersNamed(s: Subs, n: string, x: nat, heir: nat, m: string)
    requires n != m
    ensures var t := Dropped(s, n, x, heir).subscribed;
      (m in t <==> m in s.subscribed) && (m in t ==> t[m] == s.subscribed[m])
  {
  }

  /** In every state of the run the most recent subscriber left is the one named. */
  ghost predicate NamesThroughout(run: seq<Action>, m: string)
    requires Possible(run)
  {
    NamesLatest(Exec(run).subs, Order(run, m), m) && (run == [] || NamesThroughout(run[..|run| - 1], m))
  }

  ghost predicate NeverMisnames(run: seq<Action>, m: string) {
    run == [] ||
    (NeverMisnames(run[..|run| - 1], m) && !MisnamesAt(Order(run[..|run| - 1], m), run[|run| - 1], m))
  }

  /** Over every run: the comment on _subscribed is right in all its states exactly when no removal misnames. */
  lemma {:induction false} NamesThroughoutIff(run: seq<Action>, m: string)
    requires Possible(run)
    ensures NamesThroughout(run, m) <==> NeverMisnames(run, m)
    decreases run
  {
    if run != [] {
      NamesThroughoutIff(run[..|run| - 1], m);
      if NamesThroughout(run[..|run| - 1], m) {
        var rest := run[..|run| - 1];
        NamesNow(rest, m);
        OrderIs(rest, m);
        StepNamesLatestIff(Exec(rest), Order(rest, m), run[|run| - 1], m);
      }
      hide NamesLatest, MisnamesAt, Reordered, Step, Enabled, Consistent, NoRepeats, Elements, Audience;
    }
  }

  lemma NamesNow(run: seq<Action>, m: string)
    requires Possible(run) && NamesThroughout(run, m)
    ensures NamesLatest(Exec(run).subs, Order(run, m), m)
  {
  }

  /** One heir and the other: after the named socket has left two, either may be named. */
  lemma HeirIsArbitrary(m: string, heir: nat)
    requires heir == 1 || heir == 2
    ensures var run := [Subscribe(m, 1), Subscribe(m, 2), Subscribe(m, 3), Unsubscribe(m, 3, heir)];
      Possible(run) && m in Exec(run).subs.subscribed && Exec(run).subs.subscribed[m] == heir
  {
    var run := [Subscribe(m, 1)];
    Extend([], Subscribe(m, 1));
    assert [] + [Subscribe(m, 1)] == run;
    Extend(run, Subscribe(m, 2));
    Extend(run + [Subscribe(m, 2)], Subscribe(m, 3));
    run := run + [Subscribe(m, 2)] + [Subscribe(m, 3)];
    hide Possible, Exec;
    Extend(run, Unsubscribe(m, 3, heir));
    assert run + [Unsubscribe(m, 3, heir)]
      == [Subscribe(m, 1), Subscribe(m, 2), Subscribe(m, 3), Unsubscribe(m, 3, heir)];
  }

  lemma Extend(run: seq<Action>, a: Action)
    requires Possible(run) && Enabled(Exec(run), a)
    ensures Possible(run + [a]) && Exec(run + [a]) == Step(Exec(run), a)
  {
    assert (run + [a])[..|run|] == run;
  }
}
