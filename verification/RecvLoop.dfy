/**
  The client's background receive loop against aclose. The loop task and any number of aclose
  calls interleave at their await points; what an await comes back with is chosen by the
  environment, and so is whether a cancellation is delivered at the await or swallowed by it.
  No send or subscribe runs beside them, and terminal probing is off.
 */
module RecvLoop {
  import opened Basics

  datatype Socket = Open | Failed | BeingClosed | Closed

  /** The await the loop task is suspended at. */
  datatype LoopPc =
    | Unstarted
    | AtConnect
    | AtSleep(delay: real)
    | AtHook(left: nat)
    | AtRecv
    | AtPush
    | AtClose(sock: nat)
    | Ended

  /** Where one aclose call is: not called, awaiting the receive task, closing the socket, returned. */
  datatype CloserPc = Uncalled | Awaiting | Finishing(sock: Option<nat>) | Returned

  /**
    ws, stop and task are the connection's _ws, _recv_stop and _recv_task; cancel is a
    cancellation requested but not yet seen by the receive task; passes counts turns of the loop.
   */
  datatype State = State(
    ws: Option<nat>,
    socks: map<nat, Socket>,
    stop: bool,
    task: bool,
    cancel: bool,
    pc: LoopPc,
    passes: nat,
    backoff: real,
    closers: map<nat, CloserPc>
  )

  /** What an await of the loop comes back with. */
  datatype Outcome =
    | Done
    | Dialed(sock: nat, hooks: nat)
    | Unavailable
    | Received(parses: bool)
    | TimedOut
    | Broke
    | Raised
    | Cancelled

  datatype Event = Loop(outcome: Outcome) | PeerCloses(sock: nat) | Call(c: nat) | Resume(c: nat)

  function Min(a: real, b: real): real { if a < b then a else b }

  /** _is_closed, for a connection that may have no socket. */
  predicate IsClosed(s: State) {
    s.ws.None? || s.ws.value !in s.socks || s.socks[s.ws.value] != Open
  }

  // ------------------------------------------------------------- the loop

  /** From the head of the while loop to the next await. */
  function Head(s: State): State {
    if s.stop then s.(pc := Ended)
    else s.(passes := s.passes + 1, pc := if IsClosed(s) then AtConnect else AtRecv)
  }

  predicate CanResume(s: State, o: Outcome) {
    match o
    case Cancelled => s.cancel && s.pc != Ended
    case Done => s.pc.AtSleep? || s.pc.AtHook? || s.pc.AtPush? || s.pc.AtClose? || (s.pc.Unstarted? && !s.cancel)
    case Dialed(sock, _) => s.pc.AtConnect? && sock !in s.socks
    case Unavailable => s.pc.AtConnect?
    case Received(_) => s.pc.AtRecv?
    case TimedOut => s.pc.AtRecv?
    case Broke => s.pc.AtRecv?
    case Raised => s.pc.AtPush? || s.pc.AtConnect?
  }

  /** _recv_loop from one await to the next; a cancellation that is not delivered is used up. */
  function LoopStep(s: State, o: Outcome): State {
    var s := s.(cancel := false);
    match o
    case Cancelled => s.(pc := Ended)
    case Raised => s.(pc := Ended)
    case Unavailable => s.(pc := AtSleep(Min(s.backoff, 10.0)))
    case Dialed(sock, hooks) =>
      if s.stop then s.(socks := s.socks[sock := BeingClosed], pc := AtClose(sock))
      else
        var s := s.(ws := Some(sock), socks := s.socks[sock := Open], backoff := 0.5);
        if hooks == 0 then Head(s) else s.(pc := AtHook(hooks))
    case Received(parses) => if parses then s.(pc := AtPush) else Head(s)
    case TimedOut => Head(s)
    case Broke =>
      var s := if s.ws.Some? then s.(socks := s.socks[s.ws.value := Failed], ws := None) else s;
      Head(s)
    case Done =>
      match s.pc
      case AtSleep(_) => Head(s.(backoff := Min(s.backoff * 2.0, 10.0)))
      case AtHook(left) => if left > 1 then s.(pc := AtHook(left - 1)) else Head(s)
      case AtClose(sock) => s.(socks := s.socks[sock := Closed], pc := Ended)
      case _ => Head(s)
  }

  // --------------------------------------------------------------- aclose

  /** The tail of aclose: take the socket and start closing it. */
  function TakeSocket(s: State, c: nat): State {
    var s' := s.(ws := None, closers := s.closers[c := Finishing(s.ws)]);
    if IsClosed(s) then s' else s'.(socks := s.socks[s.ws.value := BeingClosed])
  }

  /** aclose up to its first await. */
  function CallStep(s: State, c: nat): State {
    var s' := s.(stop := true, task := false);
    if s.task && s.pc != Ended then s'.(cancel := true, closers := s.closers[c := Awaiting])
    else TakeSocket(s', c)
  }

  /** aclose from one of its awaits on. */
  function ResumeStep(s: State, c: nat): State
    requires c in s.closers
  {
    match s.closers[c]
    case Awaiting => TakeSocket(s, c)
    case Finishing(sock) =>
      var s' := s.(closers := s.closers[c := Returned]);
      if sock.Some? && sock.value in s.socks && s.socks[sock.value] == BeingClosed
      then s'.(socks := s.socks[sock.value := Closed]) else s'
    case _ => s
  }

  predicate Enabled(s: State, e: Event) {
    match e
    case Loop(o) => CanResume(s, o)
    case PeerCloses(sock) => sock in s.socks && s.socks[sock] == Open
    case Call(c) => c in s.closers && (s.closers[c] == Uncalled || s.closers[c] == Returned)
    case Resume(c) => c in s.closers && (s.closers[c].Finishing? || (s.closers[c] == Awaiting && s.pc == Ended))
  }

  function Step(s: State, e: Event): State
    requires Enabled(s, e)
  {
    match e
    case Loop(o) => LoopStep(s, o)
    case PeerCloses(sock) => s.(socks := s.socks[sock := Failed])
    case Call(c) => CallStep(s, c)
    case Resume(c) => ResumeStep(s, c)
  }

  /** The loop's task has just been created, on the socket subscribe dialed. */
  predicate Initial(s: State) {
    && s.pc == Unstarted && s.task && !s.stop && !s.cancel && s.backoff == 0.5 && s.passes == 0
    && s.ws.Some? && s.socks == map[s.ws.value := Open]
    && forall c :: c in s.closers ==> s.closers[c] == Uncalled
  }

  ghost predicate Possible(s: State, run: seq<Event>)
    decreases run
  {
    run == [] || (Enabled(s, run[0]) && Possible(Step(s, run[0]), run[1..]))
  }

  ghost function Exec(s: State, run: seq<Event>): State
    requires Possible(s, run)
    decreases run
  {
    if run == [] then s else Exec(Step(s, run[0]), run[1..])
  }

  // ---------------------------------------------------------- the invariant

  /** Someone is at work on closing the socket. */
  ghost predicate HasCloser(s: State, sock: nat) {
    s.pc == AtClose(sock) || exists c :: c in s.closers && s.closers[c] == Finishing(Some(sock))
  }

  ghost predicate Inv(s: State) {
    && (forall i :: i in s.socks && s.socks[i] == Open ==> s.ws == Some(i))
    && (forall i :: i in s.socks && s.socks[i] == BeingClosed ==> HasCloser(s, i))
    && (s.ws.Some? ==> s.ws.value in s.socks && s.socks[s.ws.value] != BeingClosed)
    && (s.pc.AtConnect? ==> IsClosed(s))
    && (s.pc.AtClose? ==> s.stop && !s.cancel)
    && (s.stop <==> exists c :: c in s.closers && s.closers[c] != Uncalled)
    && (s.cancel ==> s.stop)
    && (s.task <==> !s.stop)
    && (s.stop && s.pc != Ended ==> exists c :: c in s.closers && s.closers[c] == Awaiting)
    && (forall c :: c in s.closers && (s.closers[c].Finishing? || s.closers[c].Returned?) ==> s.ws == None)
    && 0.5 <= s.backoff <= 10.0
    && (s.pc.AtSleep? ==> s.pc.delay == s.backoff)
  }

  lemma InitialInv(s: State)
    requires Initial(s)
    ensures Inv(s)
  {
  }

  /** A socket being closed keeps its closer while the loop runs on. */
  lemma ClosersStay(s: State, post: State)
    requires Inv(s) && post.closers == s.closers && (s.pc.AtClose? ==> post.pc == s.pc)
    requires forall i :: i in post.socks && post.socks[i] == BeingClosed ==>
      post.pc == AtClose(i) || (i in s.socks && s.socks[i] == BeingClosed)
    ensures forall i :: i in post.socks && post.socks[i] == BeingClosed ==> HasCloser(post, i)
  {
    forall i | i in post.socks && post.socks[i] == BeingClosed ensures HasCloser(post, i) {
      if post.pc != AtClose(i) {
        assert HasCloser(s, i);
        var c :| c in s.closers && s.closers[c] == Finishing(Some(i));
        assert post.closers[c] == Finishing(Some(i));
      }
    }
  }

  lemma InvDialed(s: State, o: Outcome)
    requires Inv(s) && CanResume(s, o) && o.Dialed?
    ensures Inv(LoopStep(s, o))
  {
    ClosersStay(s, LoopStep(s, o));
    hide HasCloser;
  }

  lemma InvClosed(s: State)
    requires Inv(s) && CanResume(s, Done) && s.pc.AtClose?
    ensures Inv(LoopStep(s, Done))
  {
    var post := LoopStep(s, Done);
    forall i | i in post.socks && post.socks[i] == BeingClosed ensures HasCloser(post, i) {
      assert HasCloser(s, i);
      var c :| c in s.closers && s.closers[c] == Finishing(Some(i));
      assert post.closers[c] == Finishing(Some(i));
    }
  }

  lemma InvLoop(s: State, o: Outcome)
    requires Inv(s) && CanResume(s, o)
    ensures Inv(LoopStep(s, o))
  {
    if o.Dialed? {
      InvDialed(s, o);
      hide LoopStep, Inv;
    } else if s.pc.AtClose? {
      InvClosed(s);
      hide LoopStep, Inv;
    } else {
      ClosersStay(s, LoopStep(s, o));
      hide HasCloser;
    }
  }

  lemma InvPeer(s: State, sock: nat)
    requires Inv(s) && Enabled(s, PeerCloses(sock))
    ensures Inv(Step(s, PeerCloses(sock)))
  {
    var post := Step(s, PeerCloses(sock));
    forall i | i in post.socks && post.socks[i] == BeingClosed ensures HasCloser(post, i) {
      assert HasCloser(s, i);
    }
  }

  /** When one closer moves on, the sockets others close, and the one it now closes, have their closers. */
  lemma KeepsClosers(s: State, post: State, c: nat)
    requires Inv(s) && c in s.closers && c in post.closers
    requires post.closers == s.closers[c := post.closers[c]] && post.pc == s.pc
    requires forall i :: i in post.socks && post.socks[i] == BeingClosed ==>
      || post.closers[c] == Finishing(Some(i))
      || (i in s.socks && s.socks[i] == BeingClosed && s.closers[c] != Finishing(Some(i)))
    ensures forall i :: i in post.socks && post.socks[i] == BeingClosed ==> HasCloser(post, i)
  {
    forall i | i in post.socks && post.socks[i] == BeingClosed ensures HasCloser(post, i) {
      if post.closers[c] != Finishing(Some(i)) && s.pc != AtClose(i) {
        assert HasCloser(s, i);
        var d :| d in s.closers && s.closers[d] == Finishing(Some(i));
        assert post.closers[d] == Finishing(Some(i));
      }
    }
  }

  lemma InvCall(s: State, c: nat)
    requires Inv(s) && Enabled(s, Call(c))
    ensures Inv(Step(s, Call(c)))
  {
    var post := Step(s, Call(c));
    assert post.closers[c] != Uncalled;
    KeepsClosers(s, post, c);
    if post.pc != Ended && s.stop {
      var a :| a in s.closers && s.closers[a] == Awaiting;
      assert post.closers[a] == Awaiting;
    }
  }

  lemma InvResume(s: State, c: nat)
    requires Inv(s) && Enabled(s, Resume(c))
    ensures Inv(Step(s, Resume(c)))
  {
    var post := Step(s, Resume(c));
    assert post.closers[c] != Uncalled;
    KeepsClosers(s, post, c);
    if post.pc != Ended {
      var a :| a in s.closers && s.closers[a] == Awaiting;
      assert post.closers[a] == Awaiting;
    }
  }

  lemma InvStep(s: State, e: Event)
    requires Inv(s) && Enabled(s, e)
    ensures Inv(Step(s, e))
  {
    match e
    case Loop(o) => InvLoop(s, o);
    case PeerCloses(sock) => InvPeer(s, sock);
    case Call(c) => InvCall(s, c);
    case Resume(c) => InvResume(s, c);
  }

  lemma {:induction false} InvThroughout(s: State, run: seq<Event>)
    requires Inv(s) && Possible(s, run)
    ensures Inv(Exec(s, run))
    decreases run
  {
    if run != [] {
      InvStep(s, run[0]);
      hide Inv, Step, Enabled;
      InvThroughout(Step(s, run[0]), run[1..]);
    }
  }

  // -------------------------------------------------------------- results

  /** No aclose is under way and one has returned. */
  predicate Settled(s: State) {
    && (forall c :: c in s.closers ==> s.closers[c] == Uncalled || s.closers[c] == Returned)
    && (exists c :: c in s.closers && s.closers[c] == Returned)
  }

  /**
    Once aclose has returned and none is under way: the receive task has ended, _ws is None, and every
    socket there ever was has been closed or had failed.
   */
  lemma SettledMeansDone(s: State, run: seq<Event>)
    requires Initial(s) && Possible(s, run) && Settled(Exec(s, run))
    ensures var t := Exec(s, run);
      t.pc == Ended && t.ws == None && forall i :: i in t.socks ==> t.socks[i] == Closed || t.socks[i] == Failed
  {
    InitialInv(s);
    InvThroughout(s, run);
    var t := Exec(s, run);
    hide Exec, Possible;
    forall i | i in t.socks ensures t.socks[i] == Closed || t.socks[i] == Failed {
      assert !HasCloser(t, i);
    }
  }

  /**
    As soon as any aclose has returned, overlapping ones included, no socket is open and the
    connection holds none; and if the receive task has not ended, another aclose is still awaiting it.
   */
  lemma ReturnedMeansNoneOpen(s: State, run: seq<Event>, c: nat)
    requires Initial(s) && Possible(s, run)
    requires c in Exec(s, run).closers && Exec(s, run).closers[c] == Returned
    ensures var t := Exec(s, run);
      && t.ws == None && (forall i :: i in t.socks ==> t.socks[i] != Open)
      && (t.pc == Ended || exists a :: a in t.closers && t.closers[a] == Awaiting)
  {
    InitialInv(s);
    InvThroughout(s, run);
    hide Exec, Possible, HasCloser;
  }

  // ------------------------------------------------- what one call promises

  predicate Calls(run: seq<Event>, c: nat) {
    exists i :: 0 <= i < |run| && run[i] == Call(c)
  }

  /** Nothing of the receive loop is left running, and no socket is left open or held. */
  ghost predicate AllOver(s: State) {
    s.pc == Ended && s.ws == None && forall i :: i in s.socks ==> s.socks[i] != Open
  }

  /** The promise of the aclose under way in c: whatever happens before it returns, then all is over. */
  ghost predicate KeepsPromise(s: State, c: nat) {
    forall run :: Possible(s, run) && !Calls(run, c) ==>
      var t := Exec(s, run);
      c in t.closers && t.closers[c] == Returned ==> AllOver(t)
  }

  /** c cannot return before the loop has ended. */
  predicate Waits(s: State, c: nat) {
    s.pc == Ended || (c in s.closers && s.closers[c] == Awaiting)
  }

  lemma WaitsStep(s: State, e: Event, c: nat)
    requires Waits(s, c) && Enabled(s, e) && e != Call(c)
    ensures Waits(Step(s, e), c)
  {
  }

  lemma {:induction false} WaitsThroughout(s: State, run: seq<Event>, c: nat)
    requires Waits(s, c) && Possible(s, run) && !Calls(run, c)
    ensures Waits(Exec(s, run), c)
    decreases run
  {
    if run != [] {
      assert run[0] != Call(c);
      WaitsStep(s, run[0], c);
      assert forall i :: 0 <= i < |run| - 1 ==> run[1..][i] == run[i + 1];
      hide Waits, Step, Enabled;
      WaitsThroughout(Step(s, run[0]), run[1..], c);
    }
  }

  lemma ReturnedHoldsNothing(s: State, c: nat)
    requires Inv(s) && c in s.closers && s.closers[c] == Returned
    ensures s.ws == None && forall i :: i in s.socks ==> s.socks[i] != Open
  {
  }

  /**
    A call keeps the promise of aclose exactly when, as it is made, the loop has ended or nobody
    has taken the receive task yet; so exactly the overlapping later calls do not.
   */
  lemma KeepsPromiseIff(s: State, c: nat)
    requires Inv(s) && Enabled(s, Call(c))
    ensures KeepsPromise(Step(s, Call(c)), c) <==> s.pc == Ended || s.task
  {
    var s' := Step(s, Call(c));
    InvStep(s, Call(c));
    if s.pc == Ended || s.task {
      assert Waits(s', c);
      hide Inv, Waits, Step, Enabled, Possible, Exec, Calls, AllOver;
      forall run | Possible(s', run) && !Calls(run, c) ensures
        var t := Exec(s', run);
        c in t.closers && t.closers[c] == Returned ==> AllOver(t)
      {
        PromiseKept(s', run, c);
      }
    } else {
      assert Enabled(s', Resume(c));
      var run := [Resume(c)];
      assert Possible(Step(s', run[0]), []) && run[1..] == [];
      assert Possible(s', run) && Exec(s', run) == Step(s', Resume(c));
      assert !Calls(run, c) && Exec(s', run).closers[c] == Returned && !AllOver(Exec(s', run));
    }
  }

  lemma PromiseKept(s: State, run: seq<Event>, c: nat)
    requires Inv(s) && Waits(s, c) && Possible(s, run) && !Calls(run, c)
    ensures var t := Exec(s, run); c in t.closers && t.closers[c] == Returned ==> AllOver(t)
  {
    InvThroughout(s, run);
    WaitsThroughout(s, run, c);
    var t := Exec(s, run);
    hide Inv, Possible, Exec, Calls;
    if c in t.closers && t.closers[c] == Returned { ReturnedHoldsNothing(t, c); }
  }

  // ------------------------------------------------------- what the loop does

  /** The await is over and nothing is left to do before the loop's next turn. */
  predicate TurnsOver(s: State, o: Outcome) {
    match o
    case Done => !s.pc.AtClose? && !(s.pc.AtHook? && s.pc.left > 1)
    case Dialed(_, hooks) => !s.stop && hooks == 0
    case Received(parses) => !parses
    case TimedOut => true
    case Broke => true
    case _ => false
  }

  /**
    Where the loop goes from each await: a message that parses is pushed, a failed dial is slept
    off, a dial that comes too late is closed; and a new turn, which the stop flag forbids, reads
    from an open socket of its own if there is one and dials if there is none.
   */
  lemma NextAwait(s: State, o: Outcome)
    requires Inv(s) && CanResume(s, o)
    ensures var t := LoopStep(s, o);
      && (t.pc.AtPush? <==> o == Received(true))
      && (t.pc.AtSleep? <==> o == Unavailable)
      && (t.pc.AtClose? <==> o.Dialed? && s.stop)
      && (t.pc.AtHook? <==> (o.Dialed? && !s.stop && o.hooks > 0) || (o == Done && s.pc.AtHook? && s.pc.left > 1))
      && (t.pc.Ended? <==> o in {Cancelled, Raised} || (o == Done && s.pc.AtClose?) || (TurnsOver(s, o) && s.stop))
      && (t.pc.AtRecv? || t.pc.AtConnect? <==> TurnsOver(s, o) && !s.stop)
      && (t.pc.AtRecv? ==> t.ws.Some? && t.ws.value in t.socks && t.socks[t.ws.value] == Open)
      && (t.pc.AtConnect? ==> IsClosed(t))
  {
    hide HasCloser;
  }

  function LoopSteps(run: seq<Event>): nat {
    if run == [] then 0 else (if run[0].Loop? then 1 else 0) + LoopSteps(run[1..])
  }

  /** A loop with hooks to await awaits each of them before it reads or dials again. */
  lemma {:induction false} HooksAllRun(s: State, run: seq<Event>)
    requires Possible(s, run) && s.pc.AtHook? && LoopSteps(run) <= s.pc.left
    requires s.pc.left > 0 && Loop(Cancelled) !in run
    ensures var t := Exec(s, run);
      if LoopSteps(run) < s.pc.left then t.pc == AtHook(s.pc.left - LoopSteps(run))
      else t.pc.AtRecv? || t.pc.AtConnect? || t.pc.Ended?
    decreases run
  {
    if run != [] {
      var e, t := run[0], Step(s, run[0]);
      assert e != Loop(Cancelled) && Loop(Cancelled) !in run[1..];
      if t.pc.AtHook? {
        HooksAllRun(t, run[1..]);
      } else {
        assert e == Loop(Done) && s.pc.left == 1;
        StaysPut(t, run[1..]);
      }
    }
  }

  /** Without a step of its own the loop stays where it is. */
  lemma {:induction false} StaysPut(s: State, run: seq<Event>)
    requires Possible(s, run) && LoopSteps(run) == 0
    ensures Exec(s, run).pc == s.pc
    decreases run
  {
    if run != [] { StaysPut(Step(s, run[0]), run[1..]); }
  }

  function Doubled(n: nat): real {
    if n == 0 then 0.5 else 2.0 * Doubled(n - 1)
  }

  /** How many sleeps since the last dial that was kept, n of them before the run. */
  ghost function Slept(s: State, run: seq<Event>, n: nat): nat
    requires Possible(s, run)
    decreases run
  {
    if run == [] then n
    else
      var e := run[0];
      var m := if e.Loop? && e.outcome.Dialed? && !s.stop then 0
        else if e == Loop(Done) && s.pc.AtSleep? then n + 1 else n;
      Slept(Step(s, e), run[1..], m)
  }

  /** After n failed dials in a row the loop sleeps half a second doubled n times, ten seconds at most. */
  lemma {:induction false} BackoffIs(s: State, run: seq<Event>, n: nat)
    requires Inv(s) && Possible(s, run) && s.backoff == Min(Doubled(n), 10.0)
    ensures var t := Exec(s, run);
      var delay := Min(Doubled(Slept(s, run, n)), 10.0);
      t.backoff == delay && (t.pc.AtSleep? ==> t.pc.delay == delay)
    decreases run
  {
    if run != [] {
      var e := run[0];
      var m := if e.Loop? && e.outcome.Dialed? && !s.stop then 0
        else if e == Loop(Done) && s.pc.AtSleep? then n + 1 else n;
      BackoffStep(s, e, n, m);
      InvStep(s, e);
      hide Inv, Step, Enabled, Doubled;
      BackoffIs(Step(s, e), run[1..], m);
    }
  }

  lemma BackoffStep(s: State, e: Event, n: nat, m: nat)
    requires Enabled(s, e) && s.backoff == Min(Doubled(n), 10.0)
    requires m == if e.Loop? && e.outcome.Dialed? && !s.stop then 0
      else if e == Loop(Done) && s.pc.AtSleep? then n + 1 else n
    ensures Step(s, e).backoff == Min(Doubled(m), 10.0)
  {
    BackoffWrites(s, e);
    hide Step, Enabled, Min, Doubled;
    DoubledOnce(n);
  }

  lemma BackoffWrites(s: State, e: Event)
    requires Enabled(s, e)
    ensures Step(s, e).backoff == if e.Loop? && e.outcome.Dialed? && !s.stop then 0.5
      else if e == Loop(Done) && s.pc.AtSleep? then Min(s.backoff * 2.0, 10.0) else s.backoff
  {
    assert forall t: State :: Head(t).backoff == t.backoff;
    hide Min, IsClosed, Head;
    match e
    case Loop(o) => hide CallStep, ResumeStep;
    case _ => hide LoopStep;
  }

  lemma DoubledOnce(n: nat)
    ensures Min(Min(Doubled(n), 10.0) * 2.0, 10.0) == Min(Doubled(n + 1), 10.0) && Min(Doubled(0), 10.0) == 0.5
  {
    assert Doubled(n + 1) == 2.0 * Doubled(n);
    AtLeastHalf(n);
  }

  lemma {:induction false} AtLeastHalf(n: nat)
    ensures Doubled(n) >= 0.5
  {
    if n > 0 { AtLeastHalf(n - 1); }
  }

  // ------------------------------------------------------- how the loop ends

  /** How many awaits of the loop are left once the stop flag is set. */
  function Left(pc: LoopPc): nat {
    match pc
    case Ended => 0
    case AtConnect => 2
    case AtRecv => 2
    case AtHook(left) => if left == 0 then 1 else left
    case _ => 1
  }

  lemma StoppedStep(s: State, e: Event)
    requires Inv(s) && s.stop && Enabled(s, e)
    ensures var t := Step(s, e);
      && t.stop && t.passes == s.passes && (s.ws.None? ==> t.ws.None?)
      && (if e.Loop? then Left(t.pc) < Left(s.pc) else t.pc == s.pc)
  {
  }

  /**
    After the stop flag is set the loop begins no further pass, takes no socket, and comes to an
    end within the awaits of the pass it is in.
   */
  lemma {:induction false} StoppedRun(s: State, run: seq<Event>)
    requires Inv(s) && s.stop && Possible(s, run)
    ensures var t := Exec(s, run);
      && t.passes == s.passes && (s.ws.None? ==> t.ws.None?)
      && LoopSteps(run) + Left(t.pc) <= Left(s.pc)
    decreases run
  {
    if run != [] {
      InvStep(s, run[0]);
      StoppedStep(s, run[0]);
      hide Inv, Step, Enabled, Left;
      StoppedRun(Step(s, run[0]), run[1..]);
    }
  }

  /** The loop can always go on until it has ended, whatever its await comes back with. */
  lemma NeverStuck(s: State)
    requires Inv(s)
    ensures s.pc == Ended || exists o :: CanResume(s, o)
  {
    if s.pc.Unstarted? {
      assert CanResume(s, if s.cancel then Cancelled else Done);
    } else if s.pc.AtConnect? {
      assert CanResume(s, Unavailable);
    } else if s.pc.AtRecv? {
      assert CanResume(s, TimedOut);
    } else if s.pc != Ended {
      assert CanResume(s, Done);
    }
  }

  /** Once the stop flag is set the loop can be brought to its end from wherever it is. */
  lemma {:induction false} CanEnd(s: State) returns (run: seq<Event>)
    requires Inv(s) && s.stop
    ensures Possible(s, run) && Exec(s, run).pc == Ended && |run| <= Left(s.pc)
    decreases Left(s.pc)
  {
    if s.pc == Ended {
      run := [];
    } else {
      NeverStuck(s);
      var o :| CanResume(s, o);
      InvStep(s, Loop(o));
      StoppedStep(s, Loop(o));
      hide Inv, Step, CanResume, Left;
      var rest := CanEnd(Step(s, Loop(o)));
      run := [Loop(o)] + rest;
      assert run[1..] == rest;
    }
  }

  /**
    Overlapping calls: a second aclose finds the receive task taken and returns while the first still
    awaits it, and the loop, whose dial swallowed the cancellation, goes on to close what it dialed.
   */
  lemma SecondCallReturnsEarly(s: State, a: nat, b: nat) returns (before: seq<Event>, run: seq<Event>)
    requires Initial(s) && a in s.closers && b in s.closers && a != b
    ensures Possible(s, before) && run == before + [Call(b), Resume(b)]
    ensures var t := Exec(s, before);
      && Inv(t) && Enabled(t, Call(b)) && t.pc != Ended && !t.task
      && !KeepsPromise(Step(t, Call(b)), b)
    ensures Possible(s, run)
    ensures var t := Exec(s, run); b in t.closers && t.closers[b] == Returned && t.pc.AtClose?
  {
    var w := s.ws.value;
    assert Exec(s, []) == s;
    hide Possible, Exec;
    Extend(s, [], PeerCloses(w));
    run := [] + [PeerCloses(w)];
    Extend(s, run, Loop(Done));
    run := run + [Loop(Done)];
    Extend(s, run, Call(a));
    run := run + [Call(a)];
    Extend(s, run, Loop(Dialed(w + 1, 0)));
    before := run + [Loop(Dialed(w + 1, 0))];
    InitialInv(s);
    InvThroughout(s, before);
    KeepsPromiseIff(Exec(s, before), b);
    hide KeepsPromise;
    Extend(s, before, Call(b));
    Extend(s, before + [Call(b)], Resume(b));
    run := before + [Call(b)] + [Resume(b)];
    assert run == before + [Call(b), Resume(b)];
  }

  lemma {:induction false} Extend(s: State, run: seq<Event>, e: Event)
    requires Possible(s, run) && Enabled(Exec(s, run), e)
    ensures Possible(s, run + [e]) && Exec(s, run + [e]) == Step(Exec(s, run), e)
    decreases run
  {
    if run == [] {
      assert run + [e] == [e];
      assert Possible(Step(s, e), [e][1..]);
    } else {
      hide Enabled, Step;
      Extend(Step(s, run[0]), run[1..], e);
      assert (run + [e])[1..] == run[1..] + [e];
    }
  }
}
