/**
  The daemon's restart loop. What each started instance does, when a shutdown signal arrives, and
  the policy values in force when the loop reads them (a reload may change them) are given as a
  sequence of attempts; the loop's own decisions are what is modelled.
 */
module RestartLoop {

  /** Why start() raised. The first two are permanent bind failures. */
  datatype Failure = AddressUnavailable | HostUnresolved | Other

  datatype Policy = Policy(autorestart: bool, maxRestarts: int, retryBind: bool)

  datatype Ending = Served | Failed(cause: Failure)

  /**
    One instance: how start() ended, the policy then, and whether a shutdown was requested by
    then, or between then and the next turn of the loop.
   */
  datatype Attempt = Attempt(ending: Ending, policy: Policy, shutdown: bool, shutdownAfter: bool)

  datatype Event = Started(n: nat) | Stopped(n: nat)

  /** Running: the attempts given are used up and the loop would start another instance. */
  datatype Outcome = Running | Shutdown | Finished | GaveUp | Raised(cause: Failure) | Exit(status: int)

  predicate Permanent(f: Failure) { f != Other }

  /** A permanent bind failure that the policy does not override. */
  predicate Fatal(a: Attempt) {
    a.ending.Failed? && Permanent(a.ending.cause) && !a.policy.retryBind
  }

  /** The loop from instance i on, with its restart counter and shutdown flag. */
  function Run(env: seq<Attempt>, i: nat, count: nat, stopping: bool): (seq<Event>, Outcome)
    requires i <= |env|
    decreases |env| - i
  {
    if stopping then ([], Shutdown)
    else if i == |env| then ([], Running)
    else
      var a := env[i];
      match a.ending
      case Served =>
        if a.shutdown || !a.policy.autorestart then ([Started(i)], Finished)
        else
          var (events, outcome) := Run(env, i + 1, 0, a.shutdownAfter);
          ([Started(i)] + events, outcome)
      case Failed(cause) =>
        if a.shutdown then ([Started(i)], Shutdown)
        else if Fatal(a) then ([Started(i), Stopped(i)], Exit(2))
        else if !(a.policy.autorestart || Permanent(cause)) then ([Started(i), Stopped(i)], Raised(cause))
        else if count + 1 > a.policy.maxRestarts then ([Started(i), Stopped(i)], GaveUp)
        else
          var (events, outcome) := Run(env, i + 1, count + 1, a.shutdownAfter);
          ([Started(i), Stopped(i)] + events, outcome)
  }

  /** The loop of main_async. */
  method MainLoop(env: seq<Attempt>) returns (events: seq<Event>, outcome: Outcome)
    ensures (events, outcome) == Run(env, 0, 0, false)
  {
    var restartCount, shutdownRequested, i := 0, false, 0;
    events := [];
    ghost var whole := Run(env, 0, 0, false);
    while !shutdownRequested && i < |env|
      invariant i <= |env| && restartCount >= 0
      invariant whole.0 == events + Run(env, i, restartCount, shutdownRequested).0
      invariant whole.1 == Run(env, i, restartCount, shutdownRequested).1
    {
      var a := env[i];
      ghost var before := events;
      events := events + [Started(i)];
      if a.ending.Served? {
        restartCount := 0;
        if a.shutdown || !a.policy.autorestart {
          return events, Finished;
        }
      } else {
        if a.shutdown {
          return events, Shutdown;
        }
        var permanent := Permanent(a.ending.cause);
        events := events + [Stopped(i)];
        assert events == before + [Started(i), Stopped(i)];
        if permanent && !a.policy.retryBind {
          return events, Exit(2);
        }
        if !(a.policy.autorestart || (permanent && a.policy.retryBind)) {
          return events, Raised(a.ending.cause);
        }
        restartCount := restartCount + 1;
        if restartCount > a.policy.maxRestarts {
          return events, GaveUp;
        }
      }
      shutdownRequested := a.shutdownAfter;
      i := i + 1;
      ghost var rest := Run(env, i, restartCount, shutdownRequested).0;
      ghost var turn := if a.ending.Served? then [Started(i - 1)] else [Started(i - 1), Stopped(i - 1)];
      assert events == before + turn && before + (turn + rest) == (before + turn) + rest;
    }
    assert events + [] == events;
    outcome := if shutdownRequested then Shutdown else Running;
  }

  // ------------------------------------------- what the loop does, said without it

  /** How many instances in a row have failed, up to and including instance k. */
  function FailuresUpTo(env: seq<Attempt>, k: nat): nat
    requires k < |env|
  {
    if env[k].ending.Served? then 0 else if k == 0 then 1 else FailuresUpTo(env, k - 1) + 1
  }

  /** Instance k is followed by another. */
  predicate Continues(env: seq<Attempt>, k: nat)
    requires k < |env|
  {
    var a := env[k];
    && !a.shutdown && !a.shutdownAfter && !Fatal(a)
    && (a.policy.autorestart || (a.ending.Failed? && Permanent(a.ending.cause)))
    && FailuresUpTo(env, k) <= if a.ending.Failed? then a.policy.maxRestarts else 0
  }

  /** How many instances a run starts. */
  function Starts(env: seq<Attempt>): nat {
    StartsFrom(env, 0)
  }

  function StartsFrom(env: seq<Attempt>, i: nat): (n: nat)
    requires i <= |env|
    ensures i <= n <= |env|
    decreases |env| - i
  {
    if i == |env| then i else if Continues(env, i) then StartsFrom(env, i + 1) else i + 1
  }

  /** The events of instances i up to n: each is started, and stopped by the loop unless told not to. */
  function EventsOf(env: seq<Attempt>, i: nat, n: nat): seq<Event>
    requires i <= n <= |env|
    decreases n - i
  {
    if i == n then []
    else
      (if env[i].ending.Failed? && !env[i].shutdown then [Started(i), Stopped(i)] else [Started(i)])
        + EventsOf(env, i + 1, n)
  }

  /** How a run that started n instances ends. */
  function EndOf(env: seq<Attempt>, n: nat): Outcome
    requires n <= |env|
  {
    if n == 0 || Continues(env, n - 1) then Running
    else
      var a := env[n - 1];
      if a.ending.Served? then (if a.shutdown || !a.policy.autorestart then Finished else Shutdown)
      else if a.shutdown then Shutdown
      else if Fatal(a) then Exit(2)
      else if !(a.policy.autorestart || Permanent(a.ending.cause)) then Raised(a.ending.cause)
      else if FailuresUpTo(env, n - 1) > a.policy.maxRestarts then GaveUp
      else Shutdown
  }

  /** The counter is the number of failures in a row, so the loop does what this section says. */
  lemma {:induction false} RunIs(env: seq<Attempt>, i: nat, count: nat)
    requires i <= |env|
    requires count == if i == 0 then 0 else FailuresUpTo(env, i - 1)
    requires i > 0 ==> Continues(env, i - 1)
    ensures Run(env, i, count, false) == (EventsOf(env, i, StartsFrom(env, i)), EndOf(env, StartsFrom(env, i)))
    decreases |env| - i
  {
    if i < |env| {
      var a := env[i];
      assert FailuresUpTo(env, i) == if a.ending.Served? then 0 else count + 1;
      if Continues(env, i) {
        RunIs(env, i + 1, FailuresUpTo(env, i));
      } else {
        assert StartsFrom(env, i) == i + 1;
        assert EventsOf(env, i + 1, i + 1) == [];
        assert [Started(i), Stopped(i)] + [] == [Started(i), Stopped(i)] && [Started(i)] + [] == [Started(i)];
        assert Run(env, i + 1, if a.ending.Served? then 0 else count + 1, true) == ([], Shutdown);
      }
    }
  }

  lemma RunFromStart(env: seq<Attempt>)
    ensures Run(env, 0, 0, false) == (EventsOf(env, 0, Starts(env)), EndOf(env, Starts(env)))
  {
    RunIs(env, 0, 0);
  }

  /** Every started instance but the last was one to continue after. */
  lemma {:induction false} StartedMeansContinued(env: seq<Attempt>, i: nat, k: nat)
    requires i <= k < |env|
    ensures k < StartsFrom(env, i) - 1 ==> Continues(env, k)
    ensures StartsFrom(env, i) == k + 1 ==> k == |env| - 1 || !Continues(env, k)
    decreases |env| - i
  {
    if i < k && Continues(env, i) { StartedMeansContinued(env, i + 1, k); }
    else if i == k && Continues(env, i) && i + 1 < |env| { assert StartsFrom(env, i + 1) >= i + 2; }
  }

  /** With a fixed limit at most max(limit, 0) + 1 starts fail in a row. */
  lemma FailuresBounded(env: seq<Attempt>, limit: int, i: nat, j: nat)
    requires i <= j <= Starts(env)
    requires forall k :: 0 <= k < |env| ==> env[k].policy.maxRestarts == limit
    requires forall k :: i <= k < j ==> env[k].ending.Failed?
    ensures j - i <= (if limit > 0 then limit else 0) + 1
  {
    if i + 1 < j {
      StartedMeansContinued(env, 0, j - 2);
      FailuresCount(env, i, j - 2);
    }
  }

  lemma {:induction false} FailuresCount(env: seq<Attempt>, i: nat, k: nat)
    requires i <= k < |env| && forall m :: i <= m <= k ==> env[m].ending.Failed?
    ensures FailuresUpTo(env, k) >= k - i + 1
    decreases k
  {
    if i < k { FailuresCount(env, i, k - 1); }
  }

  /** The bound is met: when every start fails and may be retried, exactly that many are made. */
  lemma {:induction false} FailuresReachTheBound(env: seq<Attempt>, limit: int, i: nat)
    requires i <= |env| && i <= if limit > 0 then limit else 0
    requires forall k :: 0 <= k < |env| ==>
      && env[k].policy.maxRestarts == limit && env[k].ending.Failed? && !Fatal(env[k])
      && env[k].policy.autorestart && !env[k].shutdown && !env[k].shutdownAfter
    ensures var most := (if limit > 0 then limit else 0) + 1;
      StartsFrom(env, i) == if |env| < most then |env| else most
    decreases |env| - i
  {
    if i < |env| {
      AllFail(env, i);
      if i < limit { FailuresReachTheBound(env, limit, i + 1); }
    }
  }

  lemma {:induction false} AllFail(env: seq<Attempt>, k: nat)
    requires k < |env| && forall m :: 0 <= m <= k ==> env[m].ending.Failed?
    ensures FailuresUpTo(env, k) == k + 1
  {
    if k > 0 { AllFail(env, k - 1); }
  }

  /** Where an instance's events stand: right after those of the one before. */
  lemma {:induction false} StartFollows(env: seq<Attempt>, i: nat, n: nat, p: nat)
    requires i <= n <= |env| && p < |EventsOf(env, i, n)|
    ensures var e := EventsOf(env, i, n); var k := e[p].n;
      && i <= k < n
      && (e[p].Started? ==> (k == i <==> p == 0))
      && (e[p].Started? && k > i ==>
            e[p - 1] == if env[k - 1].ending.Failed? && !env[k - 1].shutdown then Stopped(k - 1) else Started(k - 1))
      && (e[p].Stopped? ==> p > 0 && e[p - 1] == Started(k) && env[k].ending.Failed? && !env[k].shutdown)
    decreases n - i
  {
    var e, rest := EventsOf(env, i, n), EventsOf(env, i + 1, n);
    var own := |e| - |rest|;
    assert e[own..] == rest;
    if p >= own {
      assert e[p] == rest[p - own];
      StartFollows(env, i + 1, n, p - own);
      if p > own { assert e[p - 1] == rest[p - own - 1]; }
    }
  }

  /**
    An instance is started only once the previous one's start has returned, or has failed and the
    instance has been stopped; only a failed instance is stopped by the loop.
   */
  lemma StoppedBeforeNext(env: seq<Attempt>, p: nat)
    requires p < |Run(env, 0, 0, false).0|
    ensures var e := Run(env, 0, 0, false).0; var k := e[p].n;
      && k < |env|
      && (e[p].Started? ==> (p == 0 <==> k == 0))
      && (e[p].Started? && k > 0 ==>
            e[p - 1] == if env[k - 1].ending.Failed? then Stopped(k - 1) else Started(k - 1))
      && (e[p].Stopped? ==> p > 0 && e[p - 1] == Started(k) && env[k].ending.Failed?)
  {
    RunFromStart(env);
    StartFollows(env, 0, Starts(env), p);
    var e := EventsOf(env, 0, Starts(env));
    if e[p].Started? && e[p].n > 0 { StartedMeansContinued(env, 0, e[p].n - 1); }
  }

  /** The run ends with status 2 exactly when the last instance failed to bind for good, on that attempt. */
  lemma FatalEndsTheRun(env: seq<Attempt>)
    ensures Run(env, 0, 0, false).1 == Exit(2) <==>
      Starts(env) > 0 && Fatal(env[Starts(env) - 1]) && !env[Starts(env) - 1].shutdown
    ensures forall k :: 0 <= k < Starts(env) && Fatal(env[k]) && !env[k].shutdown ==>
      k == Starts(env) - 1 && Run(env, 0, 0, false).1 == Exit(2)
  {
    RunFromStart(env);
    forall k | 0 <= k < Starts(env) && Fatal(env[k]) ensures k == Starts(env) - 1 {
      StartedMeansContinued(env, 0, k);
    }
  }
}
