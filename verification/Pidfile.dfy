/**
  Any number of processes claiming one pidfile, interleaved at every file-system call. A file has
  an inode, so a descriptor outlives the name; what a process writes overlays what is there.
 */
module Pidfile {
  import opened Basics
  import opened PyText

  /** What fits a C int; os.kill raises OverflowError on any other number. */
  predicate CInt(n: int) { -0x8000_0000 <= n <= 0x7fff_ffff }

  type Pid = p: nat | CInt(p)

  /** Where a process stands in _write_pidfile, or after it. */
  datatype Phase =
    | Fresh
    | Checking(pid: int)
    | Opening(exclusive: bool, retried: bool)
    | Writing(inode: nat)
    | Closing(inode: nat)
    | Unlinking(inode: nat)
    | Holding(inode: nat)
    | Refused
    | Unclaimed
    | Removed
    | Gone

  /** The file system, who is alive, and each process. */
  datatype State = State(path: Option<nat>, text: map<nat, string>, live: iset<int>, phase: map<Pid, Phase>)

  /** One call of one process; ok is whether the call succeeds where it may fail for its own reasons. */
  datatype Action =
    | Read(p: Pid, ok: bool)
    | Probe(p: Pid)
    | Open(p: Pid, ok: bool, inode: nat)
    | Write(p: Pid, ok: bool)
    | Close(p: Pid, ok: bool)
    | Unlink(p: Pid, ok: bool)
    | Remove(p: Pid, ok: bool)
    | Die(p: Pid)

  /** int(f.read().strip()) */
  function Recorded(text: string): Option<int> {
    PyInt(Strip(text))
  }

  /** What a process finds recorded; a missing file and an unreadable number are alike. */
  function Existing(s: State): Option<int> {
    if s.path.Some? && s.path.value in s.text then Recorded(s.text[s.path.value]) else None
  }

  /** Writing at the start of a file keeps what lies beyond the written text. */
  function Overlaid(before: string, after: string): string {
    if |before| <= |after| then after else after + before[|after|..]
  }

  ghost predicate Enabled(s: State, a: Action) {
    a.p in s.phase &&
    var ph := s.phase[a.p];
    match a
    case Read(_, _) => ph == Fresh
    case Probe(_) => ph.Checking?
    case Open(_, _, inode) => ph.Opening? && (s.path.None? ==> inode !in s.text)
    case Write(_, _) => ph.Writing?
    case Close(_, _) => ph.Closing?
    case Unlink(_, _) => ph.Unlinking?
    case Remove(_, _) => ph.Holding?
    case Die(_) => ph != Gone
  }

  function At(s: State, p: Pid, ph: Phase): State {
    s.(phase := s.phase[p := ph])
  }

  /** open(): exclusively, once more if the file is there, or truncating whatever is there. */
  function Opened(s: State, p: Pid, ph: Phase, ok: bool, inode: nat): State
    requires ph.Opening?
  {
    if !ok then At(s, p, Unclaimed)
    else if ph.exclusive && s.path.Some? then At(s, p, if ph.retried then Unclaimed else Opening(true, true))
    else
      var i := if s.path.Some? then s.path.value else inode;
      At(s, p, Writing(i)).(path := Some(i), text := s.text[i := ""])
  }

  function Step(s: State, a: Action): State
    requires a.p in s.phase
  {
    var p, ph := a.p, s.phase[a.p];
    match a
    case Read(_, ok) =>
      if !ok then At(s, p, Unclaimed)
      else
        (match Existing(s)
         case None => At(s, p, Opening(true, false))
         case Some(pid) => At(s, p, if pid == p then Opening(false, false) else Checking(pid)))
    case Probe(_) =>
      if !ph.Checking? then s
      else At(s, p, if !CInt(ph.pid) then Unclaimed else if ph.pid in s.live then Refused else Opening(false, false))
    case Open(_, ok, inode) => if ph.Opening? then Opened(s, p, ph, ok, inode) else s
    case Write(_, ok) =>
      if !ph.Writing? then s
      else if !ok then At(s, p, Closing(ph.inode))
      else
        var before := if ph.inode in s.text then s.text[ph.inode] else "";
        At(s, p, Holding(ph.inode)).(text := s.text[ph.inode := Overlaid(before, Digits(p) + "\n")])
    case Close(_, ok) => if ph.Closing? then At(s, p, if ok then Unlinking(ph.inode) else Unclaimed) else s
    case Unlink(_, ok) => if ok then At(s, p, Unclaimed).(path := None) else At(s, p, Unclaimed)
    case Remove(_, ok) => if ok then At(s, p, Removed).(path := None) else At(s, p, Removed)
    case Die(_) => At(s, p, Gone).(live := s.live - iset{p as int})
  }

  /** Processes about to start, all alive, whatever the file system holds. */
  ghost predicate Initial(s: State) {
    && (s.path.Some? ==> s.path.value in s.text)
    && (forall p :: p in s.phase ==> s.phase[p] == Fresh && p in s.live)
  }

  ghost predicate Possible(s: State, run: seq<Action>)
    decreases run
  {
    run == [] || (Enabled(s, run[0]) && Possible(Step(s, run[0]), run[1..]))
  }

  ghost function Exec(s: State, run: seq<Action>): State
    requires Possible(s, run)
    decreases run
  {
    if run == [] then s else Exec(Step(s, run[0]), run[1..])
  }

  /** No process goes away while the file records it or another process is about to probe it. */
  ghost predicate Careful(s: State, a: Action) {
    a.Die? ==>
      Existing(s) != Some(a.p) && forall q :: q in s.phase && s.phase[q].Checking? ==> s.phase[q].pid != a.p
  }

  ghost predicate CarefulRun(s: State, run: seq<Action>)
    requires Possible(s, run)
    decreases run
  {
    run == [] || (Careful(s, run[0]) && CarefulRun(Step(s, run[0]), run[1..]))
  }

  ghost predicate OneHolder(s: State) {
    forall p, q :: p in s.phase && q in s.phase && s.phase[p].Holding? && s.phase[q].Holding? ==> p == q
  }

  // ------------------------------------------------------------- the record

  lemma RecordedPid(p: Pid)
    ensures Recorded(Overlaid("", Digits(p) + "\n")) == Some(p)
  {
    var d := Digits(p);
    assert forall i :: 0 <= i < |d| ==> IsDigit(d[i]);
    hide Digits;
    StripsNewline(d);
    PyIntOfDigits(p);
    hide *;
  }

  lemma StripsNewline(d: string)
    requires d != "" && AllDigits(d)
    ensures Strip(d + "\n") == d
  {
    var s := d + "\n";
    assert s[0] == d[0];
    assert LStrip(s) == s;
    assert s[..|s| - 1] == d && IsSpace(s[|s| - 1]);
    assert RStrip(s) == RStrip(d) == d;
  }

  lemma NothingRecorded()
    ensures Recorded("") == None
  {
  }

  // ---------------------------------------------------------- the invariant

  /** p has the file open, or closed it and is about to unlink it. */
  predicate Owns(ph: Phase) { ph.Writing? || ph.Closing? || ph.Unlinking? || ph.Holding? }

  /** A probe of this number does not send anyone to the truncating open. */
  ghost predicate PassesProbe(s: State, pid: int) { CInt(pid) ==> pid in s.live }

  ghost predicate Inv(s: State) {
    && (s.path.Some? ==> s.path.value in s.text)
    && (forall p :: p in s.phase ==> p in s.live || s.phase[p] == Gone)
    && (forall p :: p in s.phase && Owns(s.phase[p]) ==>
          s.path == Some(s.phase[p].inode)
          && if s.phase[p].Holding? then Existing(s) == Some(p) else s.text[s.path.value] == "")
    && (forall p, q :: p in s.phase && q in s.phase && Owns(s.phase[p]) && Owns(s.phase[q]) ==> p == q)
    && (Existing(s).Some? ==> PassesProbe(s, Existing(s).value))
    && (forall p :: p in s.phase && s.phase[p].Checking? ==> PassesProbe(s, s.phase[p].pid) && s.phase[p].pid != p)
    && (forall p :: p in s.phase && s.phase[p].Opening? && !s.phase[p].exclusive ==> Existing(s) == Some(p))
  }

  /** The file records a process id of which no process is running. */
  ghost predicate Stale(s: State) {
    Existing(s).Some? && !PassesProbe(s, Existing(s).value)
  }

  lemma InitialInv(s: State)
    requires Initial(s)
    ensures Inv(s) <==> !Stale(s)
  {
  }

  /** A process moves on without touching the file. */
  lemma InvAt(s: State, p: Pid, ph: Phase)
    requires Inv(s) && p in s.phase && p in s.live
    requires Owns(ph) ==> Owns(s.phase[p]) && !s.phase[p].Holding? && !ph.Holding? && ph.inode == s.phase[p].inode
    requires ph.Checking? ==> PassesProbe(s, ph.pid) && ph.pid != p
    requires ph.Opening? && !ph.exclusive ==> Existing(s) == Some(p)
    ensures Inv(At(s, p, ph))
  {
    SameRecord(s, p, ph);
    hide Existing;
  }

  lemma SameRecord(s: State, p: Pid, ph: Phase)
    ensures Existing(At(s, p, ph)) == Existing(s)
  {
  }

  lemma InvRead(s: State, p: Pid, ok: bool)
    requires Inv(s) && Enabled(s, Read(p, ok))
    ensures Inv(Step(s, Read(p, ok)))
  {
    var ph := if !ok then Unclaimed else if Existing(s).None? then Opening(true, false)
      else if Existing(s).value == p then Opening(false, false) else Checking(Existing(s).value);
    assert Step(s, Read(p, ok)) == At(s, p, ph);
    assert p in s.live && (Existing(s).Some? ==> PassesProbe(s, Existing(s).value));
    hide Existing, Inv, Step, Enabled;
    InvAt(s, p, ph);
  }

  lemma InvProbe(s: State, p: Pid)
    requires Inv(s) && Enabled(s, Probe(p))
    ensures Inv(Step(s, Probe(p)))
  {
    var ph := if CInt(s.phase[p].pid) then Refused else Unclaimed;
    assert Step(s, Probe(p)) == At(s, p, ph);
    InvAt(s, p, ph);
    hide Existing, Inv, Step;
  }

  /** Whoever gets to create or truncate the file finds it without an owner and no one else about to truncate. */
  lemma NoOwnerAtOpen(s: State, p: Pid)
    requires Inv(s) && p in s.phase && s.phase[p].Opening? && !(s.phase[p].exclusive && s.path.Some?)
    ensures forall q :: q in s.phase ==> !Owns(s.phase[q])
    ensures forall q :: q in s.phase && q != p && s.phase[q].Opening? ==> s.phase[q].exclusive
  {
    NothingRecorded();
    hide Recorded;
  }

  lemma InvOpened(s: State, p: Pid, i: nat)
    requires Inv(s) && p in s.phase && p in s.live
    requires forall q :: q in s.phase ==> !Owns(s.phase[q])
    requires forall q :: q in s.phase && q != p && s.phase[q].Opening? ==> s.phase[q].exclusive
    ensures Inv(At(s, p, Writing(i)).(path := Some(i), text := s.text[i := ""]))
  {
    NothingRecorded();
    var post := At(s, p, Writing(i)).(path := Some(i), text := s.text[i := ""]);
    assert Existing(post) == None;
    hide Existing;
  }

  lemma InvOpen(s: State, p: Pid, ok: bool, inode: nat)
    requires Inv(s) && Enabled(s, Open(p, ok, inode))
    ensures Inv(Step(s, Open(p, ok, inode)))
  {
    assert p in s.live;
    hide Existing, Inv;
    if ok && !(s.phase[p].exclusive && s.path.Some?) {
      NoOwnerAtOpen(s, p);
      InvOpened(s, p, if s.path.Some? then s.path.value else inode);
    } else {
      InvAt(s, p, Unclaimed);
      InvAt(s, p, Opening(true, true));
    }
  }

  lemma InvWrite(s: State, p: Pid, ok: bool)
    requires Inv(s) && Enabled(s, Write(p, ok))
    ensures Inv(Step(s, Write(p, ok)))
  {
    NothingRecorded();
    RecordedPid(p);
    hide Recorded, Overlaid, Digits;
  }

  lemma InvClose(s: State, p: Pid, ok: bool)
    requires Inv(s) && Enabled(s, Close(p, ok))
    ensures Inv(Step(s, Close(p, ok)))
  {
    assert p in s.live;
    hide Existing, Inv;
    InvAt(s, p, if ok then Unlinking(s.phase[p].inode) else Unclaimed);
  }

  /** The owner of the file takes it away; nobody was about to truncate it. */
  lemma InvUnlinked(s: State, p: Pid, ph: Phase)
    requires Inv(s) && p in s.phase && Owns(s.phase[p]) && (ph == Unclaimed || ph == Removed)
    ensures Inv(At(s, p, ph).(path := None))
  {
    SoleOwner(s, p);
    var post := At(s, p, ph).(path := None);
    assert Existing(post) == None;
    assert forall q :: q in post.phase ==> post.phase[q] == ph || (q != p && post.phase[q] == s.phase[q]);
    hide Existing, Owns, PassesProbe;
  }

  lemma SoleOwner(s: State, p: Pid)
    requires Inv(s) && p in s.phase && Owns(s.phase[p])
    ensures forall q :: q in s.phase && q != p ==> !Owns(s.phase[q])
    ensures forall q :: q in s.phase && q != p && s.phase[q].Opening? ==> s.phase[q].exclusive
  {
    NothingRecorded();
    assert s.phase[p].Holding? || Existing(s) == None;
    hide Existing, PassesProbe;
  }

  /** Unlinking, after a failed write or on the way out. */
  lemma InvUnlink(s: State, a: Action)
    requires Inv(s) && Enabled(s, a) && (a.Unlink? || a.Remove?)
    ensures Inv(Step(s, a))
  {
    assert a.p in s.live;
    hide Existing, Inv;
    var ph := if a.Unlink? then Unclaimed else Removed;
    if a.ok { InvUnlinked(s, a.p, ph); } else { InvAt(s, a.p, ph); }
  }

  /** A death keeps the invariant exactly when it is careful. */
  lemma InvDieIff(s: State, p: Pid)
    requires Inv(s) && Enabled(s, Die(p))
    ensures Inv(Step(s, Die(p))) <==> Careful(s, Die(p))
  {
    var post := Step(s, Die(p));
    assert Existing(post) == Existing(s);
    hide Existing;
    if !Careful(s, Die(p)) && Existing(s) != Some(p) {
      var q :| q in s.phase && s.phase[q].Checking? && s.phase[q].pid == p;
      assert post.phase[q] == s.phase[q] && p as int !in post.live;
    }
  }

  lemma InvStep(s: State, a: Action)
    requires Inv(s) && Enabled(s, a) && Careful(s, a)
    ensures Inv(Step(s, a))
  {
    hide Inv, Step, Enabled, Careful;
    match a
    case Read(p, ok) => InvRead(s, p, ok);
    case Probe(p) => InvProbe(s, p);
    case Open(p, ok, inode) => InvOpen(s, p, ok, inode);
    case Write(p, ok) => InvWrite(s, p, ok);
    case Close(p, ok) => InvClose(s, p, ok);
    case Die(p) => InvDieIff(s, p);
    case _ => InvUnlink(s, a);
  }

  lemma {:induction false} InvThroughout(s: State, run: seq<Action>)
    requires Inv(s) && Possible(s, run) && CarefulRun(s, run)
    ensures Inv(Exec(s, run))
    decreases run
  {
    if run != [] {
      InvStep(s, run[0]);
      hide Inv, Step, Enabled, Careful;
      InvThroughout(Step(s, run[0]), run[1..]);
    }
  }

  // ------------------------------------------------------- how a claim ends

  /** Which call brings a process to each end, and that no process moves another. */
  lemma ClaimEnds(s: State, a: Action)
    requires Enabled(s, a)
    ensures var before, after := s.phase[a.p], Step(s, a).phase[a.p];
      && (after == Refused <==> a.Probe? && CInt(before.pid) && before.pid in s.live)
      && (after == Unclaimed <==>
            || (a.Read? && !a.ok) || (a.Probe? && !CInt(before.pid)) || (a.Close? && !a.ok) || a.Unlink?
            || (a.Open? && (!a.ok || (before.exclusive && before.retried && s.path.Some?))))
      && (after.Holding? <==> a.Write? && a.ok)
      && (after == Removed <==> a.Remove?)
      && (after == Opening(true, true) <==>
            a.Open? && a.ok && before.exclusive && !before.retried && s.path.Some?)
      && (after == Opening(true, false) <==> a.Read? && a.ok && Existing(s) == None)
      && (after == Opening(false, false) <==>
            || (a.Read? && a.ok && Existing(s) == Some(a.p))
            || (a.Probe? && !PassesProbe(s, before.pid)))
    ensures Step(s, a).phase == s.phase[a.p := Step(s, a).phase[a.p]]
  {
    hide Existing, Overlaid, Digits;
  }

  /** The most calls a process can still make, its exit included. */
  function CallsLeft(ph: Phase): nat {
    match ph
    case Fresh => 7
    case Checking(_) => 6
    case Opening(exclusive, retried) => if exclusive && !retried then 6 else 5
    case Writing(_) => 4
    case Closing(_) => 3
    case Unlinking(_) => 2
    case Holding(_) => 2
    case Gone => 0
    case _ => 1
  }

  function CallsOf(run: seq<Action>, p: Pid): nat {
    if run == [] then 0 else (if run[0].p == p then 1 else 0) + CallsOf(run[1..], p)
  }

  /** However the others interleave, a process has claimed the file or given up after six calls. */
  lemma {:induction false} CallsBounded(s: State, run: seq<Action>, p: Pid)
    requires Possible(s, run) && p in s.phase
    ensures p in Exec(s, run).phase
    ensures CallsOf(run, p) + CallsLeft(Exec(s, run).phase[p]) <= CallsLeft(s.phase[p])
    decreases run
  {
    if run != [] {
      CallsStep(s, run[0], p);
      hide Step, Enabled, CallsLeft;
      CallsBounded(Step(s, run[0]), run[1..], p);
    }
  }

  lemma CallsStep(s: State, a: Action, p: Pid)
    requires Enabled(s, a) && p in s.phase
    ensures p in Step(s, a).phase
    ensures CallsLeft(Step(s, a).phase[p]) + (if a.p == p then 1 else 0) <= CallsLeft(s.phase[p])
  {
    hide Existing, Overlaid, Digits;
  }

  // -------------------------------------------------------- one descriptor

  /** Whatever happens in a careful run, at most one process at a time has a descriptor. */
  ghost predicate Exclusive(s: State) {
    forall run :: Possible(s, run) && CarefulRun(s, run) ==> OneHolder(Exec(s, run))
  }

  lemma OneHolderThroughout(s: State, run: seq<Action>)
    requires Initial(s) && !Stale(s) && Possible(s, run) && CarefulRun(s, run)
    ensures OneHolder(Exec(s, run))
  {
    InitialInv(s);
    InvThroughout(s, run);
    hide Existing, Possible, Exec, CarefulRun;
  }

  lemma {:induction false} Extend(s: State, run: seq<Action>, a: Action)
    requires Possible(s, run) && Enabled(Exec(s, run), a)
    ensures Possible(s, run + [a]) && Exec(s, run + [a]) == Step(Exec(s, run), a)
    ensures CarefulRun(s, run) && Careful(Exec(s, run), a) ==> CarefulRun(s, run + [a])
    decreases run
  {
    if run == [] {
      assert run + [a] == [a];
      assert Possible(Step(s, a), [a][1..]);
      assert CarefulRun(Step(s, a), [a][1..]);
    } else {
      hide Enabled, Step, Careful;
      Extend(Step(s, run[0]), run[1..], a);
      assert (run + [a])[1..] == run[1..] + [a];
    }
  }

  lemma AtTwice(s: State, p: Pid, ph: Phase, ph': Phase)
    ensures At(At(s, p, ph), p, ph') == At(s, p, ph')
  {
    assert s.phase[p := ph][p := ph'] == s.phase[p := ph'];
  }

  /** The calls a process makes on its way to a descriptor, one by one. */
  lemma ReadsPid(s: State, p: Pid, pid: int)
    requires p in s.phase && s.phase[p] == Fresh && Existing(s) == Some(pid)
    ensures Enabled(s, Read(p, true))
    ensures Step(s, Read(p, true)) == At(s, p, if pid == p then Opening(false, false) else Checking(pid))
  {
    hide Existing;
  }

  lemma ReadsNothing(s: State, p: Pid)
    requires p in s.phase && s.phase[p] == Fresh && s.path.None?
    ensures Enabled(s, Read(p, true)) && Step(s, Read(p, true)) == At(s, p, Opening(true, false))
  {
  }

  lemma ProbesDead(s: State, p: Pid)
    requires p in s.phase && s.phase[p].Checking? && !PassesProbe(s, s.phase[p].pid)
    ensures Enabled(s, Probe(p)) && Step(s, Probe(p)) == At(s, p, Opening(false, false))
  {
  }

  lemma Opens(s: State, p: Pid, inode: nat)
    requires p in s.phase && s.phase[p].Opening? && !(s.phase[p].exclusive && s.path.Some?)
    requires s.path == Some(inode) || (s.path.None? && inode !in s.text)
    ensures Enabled(s, Open(p, true, inode))
    ensures Step(s, Open(p, true, inode)) == At(s, p, Writing(inode)).(path := Some(inode), text := s.text[inode := ""])
  {
  }

  lemma Writes(s: State, p: Pid)
    requires p in s.phase && s.phase[p].Writing? && s.path == Some(s.phase[p].inode)
    requires s.phase[p].inode in s.text && s.text[s.phase[p].inode] == ""
    ensures var i := s.phase[p].inode; var s' := Step(s, Write(p, true));
      && Enabled(s, Write(p, true))
      && s' == At(s, p, Holding(i)).(text := s'.text) && s'.text.Keys == s.text.Keys && Existing(s') == Some(p)
  {
    RecordedPid(p);
    hide Recorded, Overlaid, Digits;
    var i := s.phase[p].inode;
    assert s.text[i := Overlaid("", Digits(p) + "\n")].Keys == s.text.Keys;
  }

  /** A process that finds a dead pid recorded comes to the truncating open. */
  lemma FindsStale(s: State, run: seq<Action>, p: Pid) returns (run': seq<Action>)
    requires Possible(s, run) && Stale(Exec(s, run))
    requires var t := Exec(s, run); p in t.phase && t.phase[p] == Fresh && Existing(t) != Some(p)
    ensures run <= run' && Possible(s, run') && (CarefulRun(s, run) ==> CarefulRun(s, run'))
    ensures Exec(s, run') == At(Exec(s, run), p, Opening(false, false))
  {
    hide Existing, Possible, Exec, Step, Enabled, CarefulRun;
    var t := Exec(s, run);
    var pid := Existing(t).value;
    ReadsPid(t, p, pid);
    Extend(s, run, Read(p, true));
    ProbesDead(At(t, p, Checking(pid)), p);
    Extend(s, run + [Read(p, true)], Probe(p));
    run' := run + [Read(p, true)] + [Probe(p)];
    AtTwice(t, p, Checking(pid), Opening(false, false));
  }

  /** A process at an open that will succeed comes to hold the file, with its pid recorded. */
  lemma Claims(s: State, run: seq<Action>, p: Pid, inode: nat) returns (run': seq<Action>)
    requires Possible(s, run)
    requires var t := Exec(s, run);
      && p in t.phase && t.phase[p].Opening? && !(t.phase[p].exclusive && t.path.Some?)
      && (t.path == Some(inode) || (t.path.None? && inode !in t.text))
    ensures run <= run' && Possible(s, run') && (CarefulRun(s, run) ==> CarefulRun(s, run'))
    ensures var t, t' := Exec(s, run), Exec(s, run');
      && t'.path == Some(inode) && t'.live == t.live && t'.phase == t.phase[p := Holding(inode)]
      && t'.text.Keys == t.text.Keys + {inode} && Existing(t') == Some(p)
  {
    hide Existing, Possible, Exec, Step, Enabled, CarefulRun;
    var t := Exec(s, run);
    Opens(t, p, inode);
    Extend(s, run, Open(p, true, inode));
    var u := At(t, p, Writing(inode)).(path := Some(inode), text := t.text[inode := ""]);
    Writes(u, p);
    Extend(s, run + [Open(p, true, inode)], Write(p, true));
    run' := run + [Open(p, true, inode)] + [Write(p, true)];
    assert t.phase[p := Writing(inode)][p := Holding(inode)] == t.phase[p := Holding(inode)];
  }

  /** Any two that start while a dead process is recorded come to hold the file. */
  lemma TwoClaimStale(s: State, run: seq<Action>, p: Pid, q: Pid) returns (run': seq<Action>)
    requires Possible(s, run)
    requires var t := Exec(s, run);
      && Stale(t) && p in t.phase && t.phase[p] == Fresh && q in t.phase && t.phase[q] == Fresh && p != q
      && Existing(t) != Some(p) && Existing(t) != Some(q)
    ensures run <= run' && Possible(s, run') && (CarefulRun(s, run) ==> CarefulRun(s, run'))
    ensures !OneHolder(Exec(s, run'))
  {
    var t := Exec(s, run);
    var i := t.path.value;
    SameRecord(t, p, Opening(false, false));
    hide Possible, Exec, CarefulRun, Existing, Recorded, PassesProbe;
    run' := FindsStale(s, run, p);
    run' := FindsStale(s, run', q);
    hide Stale;
    run' := Claims(s, run', p, i);
    run' := Claims(s, run', q, i);
    assert Exec(s, run').phase[p].Holding? && Exec(s, run').phase[q].Holding?;
  }

  /**
    The claim is exclusive for any number of processes and whatever the file holds, except when
    two or more find a process recorded that is no longer running.
   */
  lemma ExclusiveIff(s: State)
    requires Initial(s)
    ensures Exclusive(s) <==> !Stale(s) || forall p, q :: p in s.phase && q in s.phase ==> p == q
  {
    if !Stale(s) {
      forall run | Possible(s, run) && CarefulRun(s, run) ensures OneHolder(Exec(s, run)) {
        OneHolderThroughout(s, run);
      }
    } else if p, q :| p in s.phase && q in s.phase && p != q {
      assert Exec(s, []) == s && CarefulRun(s, []);
      var run := TwoClaimStale(s, [], p, q);
    } else {
      forall run | Possible(s, run) && CarefulRun(s, run) ensures OneHolder(Exec(s, run)) {
        SameProcesses(s, run);
      }
    }
  }

  lemma {:induction false} SameProcesses(s: State, run: seq<Action>)
    requires Possible(s, run)
    ensures Exec(s, run).phase.Keys == s.phase.Keys
    decreases run
  {
    if run != [] {
      assert Step(s, run[0]).phase.Keys == s.phase.Keys;
      SameProcesses(Step(s, run[0]), run[1..]);
    }
  }

  // ---------------------------------------------------- the truncating open

  ghost predicate NoneTruncates(s: State) {
    forall p :: p in s.phase && s.phase[p].Opening? ==> s.phase[p].exclusive
  }

  /** No recorded process is about to read its own pid. */
  ghost predicate RecordsOthers(s: State) {
    && NoneTruncates(s)
    && (Existing(s).Some? ==>
          forall p :: p in s.phase && p as int == Existing(s).value ==> s.phase[p] != Fresh)
  }

  lemma RecordsOthersStep(s: State, a: Action)
    requires Inv(s) && RecordsOthers(s) && Enabled(s, a) && Careful(s, a)
    ensures RecordsOthers(Step(s, a))
  {
    NothingRecorded();
    RecordedPid(a.p);
    hide Recorded, Overlaid, Digits;
  }

  lemma {:induction false} RecordsOthersThroughout(s: State, run: seq<Action>)
    requires Inv(s) && RecordsOthers(s) && Possible(s, run) && CarefulRun(s, run)
    ensures RecordsOthers(Exec(s, run))
    decreases run
  {
    if run != [] {
      InvStep(s, run[0]);
      RecordsOthersStep(s, run[0]);
      hide Inv, Step, Enabled, RecordsOthers;
      RecordsOthersThroughout(Step(s, run[0]), run[1..]);
    }
  }

  /** In no careful run does a process come to the truncating open. */
  ghost predicate NeverTruncates(s: State) {
    forall run :: Possible(s, run) && CarefulRun(s, run) ==> NoneTruncates(Exec(s, run))
  }

  /** The file, if it records a number at all, records none of those starting and nothing a probe finds dead. */
  ghost predicate RecordsElsewhere(s: State) {
    Existing(s).Some? ==>
      PassesProbe(s, Existing(s).value) && forall p :: p in s.phase ==> p as int != Existing(s).value
  }

  lemma NoTruncation(s: State)
    requires Initial(s) && RecordsElsewhere(s)
    ensures NeverTruncates(s)
  {
    InitialInv(s);
    assert RecordsOthers(s);
    hide Inv, RecordsOthers, Possible, Exec, NoneTruncates;
    forall run | Possible(s, run) && CarefulRun(s, run) ensures NoneTruncates(Exec(s, run)) {
      RecordsOthersThroughout(s, run);
      assert RecordsOthers(Exec(s, run)) ==> NoneTruncates(Exec(s, run)) by { OthersMeansNone(Exec(s, run)); }
    }
  }

  lemma OthersMeansNone(s: State)
    ensures RecordsOthers(s) ==> NoneTruncates(s)
  {
  }

  /** A process that finds its own pid recorded comes to the truncating open. */
  lemma FindsOwn(s: State, p: Pid) returns (run: seq<Action>)
    requires p in s.phase && s.phase[p] == Fresh && Existing(s) == Some(p)
    ensures Possible(s, run) && CarefulRun(s, run) && Exec(s, run) == At(s, p, Opening(false, false))
  {
    ReadsPid(s, p, p);
    assert Exec(s, []) == s && CarefulRun(s, []);
    hide Possible, Exec, CarefulRun, Existing, Step, Enabled;
    Extend(s, [], Read(p, true));
    run := [] + [Read(p, true)];
  }

  lemma Truncates(s: State, run: seq<Action>, p: Pid)
    requires Possible(s, run) && CarefulRun(s, run)
    requires var t := Exec(s, run); p in t.phase && t.phase[p] == Opening(false, false)
    ensures !NeverTruncates(s)
  {
    hide Possible, CarefulRun, Exec;
    assert !NoneTruncates(Exec(s, run));
  }

  lemma Truncation(s: State, p: Pid)
    requires Initial(s) && !RecordsElsewhere(s) && p in s.phase
    ensures !NeverTruncates(s)
  {
    hide NeverTruncates, Existing;
    if Stale(s) {
      var run := FindsStale(s, [], p);
      Truncates(s, run, p);
    } else {
      var q :| q in s.phase && q as int == Existing(s).value;
      var run := FindsOwn(s, q);
      Truncates(s, run, q);
    }
  }

  /**
    In careful runs the truncating open is out of reach exactly when the file, if it records a number
    at all, records none of those starting and nothing a probe finds dead; so always without a pidfile.
   */
  lemma NeverTruncatesIff(s: State)
    requires Initial(s) && s.phase != map[]
    ensures NeverTruncates(s) <==> RecordsElsewhere(s)
    ensures s.path.None? ==> NeverTruncates(s)
  {
    assert s.path.None? ==> Existing(s).None?;
    hide Initial, NeverTruncates, Existing;
    if RecordsElsewhere(s) {
      NoTruncation(s);
    } else {
      var p :| p in s.phase;
      Truncation(s, p);
    }
  }

  // --------------------------------------------------- when a holder goes away

  /** Three processes and no file. */
  function ThreeStart(): State {
    State(None, map[], iset{1, 2, 3}, map[1 := Fresh, 2 := Fresh, 3 := Fresh])
  }

  /** A process that finds no file creates one under a new inode and claims it. */
  lemma Creates(s: State, run: seq<Action>, p: Pid, inode: nat) returns (run': seq<Action>)
    requires Possible(s, run)
    requires var t := Exec(s, run); t.path.None? && p in t.phase && t.phase[p] == Fresh && inode !in t.text
    ensures run <= run' && Possible(s, run')
    ensures var t, t' := Exec(s, run), Exec(s, run');
      && t'.path == Some(inode) && t'.live == t.live && t'.phase == t.phase[p := Holding(inode)]
      && t'.text.Keys == t.text.Keys + {inode} && Existing(t') == Some(p)
  {
    hide Existing, Possible, Exec, Step, Enabled, CarefulRun;
    var t, a := Exec(s, run), Read(p, true);
    ReadsNothing(t, p);
    Extend(s, run, a);
    run' := Claims(s, run + [a], p, inode);
    assert t.phase[p := Opening(true, false)][p := Holding(inode)] == t.phase[p := Holding(inode)];
  }

  /**
    A process that goes away while another is about to probe it, with no file left and a third
    starting, lets both of these hold the file: in particular a clean exit between a read and a probe.
   */
  lemma DeathBeforeProbe(s: State, run: seq<Action>, p: Pid, q: Pid, r: Pid) returns (run': seq<Action>)
    requires Possible(s, run) && p != q && q != r && r != p
    requires var t := Exec(s, run);
      && p in t.phase && t.phase[p] != Gone && t.path.None?
      && q in t.phase && t.phase[q] == Checking(p) && r in t.phase && t.phase[r] == Fresh
    ensures run + [Die(p)] <= run' && Possible(s, run') && !OneHolder(Exec(s, run'))
  {
    hide Existing, Possible, Exec, CarefulRun;
    Extend(s, run, Die(p));
    run' := run + [Die(p)];
    var inode := UnusedInode(Exec(s, run').text);
    run' := Creates(s, run', r, inode);
    ProbesDead(Exec(s, run'), q);
    Extend(s, run', Probe(q));
    hide Step, Enabled;
    run' := Claims(s, run' + [Probe(q)], q, inode);
    assert Exec(s, run').phase[q].Holding? && Exec(s, run').phase[r].Holding?;
  }

  /** A process that goes away while another is about to probe it lets that one join a process that holds the file. */
  lemma DeathBesideHolder(s: State, run: seq<Action>, p: Pid, q: Pid, r: Pid) returns (run': seq<Action>)
    requires Possible(s, run) && p != q && q != r && r != p
    requires var t := Exec(s, run);
      && p in t.phase && t.phase[p] != Gone
      && q in t.phase && t.phase[q] == Checking(p) && r in t.phase && t.phase[r].Holding?
    ensures run + [Die(p)] <= run' && Possible(s, run') && !OneHolder(Exec(s, run'))
  {
    hide Existing, Possible, Exec, CarefulRun;
    Extend(s, run, Die(p));
    run' := run + [Die(p)];
    var t := Exec(s, run');
    var unused := UnusedInode(t.text);
    ProbesDead(t, q);
    Extend(s, run', Probe(q));
    hide Step, Enabled;
    run' := Claims(s, run' + [Probe(q)], q, if t.path.Some? then t.path.value else unused);
    assert Exec(s, run').phase[q].Holding? && Exec(s, run').phase[r].Holding?;
  }

  lemma DiesOnRecord(s: State, p: Pid)
    requires p in s.phase && s.phase[p] != Gone && Existing(s) == Some(p)
    ensures Enabled(s, Die(p)) && s.path.Some?
    ensures var t := Step(s, Die(p));
      Existing(t) == Some(p) && Stale(t) && t.path == s.path && t.phase == s.phase[p := Gone]
  {
    assert Existing(Step(s, Die(p))) == Existing(s);
    assert s.path.Some?;
    hide Existing;
  }

  /** A process that goes away while the file records it lets any two that are starting hold the file. */
  lemma DeathOnRecord(s: State, run: seq<Action>, p: Pid, q: Pid, r: Pid) returns (run': seq<Action>)
    requires Possible(s, run) && p != q && q != r && r != p
    requires var t := Exec(s, run);
      && p in t.phase && t.phase[p] != Gone && Existing(t) == Some(p)
      && q in t.phase && t.phase[q] == Fresh && r in t.phase && t.phase[r] == Fresh
    ensures run + [Die(p)] <= run' && Possible(s, run') && !OneHolder(Exec(s, run'))
  {
    DiesOnRecord(Exec(s, run), p);
    hide Existing, Possible, Exec, CarefulRun, Step, Enabled, Stale, OneHolder;
    Extend(s, run, Die(p));
    run' := TwoClaimStale(s, run + [Die(p)], q, r);
  }

  lemma UnusedInode(text: map<nat, string>) returns (n: nat)
    ensures n !in text
  {
    n := 0;
    var todo := text.Keys;
    while todo != {}
      invariant todo <= text.Keys && forall x :: x in text && x !in todo ==> x < n
      decreases todo
    {
      var x :| x in todo;
      todo := todo - {x};
      if x >= n { n := x + 1; }
    }
  }

  /** q reads the pid of the holder p. */
  lemma Looks(s: State, run: seq<Action>, p: Pid, q: Pid) returns (run': seq<Action>)
    requires Possible(s, run)
    requires var t := Exec(s, run); p != q && q in t.phase && t.phase[q] == Fresh && Existing(t) == Some(p)
    ensures Possible(s, run') && Exec(s, run') == At(Exec(s, run), q, Checking(p))
  {
    hide Existing, Possible, Exec, CarefulRun;
    ReadsPid(Exec(s, run), q, p);
    Extend(s, run, Read(q, true));
    run' := run + [Read(q, true)];
  }

  /** The holder p unlinks the file on its way out. */
  lemma Leaves(s: State, run: seq<Action>, p: Pid)
    requires Possible(s, run)
    requires var t := Exec(s, run); p in t.phase && t.phase[p].Holding?
    ensures Possible(s, run + [Remove(p, true)])
    ensures Exec(s, run + [Remove(p, true)]) == At(Exec(s, run), p, Removed).(path := None)
  {
    hide Existing, Possible, Exec, CarefulRun;
    Extend(s, run, Remove(p, true));
  }

  /** Such a death can be reached from a start without a pidfile: by a clean exit, which unlinks the file first. */
  lemma ExitBreaksTheClaim() returns (exit: seq<Action>, run: seq<Action>)
    ensures Initial(ThreeStart()) && ThreeStart().path.None?
    ensures exit + [Remove(1, true), Die(1)] <= run
    ensures Possible(ThreeStart(), exit)
    ensures var t := Exec(ThreeStart(), exit); 1 in t.phase && t.phase[1].Holding?
    ensures Possible(ThreeStart(), run) && !OneHolder(Exec(ThreeStart(), run))
  {
    var s := ThreeStart();
    assert Exec(s, []) == s && Initial(s) && !Stale(s);
    hide Existing, Possible, Exec, CarefulRun, Step, Enabled, Initial, Stale;
    exit := Creates(s, [], 1, 10);
    exit := Looks(s, exit, 1, 2);
    Leaves(s, exit, 1);
    run := DeathBeforeProbe(s, exit + [Remove(1, true)], 1, 2, 3);
    assert exit + [Remove(1, true), Die(1)] == exit + [Remove(1, true)] + [Die(1)];
  }
}
