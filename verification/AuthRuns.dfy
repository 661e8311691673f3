/**
  Whole runs of the daemon's authentication side: logins, reconnects, refreshes, revocations,
  gate checks, lookups, garbage collection and registry operations, in any order. The event loop's
  clock never goes back; the collector has its own thread and may come with an earlier reading.
 */
module AuthRuns {
  import opened Basics
  import opened PyText
  import opened Tokens
  import opened TokenStore
  import opened Sessions
  import opened AuthSpec

  /**
    The daemon's state with what a run has done so far: the latest clock reading, the latest
    reading a token was minted at, every token ever minted, and who each session id belongs to.
   */
  datatype World = World(
    bed: Bed<nat>,
    clock: int,
    lastMint: int,
    minted: set<string>,
    members: map<string, Identity>
  )

  datatype Action =
    | DoLogin(spare: nat, moniker: string, password: string, allow: bool, found: Option<MemberInfo>,
              sid: string, socket: string, now: int, put: PutOutcome, balance: Option<int>)
    | DoReconnect(spare: nat, token: string, socket: string, at: Reads, allow: bool, put: PutOutcome)
    | DoRefresh(token: string, ws: Option<string>, at: Reads, allow: bool, put: PutOutcome)
    | DoRevoke(token: string, allow: bool)
    | DoGate(gate: Gate, spare: nat, ws: Option<string>, token: string, first: int, second: int)
    | DoGet(token: string, now: int)
    | DoCollect(now: int)
    | DoRegistry(op: Op<nat>)

  function Later(n: int, m: int): int { if n <= m then m else n }

  /** The record an action mints, when it gets as far as minting one. */
  function MintOf(cfg: Config, w: World, a: Action): Option<TokenRecord>
  {
    match a
    case DoLogin(_, moniker, password, allow, found, sid, socket, now, _, _) =>
      if Strip(moniker) != "" && password != "" && allow && found.Some?
      then Some(Mint(cfg, found.value.who, sid, socket, now)) else None
    case DoReconnect(_, token, socket, at, allow, _) =>
      if token != "" && allow && Present(cfg, w.bed.store, token, at).Valid? then
        var rec := Present(cfg, w.bed.store, token, at).rec;
        Some(Mint(cfg, IdentityOf(rec), rec.sessionId, socket, at.mint))
      else None
    case DoRefresh(token, ws, at, allow, _) =>
      if ws.Some? && Present(cfg, w.bed.store, token, at).Valid?
         && (ws.value in w.bed.reg.byWebsocket ==> w.bed.reg.byWebsocket[ws.value] in w.bed.reg.heap)
         && MayRefresh(w.bed.reg, ws.value, cfg.codec.decode(token).claims.sessionId, allow) then
        var rec := Present(cfg, w.bed.store, token, at).rec;
        Some(Mint(cfg, IdentityOf(rec), rec.sessionId, ws.value, at.mint))
      else None
    case _ => None
  }

  /** The latest clock reading so far, once an action has taken its own. */
  function ReadingOf(w: World, a: Action): int {
    match a
    case DoLogin(_, _, _, _, _, _, _, now, _, _) => now
    case DoReconnect(_, _, _, at, _, _) => at.mint
    case DoRefresh(_, _, at, _, _) => at.mint
    case DoGate(_, _, _, _, _, second) => second
    case DoGet(_, now) => now
    case DoCollect(now) => Later(w.clock, now)
    case DoRevoke(_, _) => w.clock
    case DoRegistry(_) => w.clock
  }

  /**
    What is assumed of the surroundings: clock readings never go back, the collector's apart; new session ids are new,
    non-empty and without surrounding whitespace; the provider answers with a moniker that has
    none either; sessions are bound by the handlers only.
   */
  ghost predicate Enabled(w: World, a: Action) {
    match a
    case DoLogin(spare, _, _, _, found, sid, _, now, _, _) =>
      && w.clock <= now && spare !in w.bed.reg.heap
      && sid !in w.members && sid != "" && Strip(sid) == sid
      && (found.Some? ==> Strip(found.value.who.moniker) == found.value.who.moniker)
    case DoReconnect(spare, _, _, at, _, _) =>
      w.clock <= at.check <= at.lookup <= at.mint && spare !in w.bed.reg.heap
    case DoRefresh(_, _, at, _, _) => w.clock <= at.check <= at.lookup <= at.mint
    case DoGate(_, spare, _, _, first, second) => w.clock <= first <= second && spare !in w.bed.reg.heap
    case DoGet(_, now) => w.clock <= now
    case DoCollect(_) => true
    case DoRevoke(_, _) => true
    case DoRegistry(op) => !op.BindOp? && Allowed(w.bed.reg, op)
  }

  /** What an action answers: a handler's reply, a gate's decision, or nothing. */
  datatype Answer = Replied(reply: Reply) | Decided(access: Access<nat>) | Silent

  function Step(cfg: Config, w: World, a: Action): (Bed<nat>, Answer)
    requires Keyed(w.bed.reg) && Enabled(w, a)
  {
    match a
    case DoLogin(spare, moniker, password, allow, found, sid, socket, now, put, balance) =>
      var (bed, reply) := Login(cfg, w.bed, spare, moniker, password, allow, found, sid, socket, now, put, balance);
      (bed, Replied(reply))
    case DoReconnect(spare, token, socket, at, allow, put) =>
      var (bed, reply) := Reconnect(cfg, w.bed, spare, token, socket, at, allow, put);
      (bed, Replied(reply))
    case DoRefresh(token, ws, at, allow, put) =>
      var (bed, reply) := Refresh(cfg, w.bed, token, ws, at, allow, put);
      (bed, Replied(reply))
    case DoRevoke(token, allow) =>
      var (store, reply) := Revoke(cfg, w.bed.store, token, allow);
      (w.bed.(store := store), Replied(reply))
    case DoGate(gate, spare, ws, token, first, second) =>
      var (bed, access) := CheckAccess(gate, cfg, w.bed, spare, ws, token, first, second);
      (bed, Decided(access))
    case DoGet(token, now) => (w.bed.(store := AfterGet(w.bed.store, token, now)), Silent)
    case DoCollect(now) => (w.bed.(store := Collected(w.bed.store, now)), Silent)
    case DoRegistry(op) => (w.bed.(reg := Apply(w.bed.reg, op)), Silent)
  }

  function Next(cfg: Config, w: World, a: Action): World
    requires Keyed(w.bed.reg) && Enabled(w, a)
  {
    var mint := MintOf(cfg, w, a);
    World(
      Step(cfg, w, a).0,
      ReadingOf(w, a),
      if mint.Some? then mint.value.issuedAt else w.lastMint,
      if mint.Some? then w.minted + {mint.value.token} else w.minted,
      if a.DoLogin? && mint.Some? then w.members[a.sid := a.found.value.who] else w.members)
  }

  /** The daemon as it starts: no tokens, no sessions. */
  function Start(clock: int): World {
    World(Bed(map[], EmptyRegistry()), clock, clock - 1, {}, map[])
  }

  // ------------------------------------------------------- the invariant

  /** A stored record is the one minting gives for the session's owner, and is filed under its token. */
  ghost predicate Genuine(cfg: Config, members: map<string, Identity>, token: string, rec: TokenRecord) {
    && rec.token == token
    && rec.sessionId in members
    && rec == Mint(cfg, members[rec.sessionId], rec.sessionId, rec.websocketId, rec.issuedAt)
  }

  ghost predicate StoreInv(cfg: Config, members: map<string, Identity>, minted: set<string>, last: int, s: Records) {
    && (forall t :: t in s ==> Genuine(cfg, members, t, s[t]) && t in minted && s[t].issuedAt <= last)
    && (forall t, u :: t in s && u in s && s[t].sessionId == s[u].sessionId ==> t == u)
  }

  ghost predicate MintedInv(cfg: Config, members: map<string, Identity>, minted: set<string>, last: int) {
    forall t :: t in minted ==>
      && cfg.codec.decode(t).Decoded?
      && var c := cfg.codec.decode(t).claims;
         c.sessionId in members && c.issuedAt <= last
         && t == cfg.codec.encode(c)
         && c == MintClaims(cfg, members[c.sessionId], c.sessionId, c.websocketId, c.issuedAt)
  }

  function StateIdentity(s: Session): Identity {
    Identity(s.moniker, s.isSysop, s.loginid)
  }

  /** Every state object, registered or left behind, carries its session's owner. */
  ghost predicate RegInv(members: map<string, Identity>, reg: Registry<nat>) {
    && Keyed(reg)
    && (forall r :: r in reg.heap ==>
          reg.heap[r].sessionId in members && StateIdentity(reg.heap[r]) == members[reg.heap[r].sessionId])
  }

  ghost predicate MembersInv(members: map<string, Identity>) {
    forall sid :: sid in members ==>
      sid != "" && Strip(sid) == sid && Strip(members[sid].moniker) == members[sid].moniker
  }

  ghost predicate Inv(cfg: Config, w: World) {
    && Good(cfg)
    && StoreInv(cfg, w.members, w.minted, w.lastMint, w.bed.store)
    && MintedInv(cfg, w.members, w.minted, w.lastMint)
    && RegInv(w.members, w.bed.reg)
    && MembersInv(w.members)
    && w.lastMint <= w.clock
  }

  lemma StartInv(cfg: Config, clock: int)
    requires Good(cfg)
    ensures Inv(cfg, Start(clock))
  {
  }

  // ------------------------------------------------ keeping the store part

  lemma RemovedInv(cfg: Config, members: map<string, Identity>, minted: set<string>, last: int,
                   s: Records, post: Records)
    requires StoreInv(cfg, members, minted, last, s)
    requires forall t :: t in post ==> t in s && post[t] == s[t]
    ensures StoreInv(cfg, members, minted, last, post)
  {
    hide Genuine;
  }

  /** More tokens minted, more members known and a later mint: the store part still stands. */
  lemma WidenedInv(cfg: Config, members: map<string, Identity>, minted: set<string>, last: int,
                   members': map<string, Identity>, minted': set<string>, last': int, s: Records)
    requires StoreInv(cfg, members, minted, last, s)
    requires minted <= minted' && last <= last'
    requires forall sid :: sid in members ==> sid in members' && members'[sid] == members[sid]
    ensures StoreInv(cfg, members', minted', last', s)
  {
  }

  /** Storing a genuine record of a session that has no other keeps one record per session. */
  lemma StoredInv(cfg: Config, members: map<string, Identity>, minted: set<string>, last: int,
                  s: Records, rec: TokenRecord)
    requires StoreInv(cfg, members, minted, last, s)
    requires Genuine(cfg, members, rec.token, rec) && rec.token in minted && rec.issuedAt <= last
    requires forall t :: t in s && s[t].sessionId == rec.sessionId ==> t == rec.token
    ensures StoreInv(cfg, members, minted, last, Stored(s, rec))
  {
    hide Genuine;
  }

  // ---------------------------------------------- what a step does to the store

  ghost predicate Shrinks(s: Records, post: Records) {
    forall t :: t in post ==> t in s && post[t] == s[t]
  }

  /** The presented token of an action that rotates one. */
  function TokenOf(a: Action): string {
    match a
    case DoReconnect(_, token, _, _, _, _) => token
    case DoRefresh(token, _, _, _, _) => token
    case _ => ""
  }

  /** A rotation of `token` into `rec`: completed, or raised and rolled back. */
  ghost predicate Rotates(s: Records, token: string, rec: TokenRecord, put: PutOutcome, post: Records) {
    && token in s && s[token].sessionId == rec.sessionId && IdentityOf(s[token]) == IdentityOf(rec)
    && post == if put == Kept then Rotated(s, token, rec) else RolledBack(s, rec, put)
  }

  /** A rotation keeps one genuine record per session, whether it completes or is rolled back. */
  lemma RotatedInv(cfg: Config, members: map<string, Identity>, minted: set<string>, last: int,
                   s: Records, token: string, rec: TokenRecord, put: PutOutcome, post: Records)
    requires StoreInv(cfg, members, minted, last, s)
    requires Genuine(cfg, members, rec.token, rec) && rec.token in minted && rec.issuedAt <= last
    requires Rotates(s, token, rec, put, post)
    ensures StoreInv(cfg, members, minted, last, post)
  {
    hide Genuine;
    if put == Kept {
      var base := Removed(s, token);
      assert forall t :: t in base && s[t].sessionId == rec.sessionId ==> t == token;
      RemovedInv(cfg, members, minted, last, s, base);
      StoredInv(cfg, members, minted, last, base, rec);
      RemovedInv(cfg, members, minted, last, Stored(base, rec), post);
    } else {
      RemovedInv(cfg, members, minted, last, s, post);
    }
  }

  lemma ValidateShrinks(gate: Gate, cfg: Config, s: Records, token: string, first: int, second: int)
    ensures Shrinks(s, Validate(gate, cfg, s, token, first, second).0)
  {
  }

  lemma CheckAccessShrinks<R>(gate: Gate, cfg: Config, bed: Bed<R>, spare: R, ws: Option<string>, token: string,
                              first: int, second: int)
    requires Keyed(bed.reg)
    ensures Shrinks(bed.store, CheckAccess(gate, cfg, bed, spare, ws, token, first, second).0.store)
  {
    hide Validate, LazyArgs, BoundRef, Bind;
    ValidateShrinks(gate, cfg, bed.store, token, first, second);
    var (b, access) := Resolve(gate, cfg, bed, spare, ws, token, first, second);
    var (s, _) := Validate(gate, cfg, b.store, token, first, second);
    ValidateShrinks(gate, cfg, b.store, token, first, second);
    if access.Granted? {
      var own := b.reg.heap[access.state].authServiceToken;
      ValidateShrinks(gate, cfg, s, if own.Some? then own.value else "", first, second);
    }
  }

  /** Every step either only removes records, stores the record it mints, or rotates a token. */
  lemma StepStore(cfg: Config, w: World, a: Action)
    requires Keyed(w.bed.reg) && Enabled(w, a)
    ensures var s, post, mint := w.bed.store, Step(cfg, w, a).0.store, MintOf(cfg, w, a);
      if mint.None? then Shrinks(s, post)
      else if a.DoLogin? then post == Persisted(s, mint.value, a.put)
      else (a.DoReconnect? || a.DoRefresh?) && Rotates(s, TokenOf(a), mint.value, a.put, post)
  {
    hide BoundRef, Bind, CheckAccess, Apply;
    match a
    case DoGate(gate, spare, ws, token, first, second) =>
      CheckAccessShrinks(gate, cfg, w.bed, spare, ws, token, first, second);
    case _ =>
  }
}
