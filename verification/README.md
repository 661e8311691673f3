# bed: tokens, sessions and the protocols around them

A Dafny model of the daemon's bearer-token and session state machine, with the smaller protocols
that surround it, and proofs of what they keep over every run. `dafny verify dfyconfig.toml` checks
the whole project.

## The core: tokens and sessions

A member logs in and gets a signed token. The token is stored with a record; the session lives in a
registry indexed by session id and by websocket id. Reconnect and refresh rotate the token (store
the new one, delete the old one, or roll back when storing raises), revocation deletes it, and two
gates re-validate it on every call and bind a session lazily when the socket has none. Signed
claims, store records and session states have to go on telling the same story.

* `Base64Url`, `Numerals`, `FlatJson`, `TokenCodec`: the codec down to its characters, with the keyed
  MAC as a parameter that is any function to 64 hexadecimal digits. `Tokens` names what the rest relies on.
* `TokenStore`, `Sessions` with `SessionInvariants`, `AuthSpec`: store, registry, handlers and gates
  as functions on values. A session state is a reference into a heap, so an index entry left behind
  by a move and two indices sharing one state are part of the value.
* `TokenStore.InMemoryTokenStore`, `SessionRegistry`, `AuthService`: the classes, which update
  dictionaries and state objects in place. Each method is proved equal to its function.
* `AuthRuns` and `AuthInvariant`: a run is any sequence of logins, reconnects, refreshes,
  revocations, gate checks, lookups, collections and registry operations, with every persist
  outcome; the event loop's clock never goes back. The invariant ties store, minted tokens, registry and the
  members the session ids belong to.
* `AuthAnswers`: which answer every call gets, by its input, and what a successful answer promises: the
  token in it, the record filed under it, and the session that carries it.
* `AuthTheorems`, `TokenLifetimes`, `AuthAgreement`, `AuthSessions`, `AuthCollect`, `AuthStrikes`: what
  holds over every run, with the exact condition where something does not always hold. `AuthLimits`:
  inputs that meet the failing side.

What the theorems assume of the surroundings is `AuthRuns.Enabled` and `AuthSpec.MayRefresh`: clock
readings never go back, new session ids are new, non-empty and without surrounding whitespace, the
credential provider answers with a moniker that has no surrounding whitespace, the refresh policy
allows a refresh only when the socket's live state is of the session the claims name, and messages
arrive without a `claims` key. No handler awaits anything, so each is one step of the event loop. The
collector runs in a worker thread: it is a step of its own, at a reading that may lie behind the event
loop's, and `AuthStrikes` shows that it makes no difference when it strikes inside a call, between any
two of the call's store operations.

Minting is deterministic: a token is a function of its claims. Every theorem that needs the clock or
the socket to have moved says so, and its counterpart shows what happens otherwise. Timestamps count
ticks of 10^-20 seconds, so the fractional readings of the clock are among them.

## The satellites

* `MessageFanout`: the two subscription maps, and dispatches whose sends interleave with
  subscriptions, removals and each other.
* `Pagination`: the pending-message listing and the client that follows its cursor.
* `RecvLoop`: the client's receive loop against any number of `aclose` calls, interleaved at every
  await, with each cancellation delivered or swallowed.
* `Pidfile`: any number of processes claiming one pidfile, interleaved at every system call.
* `RestartLoop`: the daemon's restart loop over every sequence of start outcomes and policy reloads.
* `BindSpec`: the `HOST:PORT` parser.

`PyText` holds the pieces of Python's `str` and `int` that the parsers use.

## Where the code and its documentation differ

The model follows the code.

* `TokenError` is documented as raised on any decode failure. A token with a non-ASCII character in
  its payload or its signature raises a different exception (`TokenCodec.EscapesIff`).
* A rotation on an unmoved clock and socket mints the presented token again and then deletes it, so
  the token handed out does not work (`AuthTheorems.RotationSwapsTokens`, `HandedOutIff`). When
  persisting raises there, the rollback deletes the token the client still holds
  (`AuthTheorems.RollbackRestoresIff`).
* The in-memory store's `gc_expired` is described as a no-op; it removes every expired record
  (`src/bed/api/token_store.py:77-79` against `src/bed/api/token_store.py:159-170`).
* `SessionRegistry` says its table index is rebuilt from the states when it falls out of sync; nothing
  rebuilds it. A bind makes it wrong exactly under the condition of `SessionInvariants.BindExactIff`,
  which a stale socket can meet (`AuthLimits.StaleSocketExample`).
* `_subscribed` is described as the most recent websocket of a moniker; after the removal
  of that one it is an arbitrary one of the others (`MessageFanout.NamesThroughoutIff`).
* `_write_pidfile` is described as an atomic claim. It is one except for a recorded process that is
  gone, which two starters may both overwrite (`Pidfile.ExclusiveIff`), and for a process that goes
  away between another's read and its probe (`Pidfile.DeathBeforeProbe`, `DeathBesideHolder`).
* `aclose` is described as safe to call more than once and as leaving nothing running. A call keeps
  that promise exactly when, as it is made, the receive loop has ended or no earlier call has taken the
  receive task (`RecvLoop.KeepsPromiseIff`). An overlapping later call can return while the loop still
  closes what it dialed (`RecvLoop.SecondCallReturnsEarly`); what it can rely on is
  `RecvLoop.ReturnedMeansNoneOpen`.
* A limit of infinity, which `json.loads` accepts, is the one `limit` whose error is not answered
  (`Pagination.RaisesIff`).
* `--bind` is documented to need brackets around a bare IPv6 address; without them the address is cut
  at its last colon (`BindSpec.BareAddressIsCut`).

## Model

| member | source | states |
|---|---|---|
| Base64Url.EncodeShape | src/bed/api/auth.py:146-147 | stripping `=` removes exactly the padding the length calls for; what is left is alphabet symbols only, is empty only for no bytes, and its length is never 1 modulo 4 |
| Base64Url.RoundTrip | src/bed/api/auth.py:146-152 | decoding undoes encoding for every byte string, the padding being restored from the length (RFC 4648, sections 3.2 and 5) |
| Base64Url.LengthOneModFour | src/bed/api/auth.py:150-152 | a text of alphabet symbols decodes if and only if its length is not 1 modulo 4 |
| Numerals.DecimalRoundTrip | src/bed/api/auth.py:156 | reading what `repr()` prints gives back the float, in positional and in exponential form, for every decimal of up to 20 places |
| FlatJson.ObjectRoundTrip | src/bed/api/auth.py:156 | parsing undoes the compact sorted-key printing of any flat object, escapes, surrogate pairs and floats included |
| FlatJson.ObjectIsAscii | src/bed/api/auth.py:156-158 | the printed payload is ASCII whatever the claims hold, so the later `encode("ascii")` of a minted payload cannot fail |
| PyText.SplitLastUnique | src/bed/api/auth.py:165 | `rsplit(".", 1)` finds the only way to write a token as text, dot, text without a dot |
| TokenCodec.RoundTrip | src/bed/api/auth.py:155-189 | decode(encode(claims)) gives back the claims, for all version-1 claims, fractional timestamps included, and every MAC |
| TokenCodec.Injective | src/bed/api/auth.py:155-160 | two minted tokens are equal if and only if their claims are |
| TokenCodec.DecodesIff | src/bed/api/auth.py:162-189 | what decodes, and to which items: exactly a non-empty ASCII text signed with its own MAC that spells an object of version 1 |
| TokenCodec.DecodedMeansSigned | src/bed/api/auth.py:162-189 | whatever decodes is some text, a dot, and the MAC of exactly that text |
| TokenCodec.EscapesIff | src/bed/api/auth.py:162-172 | an exception other than TokenError escapes exactly when both parts are non-empty and one holds a non-ASCII character |
| TokenCodec.EscapesExample | src/bed/api/auth.py:57-64 | a two-part token on which the documented promise of TokenError fails, for every MAC |
| TokenCodec.BedCodecIsFaithful | src/bed/api/auth.py:155-189 | the codec meets what the services rely on: minted tokens decode to their claims, are non-empty, and are left alone by `strip()` |
| Tokens.EncodeInjective | src/bed/api/auth.py:155-160 | for any codec that decodes what it encodes, distinct claims give distinct tokens |
| TokenStore.InMemoryTokenStore.Put | src/bed/api/token_store.py:125-133 | the record is stored under its token and every other record is kept |
| TokenStore.InMemoryTokenStore.Get | src/bed/api/token_store.py:135-151 | the record if it is stored and not expired; an expired one is dropped as it is looked up |
| TokenStore.InMemoryTokenStore.Delete | src/bed/api/token_store.py:153-157 | the token is gone; answers whether it was there |
| TokenStore.InMemoryTokenStore.GcExpired | src/bed/api/token_store.py:159-170 | exactly the expired records go, one by one, and their number is returned |
| TokenStore.GetAfterCollect | src/bed/api/token_store.py:135-170 | a lookup sees the same before and after an earlier collection, and lazy expiry removes nothing a collection would keep |
| Sessions.BindSessions | src/bed/api/session.py:62-107 | bind registers or updates the one session, removes the session the socket carried and no other, and leaves all others as they were |
| Sessions.BindFields | src/bed/api/session.py:80-104 | field by field, what a bind leaves the session: counter, un-acked request and token stay; balance, login id, seat and tables stay unless a value is given; a new session starts with none |
| Sessions.ApplyWrites | src/bed/api/session.py:109-227 | which field of which session each other operation writes, and that every other field of every other session stays |
| Sessions.ApplySockets | src/bed/api/session.py:109-127 | where each socket leads after each other operation; only drop unregisters a session |
| Sessions.BindSockets | src/bed/api/session.py:74-107 | bind sets the socket's entry and keeps every other entry, the moved session's previous one included |
| Sessions.BindListings | src/bed/api/session.py:75-107 | pair by pair, who is listed at which table after a bind |
| Sessions.UnindexedSees | src/bed/api/session.py:243-250 | purging removes one session's listings at its tables and no others, and leaves no table empty |
| Sessions.IndexedSees | src/bed/api/session.py:252-261 | re-indexing adds one session's listings and removes nothing |
| SessionRegistry.SessionRegistry.Bind | src/bed/api/session.py:62-107 | the in-place bind refines the function on values, returns the registered or a new state object, and keeps the two indices keyed |
| SessionRegistry.SessionRegistry.RebindWebsocket | src/bed/api/session.py:109-116 | the state is filed under the new socket id, which it takes over, and no longer under the old |
| SessionRegistry.SessionRegistry.UnbindWebsocket | src/bed/api/session.py:118-120 | only the socket entry goes |
| SessionRegistry.SessionRegistry.Drop | src/bed/api/session.py:122-127 | the session, its own socket's entry and its listings go |
| SessionRegistry.SessionRegistry.NextRequestId | src/bed/api/session.py:137-143 | the counter rises by one and is the id; an unknown session is an error that changes nothing |
| SessionRegistry.SessionRegistry.RecordPending | src/bed/api/session.py:145-150 | the un-acked request is remembered for a registered session and for no other |
| SessionRegistry.SessionRegistry.TakePending | src/bed/api/session.py:152-159 | hands back the un-acked request and clears it in the same step |
| SessionRegistry.SessionRegistry.SetTableMoniker | src/bed/api/session.py:168-183 | the seat is recorded and the session re-indexed |
| SessionRegistry.SessionRegistry.AddSpectator | src/bed/api/session.py:191-206 | the table joins the session's set and the session the table's |
| SessionRegistry.SessionRegistry.RemoveSpectator | src/bed/api/session.py:208-227 | both go again, and the table with its last observer |
| SessionRegistry.SessionRegistry.GetTableObservers | src/bed/api/session.py:229-232 | answers exactly the sessions listed at the table |
| SessionRegistry.SessionRegistry.PurgeIndices | src/bed/api/session.py:243-250 | the loop over a state's tables forgets the session at exactly those |
| SessionRegistry.SessionRegistry.Reindex | src/bed/api/session.py:252-261 | the loop over a state's tables lists the session at exactly those, beside what was listed |
| SessionInvariants.BindHoused | src/bed/api/session.py:74-107 | bind keeps every registered session the state its own socket looks up to, and the bound one lives at the bound socket |
| SessionInvariants.RebindHousedIff | src/bed/api/session.py:109-116 | rebind_websocket keeps that property if and only if the new id is not another registered session's own socket |
| SessionInvariants.UnbindHousedIff | src/bed/api/session.py:118-120 | unbind_websocket keeps it if and only if the socket is no registered session's own |
| SessionInvariants.HousedThroughout | src/bed/api/session.py:62-127 | in every run of operations within those limits each registered session is the state its own socket looks up to |
| SessionInvariants.SocketsAreDistinct | src/bed/api/session.py:74-127 | so two registered sessions never share a socket, stale entries notwithstanding |
| SessionInvariants.BindTidyIff | src/bed/api/session.py:74-107 | from a registry without stale socket entries a bind leaves none if and only if the session's previous socket was unbound first |
| SessionInvariants.ListedThroughout | src/bed/api/session.py:75-107 | after any sequence of operations at all every registered session is listed at every table it watches, and no table has an empty entry |
| SessionInvariants.BindExactIff | src/bed/api/session.py:75-107 | from any registry with an exact index, stale socket entries or not, a bind keeps it exact if and only if it names no smaller set of tables for a registered session and the state its socket leads to watches every table of the session it removes |
| SessionInvariants.ExactThroughout | src/bed/api/session.py:75-261 | in every run whose binds meet that condition each table's observers are exactly the registered sessions watching it |
| SessionInvariants.ApplyExactIff | src/bed/api/session.py:62-261 | the same for every operation: only such a bind can make the index wrong |
| SessionInvariants.ApplyHousedIff | src/bed/api/session.py:62-261 | an operation keeps sessions at home in their sockets if and only if it takes no registered session's own socket |
| SessionInvariants.MeetsThroughoutIff | src/bed/api/session.py:62-261 | over every sequence of operations, the property holds in all its states if and only if every operation obeys the rule |
| SessionInvariants.TidyPurgesAll | src/bed/api/session.py:75-78 | without stale socket entries a bind forgets the session it removes at every table that session watches |
| SessionInvariants.ApplyTidyIff | src/bed/api/session.py:62-261 | an operation leaves no stale socket entry if and only if it is no bind that moves a session off a socket still bound to it |
| SessionInvariants.EmptyIsOrderly | src/bed/api/session.py:56-60 | the registry starts with all of these properties |
| AuthService.AuthService.HandleAuth | src/bed/api/auth.py:427-515 | login in place refines its function on store and registry, for every provider answer, policy answer and persist outcome |
| AuthService.AuthService.HandleReconnect | src/bed/api/auth.py:517-664 | reconnect in place refines its function, rollback and replay of the un-acked request included |
| AuthService.AuthService.HandleRefresh | src/bed/api/auth.py:666-785 | refresh in place refines its function; the socket's live state gets the new token |
| AuthService.AuthService.HandleRevoke | src/bed/api/auth.py:787-844 | revocation in place refines its function; the session's state keeps its token |
| AuthService.AuthService.Check | src/bed/api/auth.py:683-741 | the checks of a presented token in order, each deleting what it finds dead |
| AuthService.AuthService.Rotate | src/bed/api/auth.py:637-644 | the new record is kept and the old token deleted, or the persist raised and the new token is deleted |
| AuthService.AuthService.AuthorizeRefresh | src/bed/api/auth.py:743-752 | a refresh goes on only for the socket's live state of the session the claims name |
| AuthService.AuthService.FamilyGateValidate | src/bed/api/gate.py:141-197 | the validator of the bank, casino and whiteboard families, which asks the store before it looks at expiry |
| AuthService.AuthService.MessageGateValidate | src/bed/api/message.py:125-189 | the message service's validator, which looks at expiry before it asks the store |
| AuthService.AuthService.GetOrBindSessionFor | src/bed/api/gate.py:51-138 | the socket's session, or a session bound lazily from an accepted wire token |
| AuthService.AuthService.CheckMessageAccess | src/bed/api/message.py:456-515 | session, wire token, and the session's own token only when the message carries none |
| AuthAnswers.LoginAnswersIff | src/bed/api/auth.py:427-515 | missing credentials, policy, bad credentials, raised or success: which login gets which answer; a refusal changes nothing |
| AuthAnswers.ReconnectAnswersIff | src/bed/api/auth.py:517-664 | invalid, expired, revoked, wrong instance, policy, raised or success: which reconnect gets which answer, for any codec and store; a dead token leaves the store, and a refusal writes at most the un-acked request of the token's session |
| AuthAnswers.RefreshAnswersIff | src/bed/api/auth.py:666-785 | the same for refresh, which the policy lets through from the socket of the token's session only; a refusal leaves the registry alone |
| AuthAnswers.RevokeAnswersIff | src/bed/api/auth.py:787-844 | the same for revocation; only a success takes the token |
| AuthAnswers.FamilyVerdictsIff | src/bed/api/gate.py:141-197 | which token gets which verdict, and that the refusals of a signed token drop it |
| AuthAnswers.MessageVerdictsIff | src/bed/api/message.py:125-189 | the same for the message service's validator |
| AuthAnswers.AccessIff | src/bed/api/message.py:456-515 | in every reachable state a gate lets a call in, when there is a token to go by (the message's, or else the session's own), if and only if that token is stored and live at the last reading, with its record's claims, and otherwise answers that token's own refusal; without one, if and only if the socket has a session, and then without claims |
| AuthAnswers.AccessLeaves | src/bed/api/gate.py:51-138 | the call acts as the session of its socket; a bind happens only on a bare socket, and gives the state the token's session, member and token |
| AuthAnswers.ReconnectSucceedsIff | src/bed/api/auth.py:517-664 | in every reachable state a reconnect succeeds if and only if its token is stored and live at the lookup, the policy allows it and the record is kept |
| AuthAnswers.RefreshSucceedsIff | src/bed/api/auth.py:666-785 | a refresh also needs a socket that leads to a state of the token's session |
| AuthAnswers.LoginPromise | src/bed/api/auth.py:473-515 | a successful login answers with a token signed for the member it found, new in the store and filed with the answer's own expiry; the session it registers is on that socket, carries the token and the balance, and has nothing pending |
| AuthAnswers.ReconnectPromise | src/bed/api/auth.py:609-664 | a successful reconnect answers with the presented record's member and session and a token signed for the new socket, and takes the old one out of the store; the session carries the token on the new socket, its un-acked request is handed over, and a registered one keeps counter, balance, seat and tables |
| AuthAnswers.RefreshPromise | src/bed/api/auth.py:754-785 | the same for refresh, which writes the socket's state's token and nothing else |
| AuthRuns.StepStore | src/bed/api/auth.py:427-844 | every step of the daemon only removes records, stores the one it minted, or swaps the presented token for the minted one |
| AuthInvariant.MintIsGenuine | src/bed/api/auth.py:304-336 | every mint is for the session's own member, at a reading between the clock before and after |
| AuthInvariant.AcceptedIsStored | src/bed/api/message.py:125-189 | what either validator accepts is a stored token with its own record's claims, and the store is left as it was |
| AuthInvariant.InvNext | src/bed/api/auth.py:427-844 | store, minted tokens, registry and member list stay in agreement through every step |
| AuthInvariant.OneRecordPerSession | src/bed/api/auth.py:473-486 | in every reachable state each session id has at most one stored record |
| AuthTheorems.MintRepeatsIff | src/bed/api/auth.py:304-336 | a mint repeats an earlier token if and only if session, socket and clock reading all repeat |
| TokenLifetimes.ReturnsIff | src/bed/api/auth.py:304-336 | a token that has left the store re-enters it in some continuation if and only if the clock still stands at the reading it was minted at and its session has a live token |
| TokenLifetimes.NoResurrection | src/bed/api/auth.py:304-336 | once the clock has passed that reading a token that left never re-enters the store, whatever else is minted |
| TokenLifetimes.OtherTimesNeverRestore | src/bed/api/auth.py:630-645 | nor does it on a clock that stands still, if its own session's mints do not fall on that reading again |
| TokenLifetimes.RevokedForGood | src/bed/api/auth.py:831-844 | a revoked token cannot come back, whatever the clock |
| TokenLifetimes.ExpiredForGood | src/bed/api/token_store.py:135-151 | nor can one that went because its time was up |
| TokenLifetimes.GoneIsRefusedForever | src/bed/api/auth.py:683-741 | a token that cannot come back is refused by every later reconnect, refresh and gate check |
| AuthTheorems.RevokeSucceedsIff | src/bed/api/auth.py:787-844 | in a reachable state a revocation succeeds if and only if it is allowed and the token is stored; then exactly that record goes, otherwise nothing changes |
| AuthTheorems.RotatedTokenIff | src/bed/api/auth.py:622-645 | the rotated token is the presented one if and only if neither clock nor socket moved; otherwise it is not stored yet |
| AuthTheorems.RotationSwapsTokens | src/bed/api/auth.py:637-645 | a successful rotation is old store minus old token plus new token, size unchanged; on an unmoved clock and socket it deletes the token it answers with |
| AuthTheorems.RollbackRestoresIff | src/bed/api/auth.py:637-644 | a rotation whose persist raises, before or after the store took it, leaves the store as it was if and only if clock or socket moved; otherwise the presented token is lost |
| AuthTheorems.ReachableIsMirrored | src/bed/api/auth.py:312-336 | each stored record says what its own token's signed claims say |
| AuthTheorems.GatesAgree | src/bed/api/gate.py:141-197 | at one clock value the two validators accept the same tokens with the same claims and leave the same store; the answers differ exactly on a decodable expired token, revoked against expired |
| AuthTheorems.AcceptedMeansLive | src/bed/api/message.py:125-189 | a validator accepts if and only if the token is stored, unexpired at its last reading, and of this instance |
| AuthTheorems.IdentityAgreement | src/bed/api/gate.py:95-138 | a registered session and any stored token of it agree on moniker, is_sysop and loginid |
| AuthTheorems.LazyArgsAreReconnectArgs | src/bed/api/gate.py:95-134 | in a reachable state the lazy bind passes exactly what a reconnect with the same token passes |
| AuthTheorems.LazyBindIsReconnect | src/bed/api/gate.py:95-138 | binding a fresh socket lazily leaves the same registry, state, session id and identity as a reconnect; only the state's token and un-acked request differ |
| AuthTheorems.HandedOutIff | src/bed/api/auth.py:473-515 | the token answered with is stored afterwards if and only if it is not the presented one |
| TokenLifetimes.StaysIff | src/bed/api/auth.py:630-645 | a token that is live after a step is still stored with its record if and only if the step is not an allowed revocation or its own rotation |
| TokenLifetimes.StoredThroughoutIff | src/bed/api/auth.py:427-844 | over every run that ends before a token expires, it is stored in all the states if and only if no step of the run spends it |
| TokenLifetimes.HandedOutWorks | src/bed/api/auth.py:622-664 | a token answered with is accepted by reconnect, refresh and both gates anywhere in a run that does not spend it, until it expires |
| AuthAgreement.StepAgreesIff | src/bed/api/auth.py:483-486 | stored and carried tokens agree after a step if and only if it is none of three: a login whose store raises once it has the record, a reconnect of an unregistered session whose store raises, a refresh from a socket that leads to a state other than the registered one |
| AuthAgreement.AgreesThroughoutIff | src/bed/api/auth.py:427-844 | over every run, they agree in all its states if and only if no step is one of those |
| AuthAgreement.AgreementThroughout | src/bed/api/auth.py:483-486 | so in every such run any stored token of a registered session is the one its state carries, sessions moving as they like |
| AuthAgreement.AgreementFromStart | src/bed/api/auth.py:483-486 | in particular from the start of the daemon |
| AuthSessions.StepMeetsIff | src/bed/api/session.py:62-261 | a step of the daemon keeps sessions listed, at home, exactly indexed or without stale sockets if and only if the bind or operation it comes to obeys that property's rule; what handlers write into the states does not matter |
| AuthSessions.MeetsInRunIff | src/bed/api/auth.py:427-844 | over every run of the daemon all its states have the property if and only if every step obeys its rule |
| AuthSessions.AlwaysListed | src/bed/api/session.py:252-261 | in every run from the start, with no condition, each registered session is listed at every table it watches |
| AuthSessions.CleanMovesKeepExact | src/bed/api/session.py:74-107 | in every run whose moving sessions have their previous socket unbound first, each table's observers are exactly the registered sessions watching it |
| AuthSessions.StepTidyIff | src/bed/api/session.py:74-107 | a step leaves no stale socket entry if and only if the bind it performs, if any, moves off an unbound socket |
| AuthAgreement.ReplayedOnce | src/bed/api/auth.py:659-664 | a successful reconnect answers with the session's un-acked request and leaves none, so it is replayed once |
| AuthAgreement.RefusedForgets | src/bed/api/auth.py:543-590 | a reconnect refused as expired or revoked leaves the token's session without an un-acked request |
| AuthAgreement.LoginThenReconnect | src/bed/api/auth.py:427-664 | from the start of the daemon a login on one socket and a reconnect with its token on another both go through |
| AuthLimits.UnchangedClockResurrects | src/bed/api/auth.py:304-336 | in any reachable state, on a clock that has not moved since a token was minted, reconnecting away and back removes the token and brings it back |
| AuthLimits.ComesAndGoesIff | src/bed/api/auth.py:304-336 | a stored token can leave and be stored again if and only if the clock still stands at the reading it was minted at |
| AuthAgreement.RefreshAgreesIff | src/bed/api/auth.py:743-777 | a refresh keeps them in agreement if and only if neither clock nor socket moved, or the socket leads to the registered state, or the session is not registered |
| AuthLimits.BrokenRefreshIsReachable | src/bed/api/auth.py:743-777 | from the start of the daemon, two logins and two reconnects that keep the agreement are followed by a refresh that breaks it |
| AuthLimits.StaleSocketExample | src/bed/api/session.py:74-107 | from the empty registry, after four binds and a watch, the index is exact, and the next bind of the stale socket makes it wrong because the state that socket leads to watches fewer tables |
| AuthCollect.StepAlike | src/bed/api/token_store.py:135-170 | one step from two worlds that differ by collections gives the same answer, revocations apart, and such worlds again |
| AuthCollect.CollectionIsUnseen | src/bed/api/token_store.py:135-170 | collections and lookups inserted anywhere in a run change no later answer of login, reconnect, refresh or a gate, and no later lookup of any token |
| AuthCollect.CollectInsideRotation | src/bed/api/token_store.py:159-170 | collections between the store operations of a rotation, in any order of readings, come to one after it, rolled back or not |
| AuthCollect.RevocationTellsIff | src/bed/api/auth.py:820-844 | an allowed revocation can tell a collection if and only if the token is stored and its time is up |
| AuthStrikes.StrikesUnseen | src/bed/api/token_store.py:125-170 | whatever sequence of calls is made to the store, collections among them change no lookup's answer and leave the same live records |
| AuthStrikes.LookupsDecide | src/bed/api/auth.py:427-844 | a step depends on the store through its lookups only: if they answer as another store would, the step makes the calls and gives the answer it would there |
| AuthStrikes.StepPerformed | src/bed/api/auth.py:427-844 | the store a step leaves is the one its store calls leave, in their order |
| AuthStrikes.FitsIff | src/bed/api/token_store.py:159-170 | the courses a step can take under collections are exactly its own calls with collections anywhere between them |
| AuthStrikes.StruckStep | src/bed/api/token_store.py:159-170 | a step answers the same, revocations apart, and leaves the same but for dead records, wherever collections strike inside it |
| AuthStrikes.StrikesAreUnseen | src/bed/main.py:1300-1317 | over every run, collections inside the calls and between them change no answer of login, reconnect, refresh or a gate, and no later lookup |
| MessageFanout.MessageService.Subscribe | src/bed/api/message.py:707-710 | the socket joins the moniker's sockets and becomes the one; the maps stay consistent |
| MessageFanout.MessageService.DropSession | src/bed/api/message.py:668-681 | the socket leaves; the one is replaced by some remaining socket, or the moniker goes from both maps |
| MessageFanout.MessageService.Unsubscribe | src/bed/api/message.py:722-742 | only the calling socket leaves |
| MessageFanout.MessageService.Dispatch | src/bed/api/message.py:624-666 | an undisturbed dispatch tries each subscribed socket once and keeps exactly those whose send succeeded; other monikers are untouched and the number rises by one |
| MessageFanout.FallbackUnused | src/bed/api/message.py:640-643 | with consistent maps the fallback target is never used |
| MessageFanout.SubscribedIff | src/bed/api/message.py:640-681 | under any interleaving of subscriptions, removals and the sends of concurrent dispatches the maps stay consistent, and a socket is subscribed if and only if the last action about it was a subscription |
| MessageFanout.FlightsSound | src/bed/api/message.py:658-666 | every dispatch under way tries no socket twice, only those it found, and when it ends all of them |
| MessageFanout.FlightBegan | src/bed/api/message.py:624-666 | a dispatch sends to exactly the sockets that were subscribed to its moniker when it began |
| MessageFanout.FailedIsNext | src/bed/api/message.py:658-666 | a dispatch has a socket to remove if and only if its last send failed, and it is that socket |
| MessageFanout.NumbersAreFresh | src/bed/api/message.py:647-657 | a new dispatch never takes the number of an earlier one |
| MessageFanout.RemovalNamesLatestIff | src/bed/api/message.py:427-431 | a removal is bound to leave the most recent subscriber named, whichever socket inherits, if and only if it takes another socket than the named one or leaves at most one |
| MessageFanout.NamesThroughoutIff | src/bed/api/message.py:427-431 | over every run, the one socket kept per moniker is the most recent subscriber left in all states if and only if no removal of the named socket passes it to another than that |
| MessageFanout.HeirIsArbitrary | src/bed/api/message.py:676-681 | such a removal can be reached, with either outcome |
| Pagination.ArrivalsUnseen | src/bed/api/message.py:762-792 | messages that arrive after a page was sent do not change the pages that follow it |
| Pagination.PageAt | src/bed/api/message.py:788-806 | the page and cursor a client gets that has seen the first i rows |
| Pagination.WalkFrom | src/bed/api/message.py:762-806 | following next_cursor gives the remaining rows once and in order, in a stated number of requests |
| Pagination.WalkIsComplete | src/bed/api/message.py:762-806 | with pages of k rows, n rows come back in order after exactly n div k + 1 requests |
| Pagination.CompleteIff | src/bed/api/message.py:797-800 | the walk is complete if and only if the database's pages are not smaller than the handler expects, or all rows fit in one |
| Pagination.NoRowTwice | src/bed/api/message.py:762-806 | no row comes twice |
| Pagination.PageSizeIs | src/bed/api/message.py:762-772 | what the handler takes every kind of limit for: 50 where absent or unreadable, fractions cut toward zero, between 1 and 100 |
| Pagination.AnswersIff | src/bed/api/message.py:762-806 | which request is answered with an invalid cursor, a database error, an escaping error or a page |
| Pagination.AnyPage | src/bed/api/message.py:774-806 | whatever cursor a request carries, the page is the newest rows older than it, in order |
| Pagination.RaisesIff | src/bed/api/message.py:762-765 | an error gets past the handler if and only if the limit is infinite |
| RecvLoop.InvStep | src/bed/client/connection.py:290-390 | every step of the loop and of any number of aclose calls keeps: an open socket is the connection's own, and one being closed has its closer |
| RecvLoop.SettledMeansDone | src/bed/client/connection.py:353-390 | when aclose has returned and none is under way the receive task has ended, `_ws` is None, and every socket was closed or had failed |
| RecvLoop.ReturnedMeansNoneOpen | src/bed/client/connection.py:353-376 | as soon as any aclose returned no socket is open, and if the receive task runs on, another aclose awaits it |
| RecvLoop.KeepsPromiseIff | src/bed/client/connection.py:353-376 | an aclose call is sure to return only once the loop has ended and nothing is open or held if and only if, as it is made, the loop has ended or the receive task is not yet taken |
| RecvLoop.NextAwait | src/bed/client/connection.py:299-340 | where the loop goes from every await: a parsed message is pushed, a failed dial slept off, a late dial closed, and a new turn reads only from an open socket of its own and dials where there is none |
| RecvLoop.HooksAllRun | src/bed/client/connection.py:318-324 | after a redial each hook is awaited before the loop reads or dials again |
| RecvLoop.BackoffIs | src/bed/client/connection.py:299-316 | over every run, after n failed dials in a row the loop sleeps half a second doubled n times, ten seconds at most |
| RecvLoop.StoppedRun | src/bed/client/connection.py:299-340 | after the stop flag is set no further pass begins, no socket is taken, and the loop ends within the awaits of the pass it is in |
| RecvLoop.SecondCallReturnsEarly | src/bed/client/connection.py:353-376 | in a run from the start a second call is made while the loop runs and the task is taken, so it does not keep the promise: it returns while the loop still closes what it dialed |
| RecvLoop.CanEnd | src/bed/client/connection.py:299-340 | once the stop flag is set the loop is nowhere stuck: it can end within the awaits of the pass it is in |
| Pidfile.RecordedPid | src/bed/main.py:199-207 | what a process writes to an empty file reads back as its pid |
| Pidfile.ClaimEnds | src/bed/main.py:199-291 | which call ends a claim as refused, unclaimed, held or removed, and which leads to each kind of open; no process moves another |
| Pidfile.CallsBounded | src/bed/main.py:199-291 | however the others interleave, a process makes at most six calls before it holds the file or has given up |
| Pidfile.InvStep | src/bed/main.py:199-291 | every call of every process keeps one owner at most, who owns the file at the path; exits and crashes included where they are careful |
| Pidfile.InvDieIff | src/bed/main.py:282-291 | a process that goes away keeps the protocol's invariant if and only if the file does not record it and no other process is about to probe it |
| Pidfile.ExclusiveIff | src/bed/main.py:184-291 | for any number of processes and any initial file, in all runs whose exits are careful at most one process at a time has a descriptor, if and only if the file does not record a process id nobody runs under or there is at most one process |
| Pidfile.NeverTruncatesIff | src/bed/main.py:230-236 | in runs whose exits are careful the truncating open is out of reach if and only if any recorded number is none of those starting and none a probe finds dead; so always without a pidfile |
| Pidfile.DeathBeforeProbe | src/bed/main.py:206-227 | a process that goes away while another is about to probe it lets that one and a third hold the file, from any state without a file |
| Pidfile.DeathBesideHolder | src/bed/main.py:206-227 | a process that goes away while another is about to probe it lets that one join a process that holds the file, from any state |
| Pidfile.DeathOnRecord | src/bed/main.py:206-227 | a process that goes away while recorded lets any two that start hold the file |
| Pidfile.ExitBreaksTheClaim | src/bed/main.py:282-291 | from three starters and no pidfile a run in which a holder unlinks the file and exits ends with two others holding it |
| RestartLoop.MainLoop | src/bed/main.py:1760-1853 | the loop refines its recursive form: events in order and how the run ends |
| RestartLoop.RunFromStart | src/bed/main.py:1760-1853 | the counter is the number of failures in a row, so the run is the one described without a counter |
| RestartLoop.FailuresBounded | src/bed/main.py:1822-1846 | with a fixed limit at most max(limit, 0) + 1 starts fail in a row |
| RestartLoop.FailuresReachTheBound | src/bed/main.py:1822-1846 | and exactly that many are made when every start fails and may be retried |
| RestartLoop.StoppedBeforeNext | src/bed/main.py:1760-1853 | a failed instance is always stopped before another is started, and no other is stopped |
| RestartLoop.FatalEndsTheRun | src/bed/main.py:1779-1821 | the run ends with status 2 if and only if its last instance failed to bind for good without the override, and such a failure is always the last |
| BindSpec.HalvesIff | src/bed/lib.py:43-61 | a value splits into host and port text if and only if it spells them in the bracketed or the plain form, in one way only (RFC 3986, section 3.2.2) |
| BindSpec.AcceptsIff | src/bed/lib.py:43-74 | what is accepted, and as which pair |
| BindSpec.RejectsIff | src/bed/lib.py:43-68 | which values are malformed and which have a port that is no integer |
| BindSpec.ParsesBracketed | src/bed/lib.py:48-55 | parsing undoes the bracketed form of any host without `]` |
| BindSpec.ParsesPlain | src/bed/lib.py:56-61 | parsing undoes the plain form of any non-empty host that does not open with `[`, colons included |
| BindSpec.AcceptedRoundTrips | src/bed/lib.py:43-74 | whatever is accepted prints to a value accepted as the same pair |
| BindSpec.BareAddressIsCut | src/bed/lib.py:36-46 | a bare IPv6 address is not refused but cut at its last colon, against the documentation |

## Left out

Statements that hold under a condition, where the condition comes from:

- TokenLifetimes.NoResurrection: asks that the clock has passed the reading the token was minted at; `ReturnsIff` says exactly when a token can come back.
- AuthAgreement.AgreementThroughout: asks that no step breaks the agreement; `StepAgreesIff` says exactly which steps do.
- SessionInvariants.HousedThroughout: asks that a rebind or an unbind does not take a registered session's own socket; `MeetsThroughoutIff` shows the condition to be exact.
- SessionInvariants.ExactThroughout: asks that every bind meets the condition of `BindExactIff`; `MeetsThroughoutIff` shows it to be exact.
- AuthCollect.CollectionIsUnseen: leaves revocations out of the answers compared, because a revocation answers whether the record was still there.
- AuthTheorems.LazyBindIsReconnect: the socket carries no session, the token is live at all three readings, and the policy and the store let the reconnect through.
- Pidfile.ExclusiveIff: is about runs in which no process goes away while recorded or about to be probed; `InvDieIff`, `DeathBeforeProbe`, `DeathBesideHolder` and `DeathOnRecord` are about the others, without an exact condition for a second holder after such a death.
- Pidfile.NeverTruncatesIff: is about the same runs; a careless exit can lead to a truncating open even where there was no pidfile.
- AuthStrikes.StrikesAreUnseen: leaves revocations out of the answers compared too; `AuthCollect.RevocationTellsIff` says exactly when one can tell.
- AuthSessions.CleanMovesKeepExact: asks that every session that moves has its previous socket unbound first; `MeetsInRunIff` has the exact condition.
- RecvLoop.SettledMeansDone: no send or subscribe runs beside the loop, terminal probing is off, `aclose` itself is not cancelled, and a dial that is cancelled leaves no socket behind.
- Pagination.WalkIsComplete: `PENDING_PAGE_MAX` of bbsengine6 is not in this repository; `CompleteIff` says for which values the walk is complete.

Modelled on values rather than in place:

- The receive loop, the pidfile claim and concurrent dispatches are transition systems on values, since it is the interleaving of their steps that matters; the maps of the message service, the store, the registry and the session states are classes updated in place.
- Two session states are one object only through their reference; that a caller keeps a state object after it was dropped and writes to it is not modelled.

Parameters or assumptions:

- HMAC-SHA256 is any function to 64 hexadecimal digits; that a tag cannot be guessed is no part of the model.
- `base64.urlsafe_b64decode` and `json` are modelled after CPython, on flat objects of strings, integers, floats, flags and null; a payload with anything else (nested values, NaN and infinities, minus zero, floats of more than 20 decimals, non-ASCII bytes, lone surrogates) counts as an invalid token, and so does one whose fields have types bed never mints.
- Floats are exact decimals: that a sum or a parsed numeral is rounded to the nearest double is not modelled, and `ttl_seconds` is any positive time.
- `int()` knows ASCII digits only, and no limit on the number of digits.
- The credential provider, the policies of bbsengine6, new session ids and clock readings are inputs; `websocket.id` always answers.
- The rollback's own delete does not raise.
- A datestamp's text reads back as the same datestamp, and the database refuses any other text or number as one; a cursor with a null datestamp counts as refused too.
- A write to the pidfile is complete or does nothing, process ids fit a C int and are not reused.
- Any error of `recv` is taken to mean that the socket is dead: the source drops its reference without closing it (`src/bed/client/connection.py:326-329`).

Not modelled:

- `DBTokenStore`, the SQL functions behind it, and LISTEN: their logic is in files outside this core.
- The shape and policy gates after a call's session and claims are known, and the sender a plain send is given.
- The reads a login makes beside its token (last login, table ownership, failed-login rows), `client_exit`, logging.
- The bank, casino and whiteboard operations behind the gates.
- The client's `send`, `subscribe`, `force_close` and `_stop_recv_loop`, token files, prompts and status bars.
- Config loading, flags, the fields of a SIGHUP reload other than the restart policy, systemd exit codes; an exception raised by `bed.stop()`.
- Fairness: that a dial, a close or a task in progress ever comes back.
