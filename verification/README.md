# Verified model of the IDAuth login protocol

IDAuth signs users in through an identity provider and hands an application a session. A login is a protocol over
three caches: one *correlation slot* per browser, *one-time codes*, and *sessions*. `/authorize` opens a slot,
`/callback` turns the provider's answer into a stored and audited session, the redirect back carries a code, and
`/token` trades the code for the session ID. Terms of service and role selection gate the session afterwards. Service
clients get sessions from `/token` directly.

No handler makes the interesting facts true alone. They depend on how the slot, code and session writes, the
compensations after a failure and the consumption of a slot by a redirect fit together. This project models all of
it and proves those facts over every run, for arbitrary answers of providers, authorizer, audit and caches.

## How it is built

- `Entities`, `Settings`, `Clients`, `Validators`: records, URL handling, the client store and the service-grant validators.
- `Protocol`: every handler as a function from world to world. A world holds the three caches with deadlines, the client
  map, the clock, the names drawn so far and an observable trace. A step is a request, an eviction or a client reload;
  `Health` says which cache and audit operations of a request succeed.
- `Stores`, `Service`: the same program as objects with fields, loops and early returns, in the shape of the
  repository's code. Each method is proved to do what its `Protocol` function says, and every service that
  `IDAuth.Serve` drives stays in a reached world, so the theorems hold of it.
- `Traces`, `Invariants`, `Preservation`: the invariant, parametrised by a `Trust` record that names which operations
  are assumed reliable, and its preservation by every step. `Reached` names the worlds that runs of any length lead to.
- `Effects`, `Requests`, `Callbacks`, `Grants`: what one request does to any reached world, field by field and without the
  functions of `Protocol` that compute it: which entry it leaves, what goes on record, and that nothing else moves.
- `Deliveries`, `Binding`, `Lifetimes`, `Logins`, `Gates`: the theorems over runs.
- `Redemption`, `SharedSessions`: the two places where single requests interleave. `Atomicity` proves that whole requests
  do to the sessions what such interleavings do.

Assumptions, all explicit: ULIDs are 26-character names drawn once (`FreshNames`), the clock does not go back
(`Admissible`) and the session timeout is positive (`Sound`), as the configuration validator demands. Nothing is
assumed of the URL codec, except where a statement speaks of the origin of a terms page: there `Reparses` says how
net/url treats it. The page is read back with its path exactly when that path is `Anchored`: behind "//" always, and
otherwise unless it starts with two slashes (three without a scheme are a path) or its first segment has a colon. An
opaque URL such as "app:8080/cb" ignores the path. `PLAIN_CODEC` meets the assumption.

## What the code does that its documentation does not say

- The exchange of a code goes on after it has answered that the code grant is disabled (routes.go:185-191). It
  hands out nothing all the same: `Binding.DisabledGrantHandsOutNothing`.
- A redirect URI is accepted when it is a *substring* of a registered one (routes.go:941-948). So a piece that names
  another host is accepted, and so is the empty string (`Clients.PiecesOfRegisteredUrisAreAccepted`), and the flow ends
  there. `Clients.AcceptedIsRegisteredWhen` says when an accepted URI is a registered one.
- The terms page of an opaque URI is that URI itself (routes.go:964-976), so a login for it never reaches the terms page:
  `Logins.OpaqueUrisMissTheTermsPage`. The terms page of a bare URI may lie on another host
  (`Binding.RelativeUrisMayLeaveTheirOrigin`); `Settings.TermsPageKeepsOrigin` says when it is where it should be.
- Accepting the terms authorizes a session whose only role is blocked, where a login with the same data asks for a
  role (routes.go:761-766, routes.go:625-634): `Entities.PlacementsAgree` and `Gates.TermsAuthorizeABlockedRole`.
- A code can stand for a session that is not stored and audited. The logins of which this holds are those that
  `Traces.Escapes` names: refusals with an empty error code (routes.go:411-416, routes.go:717-718; every provider and
  authorizer of the repository sets a code, so only one of a library user can do this), failed slot writes
  (routes.go:788-790, routes.go:821-823), which leave the error code empty, and failed logins whose error redirect does not
  consume the slot (idauth.go:238), so that the next callback redirects again. `Deliveries.HandOversAreBackedUnlessTheyEscape`
  and `Deliveries.EscapedLoginsAreHandedOver` are the two directions.
- `/authorize` deletes the slot of the browser's cookie when the provider cannot start, also when it just opened another one
  (routes.go:349-355): `Requests.QueriesAreRecorded`.
- A login that fails after its session was stored, because the terms page cannot be built or the slot not be written
  again, leaves the session behind (routes.go:814-824): `Logins.LoginsAreAllOrNothing`.
- Sessions are written back whole, some time after they were loaded and dated. So requests that overlap can put the access
  time back (`SharedSessions.CrossingKeepAlivesRewindAccess`, `SharedSessions.StaleRoleChoiceRewindsAccess`), and one that
  loaded a session before its logout can bring it back (`SharedSessions.StaleKeepAliveUndoesLogout`).
  `SharedSessions.AccessGoesBackWhen` and `SharedSessions.RemovalIsFinalWhen` say exactly when.
- After a post-callback sign-out the terms page and the session's creation time are lost, because the slot never
  keeps them (app/correlation.go:79-82): `Logins.SignedOutLoginsMissTheTermsPage`.
- The branch of `/authorize` for a correlation that already has a session (routes.go:342-347) is dead; in
  `Service.IDAuth.Authorize` it is proved unreachable.

## Model

| member | source | states |
|---|---|---|
| Effects.StrangersDoNothing | idauth.go:245-279 | a session request whose token names no live session leaves all caches, clients and the trace as they were |
| Effects.LogoutRemoves | routes.go:476-519 | a logout leaves exactly the sessions without its own if the delete works, and all of them otherwise |
| Effects.LoggedOutForGood | session.go:140-142 | a session that a logout removed is stored in no world that any later run of whole requests reaches |
| Effects.ReadingRemovesOutlived | routes.go:569-581 | reading a session removes it exactly when it was idle for a second more than the timeout and the delete works |
| Effects.KeepAliveRenews | session.go:122-138 | a keep-alive sets the last access to now and the deadline to a full timeout, of its session alone, exactly if the write works |
| Effects.TermsAnswersAreStored | routes.go:726-777 | a granted answer that can be stored replaces the session by what the authorizer says, placed by terms, roles and configuration case by case, with a full deadline; a denial or a failed write changes nothing; no other session changes |
| Effects.RoleChoicesAreStored | routes.go:865-939 | a permitted choice stores the session authorized with the first role of the requested ID; an audited choice of an outlived session removes it |
| Effects.OtherRoleChoicesDoNothing | routes.go:865-901 | a choice behind unaccepted terms, in another state, of a missing or blocked role, or that cannot be stored changes nothing |
| Effects.ReloadsReplaceTheClients | core/client_composite.go:80-126 | a reload stores under each ID its first client, a file client flagged and hashed, an API client as a service client with its secrets as they come; it changes nothing exactly if a source fails or a client has no ID |
| Effects.EvictionsOnlyLose | app/correlation.go:26 | a cache that loses entries changes nothing else |
| Requests.QueriesAreRecorded | routes.go:280-356 | an accepted `/authorize` goes on record with client, registered URIs, URI and the client's own state or else the drawn one; one slot, the browser's or a new one, holds for twenty minutes exactly these and nonce, challenge and method; a provider that cannot start answers "server_error" with that state |
| Requests.OtherQueriesDoNothing | routes.go:258-326 | every other query changes nothing |
| Requests.LatestQueryIsOnRecord | routes.go:318-335 | over every run the record of a slot's latest accepted request is the latest query taken on it, as the client sent it; no other request writes one |
| Requests.RedirectsAnswerTheLatestQuery | idauth.go:208-242 | in every run each redirect carries the state that the client sent with the latest query taken on its slot, or the one drawn for it, and ends where that query asked (section 4.1.2 of RFC 6749) |
| Callbacks.OtherCallbacksDoNothing | routes.go:358-375 | a callback without provider or live slot changes nothing |
| Callbacks.BrokenCallbacksStartNoLogin | routes.go:384-401 | a cancelled callback or one of an unknown provider asks nobody, stores nothing and ends its flow with "canceled" or "invalid_callback" |
| Callbacks.TurnedAwayWithReason | routes.go:405-422 | a rejected or denied user gets no session and the error that came with the refusal, or else "invalid_callback" from the provider and "server_error" from the authorizer |
| Callbacks.TurnedAwayWithoutReason | idauth.go:222-236 | with an empty error the drawn session ID is handed over instead, and no session is behind it |
| Callbacks.ManagedFlowsAreHandedOver | routes.go:424-429 | a provider-managed flow is handed over with the session ID itself and stores nothing |
| Callbacks.LoginsStoreTheAnswer | routes.go:607-656 | a callback leaves one new session exactly for a vouched user whose session was written and not deleted again; it has the drawn ID, person, roles, rights and flags of the answer, now as last access, a full deadline, and state and role by cases of configuration and data; all other sessions stay as they were |
| Callbacks.CompletedLoginsAreHandedOver | routes.go:782-858 | a stored and audited login ends at its URI or its terms page with its session, through a code that lives three minutes and remembers URI, session and creation time; before a sign-out it stays in its slot for twenty minutes |
| Callbacks.FailedLoginsAreRefused | routes.go:847-858 | a login not stored or not audited ends there with "server_error" |
| Callbacks.CutOffLoginsAreHandedOver | routes.go:788-824 | a login whose slot or terms page could not be written hands its session over all the same, without an audit and, in the first case, without a stored session |
| Callbacks.HeldSessionsAreHandedOver | routes.go:377-382 | both callbacks end a flow that holds a session with that session and without its creation time |
| Callbacks.OtherLogoutCallbacksDoNothing | routes.go:459-474 | the sign-out callback changes nothing for any other flow |
| Grants.ExchangesAnswer | routes.go:184-256 | an exchange hands out the session of a live code for a URI it was issued for and tells the whole seconds left since its creation, or -1 without one; otherwise nothing; the code is gone once it was read if the delete works |
| Grants.ServiceGrantsOpenSessions | routes.go:41-182 | a service grant with good evidence stores an authorized session with the answer's fields and the only unblocked role, and after the audit tells the whole seconds of the timeout; a failed audit takes it back; any other request changes nothing |
| Grants.NamelessGrantsDoNothing | routes.go:22-39 | a token request without grant type changes nothing |
| Atomicity.RunsAreInterleavings | session.go:88-142 | every world that whole requests reach, some interleaving of single loads, clock readings, stores and removals reaches with the same sessions and nobody in flight |
| Deliveries.LoginsAreDeliveredOnce | routes.go:377-440 | after every run with reliable slot deletes, a session ID sits in at most one slot and went into at most one redirect, never both; with reliable code deletes it was exchanged at most once, and not while a code for it exists |
| Deliveries.SecondExchangeNeedsFailedDelete | app/oot.go:62-72 | a live code is exchanged twice exactly when the first delete failed |
| Deliveries.SecondRedirectNeedsFailedDelete | idauth.go:208-242 | a held session is redirected twice exactly when deleting its slot failed |
| Deliveries.HandOversAreBackedUnlessTheyEscape | routes.go:377-456 | in every run, whatever fails: a session handed over outside provider-managed flows, in its login's own redirect or for a leftover slot, was stored and audited before exactly unless its login escaped (empty error code, failed slot write, or compensated with its slot left) |
| Deliveries.EscapedLoginsAreHandedOver | idauth.go:208-242 | every login that escapes is handed over without a stored and audited session, by its own redirect or by the next one of its browser |
| Deliveries.EmptyRejectionEscapes | routes.go:405-422 | a provider rejection with an empty code hands the session over at once |
| Deliveries.RefusalsNeedACode | routes.go:411-420 | a rejected or denied login is refused exactly when its error code is not empty |
| Deliveries.CodesStandForSessions | routes.go:403-457 | with reliable slot writes and deletes and non-empty error codes, at any time of any run every redirect that hands a session over outside provider-managed flows, for a URI whose terms page can be parsed, names one that was stored and audited before |
| Deliveries.LeftoverSlotsAreBackedOrDead | routes.go:782-858 | under the same trust a session ID left in a slot for such a URI names a stored and audited session, or redirecting for that slot changes nothing |
| Deliveries.AnchoredAndOpaqueAreLocated | routes.go:956-977 | the terms page of an anchored or opaque URI can be parsed |
| Binding.FlowsEndWhereTheyWereAsked | routes.go:280-335 | in every run, whatever fails: an exchange presents the URI of the latest accepted request on the slot that produced the code, that URI was allowed for its client, and the token is the session that the redirect with the code handed over; each redirect is that URI with its own parameters, or its terms page, plus the state and the error or code and nothing else, and keeps the origin of an anchored or opaque URI (sections 4.1.2 and 4.1.3 of RFC 6749) |
| Binding.RelativeUrisMayLeaveTheirOrigin | routes.go:964-976 | an accepted bare URI that is not anchored, and whose terms page lies on another host |
| Binding.AcceptedSlotsAreNew | app/correlation.go:51-78 | whatever the slot held before, an accepted `/authorize` leaves in the browser's or a fresh slot exactly what was asked for, with a full deadline and the state as sent, and changes no other slot |
| Binding.PastFlowsLeaveNoMark | app/correlation.go:63-78 | two services that differ only in what an earlier flow of the same client left in the browser's slot are equal after `/authorize` and after every sequence of later requests |
| Binding.DisabledGrantHandsOutNothing | routes.go:184-227 | with the code grant off, every run keeps the code store empty and exchanges no token, although the handler goes on past its 403 |
| Lifetimes.LastAccessNeverGoesBack | session.go:111-138 | between any two points of a run of atomic requests a session's last access does not go back, and its cache deadline is at least last access plus timeout |
| Lifetimes.NoSessionReturns | session.go:101-109 | with atomic requests, no step stores a session under a name drawn before unless that session is still stored |
| Lifetimes.KeptSessionsSurvive | session.go:122-138 | a session extended at gaps below the timeout and neither logged out nor evicted resolves, is active and has time left, for runs of any length |
| Lifetimes.OwnRequest | session.go:101-138 | what a request can leave of its own session: nothing, the same entry, or one with the same or the present access time and a full deadline |
| Lifetimes.FlowsSpare | routes.go:258-456 | login flows, token requests and reloads leave every existing session entry alone |
| Logins.LoginsAreAllOrNothing | routes.go:782-858 | a login adds exactly its session or leaves the sessions alone; it adds one exactly when it completes, stays unfinished after the store or could not be deleted; so with reliable slot writes and deletes and a parsable URI exactly when it is stored and audited |
| Logins.ServiceGrantsAreAllOrNothing | routes.go:149-181 | a token is issued only after its session was stored and audited, then exactly that session is added; otherwise nothing is |
| Logins.ServiceSessionsAreEarned | routes.go:41-101 | a token request that changes the sessions used an enabled, known grant and a stored service client |
| Logins.DirectLoginsReachTheTermsPage | routes.go:814-824 | a completed login redirects to the origin it was asked for with its state: to the terms page, without the URI's parameters, exactly when its session awaits the agreement and the URI is not opaque, to the requested URI with them otherwise; its code carries the creation time |
| Logins.OpaqueUrisMissTheTermsPage | routes.go:964-976 | an accepted opaque URI whose terms page is that URI itself |
| Logins.SignedOutLoginsMissTheTermsPage | routes.go:377-381 | after a sign-out, over the sign-out callback and the provider's callback alike, the redirect goes to the requested URI whatever the session needs and its code carries no creation time |
| Logins.HeldCallbacksAreAlike | routes.go:459-474 | both callbacks do the same for a slot that holds a session |
| Logins.ExchangesNeverOverPromise | routes.go:251-255 | in every run an exchange tells the whole seconds left since its session was created, or -1 if the code does not say when, and these are at most what is left to the session, if it is still stored |
| Gates.AuthorizedOnlyBehindTheTerms | idauth.go:303-331 | with terms required, every step that makes a session authorized leaves it with accepted terms, except the new session of a service grant |
| Gates.StoredSessionsAreInOrder | routes.go:868-911 | after every run a session's state agrees with terms, roles and blocking; with roles required an authorized interactive session has a role exactly unless its latest terms answer had one blocked role and none was chosen since; with an honouring authorizer the role is current and the agreement state tells the terms |
| Gates.RoleStaysCurrentWhen | routes.go:736-773 | a terms answer leaves the role among the current ones exactly when terms came back accepted, there was no role or it is still listed |
| Gates.AgreementTellsTheTermsWhen | routes.go:736-773 | after a terms answer the agreement state tells the terms exactly when they came back accepted or were awaited |
| Gates.TermsAuthorizeABlockedRole | routes.go:761-766 | an accepted answer with one blocked role authorizes without a role, where a login asks for one |
| Entities.PlacementsAgree | routes.go:615-637 | the decisions at login and at acceptance agree exactly unless roles are required and the only role is blocked |
| Entities.SecondsAreTold | core/session.go:45-51 | the number told is what is left of the timeout since the last access in whole seconds, rounded toward zero, or -1 without one |
| Entities.NegativeMeansOutlived | routes.go:577-581 | it is negative exactly after an idle time of a second more than the timeout |
| Entities.LaterAccessLivesLonger | core/session.go:45-51 | the number told is monotone in the last access |
| Entities.NewSessionIs | routes.go:607-656 | a new session has the ID, person, roles, rights and flags it should, now as last access, and its state and role by cases |
| Entities.NewServiceSessionIs | routes.go:116-147 | the same for a service session, which is authorized and has the only unblocked role |
| Entities.AfterTermsIs | routes.go:726-773 | the same for a terms answer, which keeps state and role if the terms were not accepted |
| Entities.ChosenRoleIs | routes.go:865-901 | a choice is permitted exactly in the two states for the first role of the ID, when neither it nor its organization is blocked |
| Entities.FindRole | routes.go:979-986 | finds a role of the list with the ID, or nothing exactly when none has it |
| SharedSessions.StaleWritesKeepTheRules | routes.go:726-777 | in every interleaving of loads, clock readings and whole-session writes each stored or in-flight session obeys the placement rules |
| SharedSessions.StaleRoleChoiceRewindsAccess | session.go:111-119 | a role choice that loaded before a keep-alive stored puts the older access time back |
| SharedSessions.AccessGoesBackWhen | session.go:111-138 | in every interleaving of loads, clock readings and stores, the stored access time of a session falls behind an earlier one exactly when a request stores a version dated before that: by its load for a role choice, by its clock reading for a keep-alive or terms answer |
| SharedSessions.OneActionRewindsWhen | session.go:111-138 | the same for one action |
| SharedSessions.WithoutOverlapNothingGoesBack | session.go:111-138 | in every interleaving in which no two requests that can store a session overlap, its access time never goes back |
| SharedSessions.CrossingKeepAlivesRewindAccess | session.go:127-137 | of two keep-alives that cross, the one dated first and stored last puts the access time back |
| SharedSessions.RemovedComesBackWhen | session.go:111-142 | one action stores a session that is not stored exactly if it is the store of a request that is about to store it |
| SharedSessions.RemovalIsFinalWhen | session.go:111-142 | a session that is gone stays gone in every interleaving that follows exactly when no unfinished request that can still write (keep-alive, terms answer, permitted role choice, about to store) holds it |
| SharedSessions.StaleKeepAliveUndoesLogout | session.go:122-142 | a keep-alive that loaded before a logout and stores after it brings the session back |
| Redemption.SpentCodesStaySpent | app/oot.go:37-72 | in every interleaving, once a redemption got a code and ended with a successful delete, every redemption that begins later gets nothing (section 4.1.2 of RFC 6749) |
| Redemption.DeletedCodesStaySpentWhen | app/oot.go:37-72 | once a code is not stored, as after a successful delete, every later redemption in every interleaving gets nothing exactly when the code was minted and its generator is done |
| Redemption.OverlappingRedemptionsBothGetIt | app/oot.go:62-72 | two redemptions that read before either deletes both get the code |
| Redemption.LaterRedemptionGetsItWhen | app/oot.go:68-71 | a redemption after another gets the code exactly when the first delete failed |
| Redemption.EarlyRedemptionSpendsNothing | app/oot.go:37-56 | a redemption that reads before the code is stored spends nothing, even with a successful delete |
| Settings.TermsPageKeepsOrigin | routes.go:956-977 | the terms page exists exactly for parsable URIs; it keeps the prefix before "/auth-done", and keeps origin and path exactly when it is anchored; an opaque URI is kept without its query |
| Settings.TermsPathIs | routes.go:956-977 | the endpoint with its default and its slash; it replaces "/auth-done" at the end of the path, or the whole path |
| Settings.PlainCodecReparses | routes.go:964-976 | a codec with hosts, opaque URLs, relative and bare paths meets the assumption on net/url |
| Clients.IndexRefinesSearch | core/client_composite.go:90-101 | looking an ID up in the built map is the linear search for its first client |
| Clients.InteractiveClientsComeFromTheFile | core/client_composite.go:60-126 | with a file source alone or followed by an API source, the stored clients not flagged as service clients are exactly those whose first file entry has redirect URIs |
| Clients.LoadAllFailsForGood | core/client_composite.go:84-93 | once a source fails or a client has no ID, later sources cannot mend the load |
| Clients.LoadsStoreTheFirst | core/client_composite.go:60-126 | a load succeeds exactly on readable sources with named clients, and then stores each ID's first client: a file client flagged by its URIs and hashed, an API client flagged with its secrets as they come |
| Clients.FileSecretsMatchByHash | core/client_composite.go:213-223 | a file client's stored secrets hold a hash exactly when some configured secret has it |
| Clients.AcceptedIsRegisteredWhen | routes.go:941-948 | an accepted redirect URI is registered exactly when it is at least as long as a registered URI that contains it; with one registered URI, when it is not shorter |
| Clients.PiecesOfRegisteredUrisAreAccepted | routes.go:941-948 | a piece of a registered URI that names another host is accepted; the empty URI is accepted exactly for clients with redirect URIs |
| Clients.PrepareFileClients | core/client_composite.go:213-223 | the in-place loops leave every file client flagged and hashed |
| Clients.AddClients | core/client_composite.go:90-101 | the loop over a batch fails exactly on a missing ID and otherwise extends the map, keeping earlier clients |
| Clients.CompositeClientStore.LoadClients | core/client_composite.go:80-106 | replaces the map by the index of all sources' clients, or leaves it alone exactly when the load fails |
| Clients.CompositeClientStore.RefetchClients | core/client_composite.go:108-114 | the same for a reload |
| Clients.CompositeClientStore.GetClient | core/client_composite.go:116-126 | the stored client or the invalid-client error |
| Clients.CompositeClientStore.ValidateCredentials | core/client_composite.go:137-196 | admits exactly known service clients with the grant listed ("basic" standing in), all scopes covered and a matching or skipped secret; separates the two refusals |
| Validators.IAMTokensLiveOnOneInterval | core/token_validator.go:286-317 | claims are accepted exactly with a client ID and an expiry inside one interval of time (sections 4.1.4 to 4.1.6 of RFC 7519) |
| Validators.ServiceGrantsAreEarned | core/token_validator.go:45-72 | an authenticated client is a stored service client listing the grant; PFAS scopes lie in token and client, IAM time lies in the token's window, otherwise the secret's hash is stored (section 2.2 of RFC 7662) |
| Validators.GoodEvidenceIsAccepted | core/token_validator.go:78-284 | a service grant authenticates a client exactly on good evidence: for PFAS the client is the audience's part behind the last colon |
| Validators.GrantTypesAreAliasedOrDead | core/token_validator.go:46-70 | "basic" and "client_credentials" authenticate alike; any unknown grant authenticates nobody |
| Validators.ValidateToken | core/token_validator.go:41-43 | a valid result exactly for accepted evidence, with the client it proves; an invalid one exactly for no validator or an inactive token |
| Validators.ValidateBasic | core/token_validator.go:78-106 | valid exactly when the decoded credentials, hashed, are admitted |
| Validators.ValidatePfas | core/token_validator.go:186-236 | refused exactly when bearer, introspection, scopes or client fail; valid exactly when the token is also active |
| Validators.ValidateIAM | core/token_validator.go:238-284 | valid exactly for verified claims in their window whose client is admitted |
| Basics.AfterLastColon | core/token_validator.go:218-219 | the audience's part behind its last colon |
| Stores.CorrelationStore.GetFromCookie | app/correlation.go:104-130 | the live slot that the cookie names, an error exactly for a malformed cookie or failed read |
| Stores.CorrelationStore.Set | app/correlation.go:39-88 | opens, resets or updates exactly one slot; a failure changes nothing; a request without session ends with a new correlation |
| Stores.CorrelationStore.Get | app/correlation.go:91-97 | the correlation of the cookie's live slot |
| Stores.CorrelationStore.Delete | app/correlation.go:158-191 | removes the slot that the cookie names and no other |
| Stores.OTTStore.GenerateToken | app/oot.go:37-56 | stores a code bound to the flow's redirect URI, session and creation time for three minutes, or nothing |
| Stores.OTTStore.RedeemToken | app/oot.go:58-72 | returns the live code even if its delete fails; after a successful delete it is gone |
| Stores.CacheSessionStore.GetSessionByID | session.go:88-99 | the live session; not found exactly when there is none |
| Stores.CacheSessionStore.Create | session.go:101-109 | stores the session under its ID, or a new one, with a full deadline |
| Stores.CacheSessionStore.Update | session.go:111-119 | replaces the session and renews its deadline unless it has no ID |
| Stores.CacheSessionStore.Extend | session.go:122-138 | moves the last access to now and answers the extended copy even if the write fails |
| Stores.CacheSessionStore.Delete | session.go:140-142 | removes that session only |
| Service.ValidRedirectURI | routes.go:941-948 | the loop decides whether some registered URI contains the requested one |
| Service.GetRoleByRelationID | routes.go:979-986 | the loop finds the first role with the ID |
| Service.ValidRedirect | routes.go:229-239 | the loop decides whether the code allows the presented URI |
| Service.SingleUnblockedRole | routes.go:116-122 | the only role of a user, if nothing blocks it |
| Service.IDAuth.RedirectToCaller | idauth.go:208-242 | the redirect of the model: code issued, slot consumed, error or state echoed, nothing on a bad URI or failed code |
| Service.IDAuth.Authorize | routes.go:258-356 | takes the service to the world of the `/authorize` step; a started login is on record with client, URI and state as sent; the session shortcut is unreachable |
| Service.IDAuth.CreateSessionFromUserData | routes.go:615-656 | builds a session that mirrors the authorizer's answer, with state and role by cases |
| Service.IDAuth.UpdateFromUserData | routes.go:726-780 | merges a terms answer field by field into the request's session and stores it |
| Service.IDAuth.HandleUserData | routes.go:701-780 | denial, login and terms answer as the model has them, with the fields set on the caller's correlation |
| Service.IDAuth.StartSession | routes.go:782-859 | slot, session, terms target and audit in the order of the code end where the model's login ends |
| Service.IDAuth.StoreNewSession | routes.go:812 | creates a session, on record exactly if the store succeeds |
| Service.IDAuth.SendToTerms | routes.go:814-824 | points the flow to its terms page before the audit, and gives up without deleting the session if it cannot |
| Service.IDAuth.AuditLogin | routes.go:847-858 | a login not stored or not audited is deleted and its flow gets an error |
| Service.IDAuth.Callback | routes.go:358-403 | takes the service to the world of the callback step |
| Service.IDAuth.ProviderCallback | routes.go:404-456 | the same for the part after the provider answered |
| Service.IDAuth.OidcLogoutCallback | routes.go:459-474 | redirects exactly for a slot that holds a session |
| Service.IDAuth.Token | routes.go:22-39 | every answered access token is one more token event with the same lifetime, and none is otherwise |
| Service.IDAuth.AuthorizationCode | routes.go:184-256 | the same for the exchange of a code |
| Service.IDAuth.ClientCredentials | routes.go:41-114 | the same for the service grants |
| Service.IDAuth.AuthenticateClient | routes.go:45-101 | the client that the enabled validator accepts |
| Service.IDAuth.OpenServiceSession | routes.go:116-182 | the service session, stored and audited or deleted again |
| Service.IDAuth.AuthorizeBearer | idauth.go:245-279 | the live session of the bearer token |
| Service.IDAuth.SessionToResponse | routes.go:569-604 | answers with the session and its whole seconds left, or inactive exactly for one outlived, which it logs out |
| Service.IDAuth.GetSession | routes.go:543-550 | the same for the request's session |
| Service.IDAuth.DeleteSession | routes.go:476-519 | removes the request's session exactly if the delete works; no content exactly if it was also audited |
| Service.IDAuth.ExtendSession | routes.go:552-561 | takes the service to the world of the keep-alive step; fails exactly when the session cannot be loaded, and answers with it as accessed now |
| Service.IDAuth.TermsAccept | routes.go:658-699 | takes the service to the world of the terms step; no content exactly for a granted answer that was stored and audited |
| Service.IDAuth.SetSessionRole | routes.go:865-939 | switches to an existing, unblocked role in a permitting state only; fails exactly otherwise or when storing or auditing fails, and answers with the session in its role |
| Service.IDAuth.ServeSession | idauth.go:186-199 | the bearer and terms middleware in front of the session handlers |
| Service.IDAuth.Dispatch | idauth.go:165-184 | every request is served as the model's `Handle` says |
| Service.IDAuth.Serve | idauth.go:165-206 | serving an admissible request advances the model by one step, stays in a reached world and satisfies the whole invariant; a confirmed logout leaves its session stored nowhere |
| Service.IDAuth.constructor | idauth.go:59-64 | a new service is valid and in the empty world |
| Preservation.ReachedKeeps | idauth.go:165-206 | every world that steps lead to from the empty service satisfies the invariant, under any trust the steps honour |
| Preservation.RunsReach | idauth.go:165-206 | a run of such steps, as a sequence, ends in a reached world |
| Preservation.ReachedByARun | idauth.go:165-206 | every reached world is the end of such a run |
| Preservation.LoginShape | routes.go:782-858 | the four ways a login can end and the world each of them leaves |
| Preservation.AuthorizeKeeps | routes.go:258-356 | `/authorize` keeps the invariant |
| Preservation.CallbackKeeps | routes.go:358-456 | a callback keeps the invariant |
| Preservation.RedirectKeeps | idauth.go:208-242 | a redirect keeps the invariant: what leaves the slot enters at most one delivery |
| Preservation.ExchangeKeeps | routes.go:184-256 | an exchange keeps the invariant |
| Preservation.ServiceKeeps | routes.go:41-182 | a service grant keeps the invariant |
| Preservation.SessionRequestsKeep | routes.go:476-604 | the session requests keep the invariant |

## Left out

- PostgresSessionStore: its behaviour lives in stored procedures that are not part of this model; sessions live in the cache store.
- Providers (OIDC, WS-Federation, claim mapping): a callback is an arbitrary rejection, a provider-managed login or an authenticated user; a provider changes no field of the correlation but the managed flag.
- The authorizer's request: only its answer matters; a denial carries an optional error code.
- HTTP, cookies, JSON and status codes: a request carries the slot its cookie names; refusals are one answer; the redirect is a URL value.
- Of the bodies of session answers, scopes, organization details and countdown; devices, session metadata and the provider's logout URL.
- Audit contents, including the nil session audited when a role update fails: only whether the audit succeeds matters.
- Configuration, metadata, health checks, static API keys, webhooks other than the reload, admin listings, and the endpoints behind `RequireAuthorized`, which change nothing in the cache store.
- PKCE and nonce: stored and reset with the slot; the code never checks them.
- Cryptography and encodings: hashing is an arbitrary function, the introspection endpoint and the JWT verifier answer arbitrarily, headers arrive decoded, scopes arrive split into words, and every split word is compared whole.
- Client fields that no handler here reads (metadata, certificates, claims), and the order of a map's clients.
- Deliveries.CodesStandForSessions: is stated for URIs whose terms page can be parsed; for others a failed login can leave its slot behind, which `Traces.Escapes` counts.
- Binding.FlowsEndWhereTheyWereAsked: of a terms page that is not anchored it says that it is not where it should be, and not where it is instead.
- Lifetimes.NoSessionReturns: is stated for atomic requests; SharedSessions says when a removal is undone by a request in flight.
- Entities.GetSecondsToLive: integer nanoseconds stand for the floating-point seconds of the original, which differ only beyond the precision of a float.
- One clock reading per atomic request: the original reads the clock several times within a request. SharedSessions separates the reading from the store.
- Clients.CompositeClientStore.ValidateCredentials: grant lists are values, so that the grant appended for "basic" (core/client_composite.go:151-153) does not reach the stored client holds by construction; in the original the two slices may share their backing array, beyond the stored length.
- Correlations, codes and sessions are values: the caches hand out copies as Redis does, so the sharing of one object by an in-memory cache and its readers is not captured.
- A cache operation that fails changes nothing; the read and the write inside one `Set` fail together; the two deletes of a callback for an unknown provider succeed or fail together.
- Preservation.LoginShape: is stated for a slot that holds no session yet, which is the only way a callback reaches a login.
- Stores.OTTStore.GenerateToken: interleaving of its cache operations is in Redemption, where names and deadlines are abstracted to minting and expiry.
