# Verification of the OAuth refresh protocol and its neighbours

This project models the parts of the m365 MCP server where order, interleaving and bounds matter, and proves
what they promise, for every input and every run:

- **The OAuth services** (`OAuth*.dfy`). The SQLite tables, every store transaction, and the authorize, callback,
  exchange and refresh requests as processes that interleave between transactions. One inductive invariant covers
  the tables, the requests in flight, and a ledger of everything that has happened.
- **The bounded stores** for attachment downloads and uploads (`Downloads.dfy`, `Uploads.dfy`).
- **Loops with arithmetic**: the Graph retry loop (`GraphRetry.dfy`), the chunked upload of the server and of the
  Windows program (`ChunkUpload.dfy`), the signing-key cache with its limiter (`OidcCache.dfy`).
- **The release-notes renderer** (`ReleaseNotes.dfy`), where the overwrite law rests on substring search.

`dafny verify dfyconfig.toml` checks the whole project.

## How the OAuth model is built

`OAuthRecords` holds the rows. A digest is a constructor around its preimage and a sealed blob a constructor around
its context, so hashing is injective and a blob opens under an equal context only. `OAuthTables` gives every store
transaction as a function from tables to tables and an answer; `OAuthStore` runs the statements of each transaction in
order on mutable tables and is proved to commit what that function says. `OAuthServices` does the same for the two
services: its methods follow the code statement by statement and are proved to do what the steps of `OAuthProtocol` do
when nothing comes between them. Along whole runs (`OAuthRuns`), `OAuthHistory` traces what is handed out and stored
back to the requests and upstream replies behind it, `OAuthIdentity` every rotation to upstream's confirmation, and
`OAuthRefusals` every refusal and revocation to its cause; `OAuthDoors` says exactly which requests start.
`OAuthProgress` shows that honest requests succeed, `OAuthReplay` that the two looks of a replay revocation act as one,
and `OAuthReclaim` what the sweep does to answers.

`OAuthProtocol` is the concurrent system. A request is a process with a stage and the snapshot and clock reading it
took; one step is one store transaction or one upstream reply, and between two steps of a process any steps of others
may come, as well as clock ticks, registrations and restarts that sweep. The reference for the code is:
`CheckAuthorize` and `AdvanceAuthorize` for authorization.py 64-139, `AdvanceComplete` for 141-266, `CheckExchange` and
`AdvanceExchange` for 268-338, `CheckRefresh` for 340-375, `AdvanceRefresh` for sessions.py 96-323, `BindingValid` for
325-330, and the `ContextOf` functions for the protection contexts in both files.

The ledger records which process drew which value, which deed each process did, and the chain of handles of each
session. `Inv` (in `OAuthInvariant`) says that ledger, tables and processes agree. `EveryRunIsSafe` shows `Inv` in every
world of every run, so a lemma that requires `Inv(s, w)` speaks of every reachable world.

Assumptions, each of them part of the model's text:

- A drawn value (handle, id, state, code) differs from all drawn before and from every secret a request has presented.
  It is drawn in the step that first stores it. (An upstream state is passed to upstream shortly before, but the
  browser is sent there only after the authorize request has stored it.)
- The clock does not go back. A request keeps the reading it took at its start.
- Upstream replies, token validation and store errors are chosen freely at every step. A store error changes nothing.
- A reply that identifies someone has a non-empty access token and cache, as entra.py 181-201 ensures. In a callback its
  lifetime is what is left when the token has been validated.
- One issuer and one configuration per run. Clients are registered once and never changed.

## What the code does that its descriptions do not say

- Reclamation is visible to a request whose clock reading is older than another request's sweep: an operation is
  answered as without reclamation if and only if the row it acts on expires after every sweep since that row was stored
  (`ReclamationExactly`). A refresh that waits upstream while another request sweeps with a reading at or past the
  session's expiry was shown the session and conflicts at its swap (`WaitingRefreshConflicts`); it is then refused with
  invalid_grant, which the guarantees cover.
- The comment at oidc.py 84 says that failed fetches are limited too. A forced call inside the interval fetches all the
  same if and only if no fetch within the last lifetime brought keys (`LimiterFailsExactly`), and the validator's
  unforced look does not prevent that (`ExpiryBetweenLooks`).
- Release notes with one marker of each kind in the wrong order are refused by the unpacking at line 61 rather than by
  the check at line 57, so by a different message (`AcceptedExactly` covers both). A marker inside an inserted value is
  accepted once and makes every later update fail (`OverwriteLaw`).
- `rotate_refresh_session` checks the limit again, but no request of this server can meet it there (`SwapBelowLimit`).

## Model

| member | source | states |
|---|---|---|
| `OAuthStore.SQLiteOAuthStore.DeleteTerminalRows` | src/m365_mcp/oauth/store.py:824-852 | The DELETE statements remove every row that is over, and the foreign key takes a deleted session's history along; keys, unique columns and references stay intact. |
| `OAuthStore.SQLiteOAuthStore.CreateTransaction` | src/m365_mcp/oauth/store.py:444-474 | Commits the sweep and the new row together; a duplicate id hash or state hash rolls both back. |
| `OAuthStore.SQLiteOAuthStore.ConsumeTransaction` | src/m365_mcp/oauth/store.py:476-503 | At most one caller gets a pending, unexpired transaction of this issuer; the update that repeats the select always matches. |
| `OAuthStore.SQLiteOAuthStore.CreateCode` | src/m365_mcp/oauth/store.py:505-537 | Commits the sweep and the new code together, or nothing on a duplicate hash. |
| `OAuthStore.SQLiteOAuthStore.ConsumeCode` | src/m365_mcp/oauth/store.py:539-578 | Spends a code only for the right issuer, client, redirect, challenge and time; any other attempt changes nothing. |
| `OAuthStore.SQLiteOAuthStore.CreateSession` | src/m365_mcp/oauth/store.py:580-609 | Commits the sweep and the new session together, or nothing on a duplicate id or handle hash. |
| `OAuthStore.SQLiteOAuthStore.GetRefreshSession` | src/m365_mcp/oauth/store.py:611-628 | Returns the one live, unexpired row that the handle hash selects for this issuer and client. |
| `OAuthStore.SQLiteOAuthStore.RotateRefreshSession` | src/m365_mcp/oauth/store.py:630-720 | The compare-and-swap commits the new handle, the history row and the sweep together, retires the row at the limit, reports a conflict otherwise, and rolls the update back when the history row is a duplicate. |
| `OAuthStore.SQLiteOAuthStore.RevokeRefreshSession` | src/m365_mcp/oauth/store.py:722-747 | Revokes exactly the unrevoked row that still has this handle, whether it has expired or not. |
| `OAuthStore.SQLiteOAuthStore.FindReplayedSession` | src/m365_mcp/oauth/store.py:799-822 | The join finds the live, unexpired session whose history holds the spent handle for this issuer, client and family. |
| `OAuthStore.SQLiteOAuthStore.RevokeReplayedUnderLock` | src/m365_mcp/oauth/store.py:766-796 | The second transaction finds again and revokes under repeated conditions what one atomic find-and-revoke specifies. |
| `OAuthStore.SQLiteOAuthStore.RevokeRefreshSessionByReplay` | src/m365_mcp/oauth/store.py:749-796 | Looking twice and updating under the repeated conditions commits what one atomic find-and-revoke specifies. |
| `OAuthTables.CurrentIsUnique` | src/m365_mcp/oauth/store.py:335-351 | The unique handle hash makes the selecting query a function: any matching row is the answer. |
| `OAuthTables.PendingIsUnique` | src/m365_mcp/oauth/store.py:303-317 | The unique state hash makes the consumed transaction unique. |
| `OAuthTables.ReclaimKeepsSchema` | src/m365_mcp/oauth/store.py:825-852 | The sweep leaves no dangling history row and no duplicate. |
| `OAuthTables.SweepExactly` | src/m365_mcp/oauth/store.py:824-852 | A sweep keeps a transaction while it is pending and a code while it is unspent, until they expire, and a session until it expires or has been revoked for 86 400 s, with its history; it changes no row. |
| `OAuthTables.SwapKeepsSchema` | src/m365_mcp/oauth/store.py:660-720 | Whatever its arguments, the swap keeps primary keys, unique columns and the foreign key. |
| `OAuthTables.RevokeReplayedKeepsSchema` | src/m365_mcp/oauth/store.py:749-796 | So does revocation by replay. |
| `OAuthRefreshSteps.HashMatchMeansUnmoved` | src/m365_mcp/oauth/store.py:681-702 | No ABA: in any reachable world, if the row's hash still is the presented one, then its rotation count and facts are those of the request's snapshot, however long ago that was read. |
| `OAuthRefreshSteps.UnselectedIsSuperseded` | src/m365_mcp/oauth/store.py:620-628 | A handle that selects no live row for its client is unknown, spent, expired, or of a dead session. |
| `OAuthRefreshSteps.UnfoundIsSettled` | src/m365_mcp/oauth/store.py:799-822 | If the replay query finds nothing for such a handle, its session is revoked, gone or expired. |
| `OAuthRefreshSteps.FoundIsHome` | src/m365_mcp/oauth/store.py:799-822 | What the replay query finds is the session that the handle once belonged to, and the asking client's. |
| `OAuthRefreshSteps.SwappedRow` | src/m365_mcp/oauth/store.py:681-702 | The swap advances its row to the next link of its chain, sealed under its own new context, and leaves all other rows alone. |
| `OAuthRefreshSteps.SwapKeepsHistory` | src/m365_mcp/oauth/store.py:703-719 | After a swap the history again holds exactly the spent generations of every stored session. |
| `OAuthRefreshSteps.SwapBelowLimit` | src/m365_mcp/oauth/store.py:660-680 | The limit branch of the swap is never taken by a request that passed the check of its snapshot. |
| `OAuthRefreshSteps.FamilyRevoked` | src/m365_mcp/oauth/sessions.py:255-323 | Revoking the session of the presented handle keeps every invariant and justifies the invalid_grant answer. |
| `OAuthRefreshSteps.SwapStep` | src/m365_mcp/oauth/sessions.py:190-240 | The rotation step keeps every invariant in each of its four results. |
| `OAuthRefreshSteps.RevokeStep` | src/m365_mcp/oauth/sessions.py:255-292 | The revocation step keeps every invariant; when the handle has moved, the request goes on to the history. |
| `OAuthRefreshSteps.CommitStep` | src/m365_mcp/oauth/store.py:768-796 | The second look and the revocation by replay keep every invariant. |
| `OAuthRefreshSteps.ReadingStep` | src/m365_mcp/oauth/sessions.py:105-188 | Lookup, upstream call, first replay look and every store failure write nothing and leave the request in order. |
| `OAuthGrantSteps.AuthorizeStep` | src/m365_mcp/oauth/authorization.py:95-139 | Beginning and storing a transaction keeps every invariant. |
| `OAuthGrantSteps.TransactionTaken` | src/m365_mcp/oauth/authorization.py:148-192 | Consuming a transaction binds it to this request for good, with its flow opening under its own context. |
| `OAuthGrantSteps.CompleteStep` | src/m365_mcp/oauth/authorization.py:148-266 | Every step of the upstream callback keeps every invariant; a stored code carries the terms of its transaction. |
| `OAuthGrantSteps.CodeTaken` | src/m365_mcp/oauth/authorization.py:276-291 | Redeeming a code binds it to this request for good. |
| `OAuthGrantSteps.NewSessionStands` | src/m365_mcp/oauth/sessions.py:54-94 | A new session row starts a chain of its own, sealed as itself, with the facts of its code, among rows that only the sweep changes. |
| `OAuthGrantSteps.ExchangeStep` | src/m365_mcp/oauth/authorization.py:276-338 | Every step of a token exchange keeps every invariant. |
| `OAuthSteps.ReclaimKeepsTables` | src/m365_mcp/oauth/store.py:824-852 | The sweep keeps the tables in step with all that has happened, and revives no session. |
| `OAuthSteps.SessionRetired` | src/m365_mcp/oauth/store.py:722-747 | A retired row keeps its place, its chain and its history, and its session is dead. |
| `OAuthInvariant.ProcIsStable` | src/m365_mcp/oauth/sessions.py:96-253 | What a waiting request relies on survives every step of every other request. |
| `OAuthTheorems.RefusedAtDoorIsSettled` | src/m365_mcp/oauth/authorization.py:340-375 | A refresh refused before the lookup as invalid_grant cannot have presented a live handle of its client. |
| `OAuthTheorems.StepKeepsInv` | src/m365_mcp/oauth/sessions.py:96-253 | Every event (arrivals, steps of any request, clock ticks, registrations, sweeps at start) keeps the invariant of the whole system. |
| `OAuthTheorems.EveryRunIsSafe` | src/m365_mcp/oauth/sessions.py:96-253 | The invariant holds in every world of every run, for any number of interleaved authorize, complete, exchange and refresh requests. |
| `OAuthGuarantees.HandleRotatedAtMostOnce` | src/m365_mcp/oauth/store.py:630-720 | In every reachable world, two requests that rotated the same handle are one request. |
| `OAuthGuarantees.HistoryIsExact` | src/m365_mcp/oauth/store.py:703-719 | The history rows of a stored session are exactly its once-current handles, one for each rotation, and at most the configured maximum. |
| `OAuthGuarantees.ReplayRevokesSuccessor` | src/m365_mcp/oauth/store.py:749-822 | Replaying a handle of any past generation of a live, unexpired session revokes the current successor and changes nothing else. |
| `OAuthGuarantees.CachesOpenUnderTheirRows` | src/m365_mcp/oauth/sessions.py:145-156 | Every stored cache opens under its row's own context, so a lookup ends in revocation only at the rotation limit. |
| `OAuthGuarantees.SwapSealsTheActualSuccessor` | src/m365_mcp/oauth/sessions.py:190-211 | A blob sealed for the successor that a stale snapshot predicts opens under the row that the swap makes, and the swap never meets the limit. |
| `OAuthGuarantees.RefreshOutcomes` | src/m365_mcp/oauth/sessions.py:96-253 | A refresh succeeds exactly when it made one rotation, of the handle it presented; invalid_grant means that no live, unexpired session of its client has the handle; any other refusal means no session write. |
| `OAuthGuarantees.ForeignHandleIsHarmless` | src/m365_mcp/oauth/store.py:611-628 | A handle presented by another client leads to no session write at all. |
| `OAuthGuarantees.SessionWritesAreDeeds` | src/m365_mcp/oauth/store.py:660-796 | A stored session row changes only by one refresh request, once: from a live row to its successor, or to the same row revoked. |
| `OAuthGuarantees.DeadStepStaysDead` | src/m365_mcp/oauth/store.py:660-747 | No event revives a revoked or deleted session or adds a handle to its family. |
| `OAuthGuarantees.DeadFamiliesStayDead` | src/m365_mcp/oauth/sessions.py:202-240 | So over a whole run: once dead, no handle of the family is rotated again. |
| `OAuthGuarantees.LoserKillsTheFamily` | src/m365_mcp/oauth/sessions.py:202-292 | A request that saw its session live and was then refused with invalid_grant, because it lost the swap or by its own revocation, leaves the session revoked or gone for the rest of the run. |
| `OAuthProvenance.CodeHasAuthor` | src/m365_mcp/oauth/authorization.py:106-139 | Every code goes back to one started authorize request, with that request's terms. |
| `OAuthProvenance.RedirectsAreRegistered` | src/m365_mcp/oauth/authorization.py:85-93 | In every reachable world, every authorize request that was not refused, every transaction and every code is for a redirect that its client has registered. |
| `OAuthProvenance.GrantTracesToAuthorize` | src/m365_mcp/oauth/authorization.py:268-338 | Every granted exchange spent its own code, which goes back to an authorize request with the same client and redirect, registered for that client, this server's scopes and resource, and a challenge equal to the hash of the presented verifier. |
| `OAuthProvenance.OneCodePerAuthorize` | src/m365_mcp/oauth/store.py:476-503 | Each authorize request leads to at most one code, |
| `OAuthProvenance.OneGrantPerAuthorize` | src/m365_mcp/oauth/store.py:539-578 | to at most one granted exchange, |
| `OAuthProvenance.OneSessionPerCode` | src/m365_mcp/oauth/sessions.py:54-94 | and each code to at most one session. |
| `OAuthProvenance.SessionsKeepTheirGrant` | src/m365_mcp/oauth/store.py:681-702 | Through every rotation a session keeps the client, owner, scope and resource of its grant. |
| `OAuthProvenance.WrongAttemptsSpareTheCode` | src/m365_mcp/oauth/store.py:539-578 | A code is spent if and only if client, redirect, verifier and time are right and it is unspent; any other attempt changes nothing. |
| `OAuthProvenance.FreshValuesNeverCollide` | src/m365_mcp/oauth/store.py:444-609 | With fresh draws no insert violates a key or a unique column. |
| `OAuthProvenance.SwapNeverFails` | src/m365_mcp/oauth/store.py:681-719 | With fresh draws a swap ends in rotation or conflict, never in a constraint violation or at the limit. |
| `OAuthProvenance.CurrentHandlesAreUnspent` | src/m365_mcp/oauth/store.py:703-718 | In every reachable world no current handle is in the history, so the results on reclamation apply to it. |
| `OAuthDoors.AuthorizeStartsExactly` | src/m365_mcp/oauth/authorization.py:64-93 | In every run, an authorize request starts if and only if the response type is code, the challenge method S256, the challenge well-formed, scope and resource are the served ones, and the redirect is registered for the client; else it is refused, for a fault that it has, for good, and never makes a transaction. |
| `OAuthDoors.ExchangeStartsExactly` | src/m365_mcp/oauth/authorization.py:268-275 | An exchange goes on to spend a code if and only if it is for this resource and its verifier is well-formed; else it is refused for that, for good. |
| `OAuthDoors.RefreshStartsExactly` | src/m365_mcp/oauth/authorization.py:340-375 | A refresh is looked up if and only if it is for this resource, by a registered client with the refresh grant, with a well-formed handle; else it is refused, for a fault that it has, for good, and writes nothing. |
| `OAuthHistory.TransactionHistory` | src/m365_mcp/oauth/authorization.py:64-139 | Every transaction goes back to an authorize request with its terms and client state and to the flow that upstream began for it, sealed under the row's own context; it lasts its configured time from then. |
| `OAuthHistory.CodeHistory` | src/m365_mcp/oauth/authorization.py:141-266 | Every code was issued by a callback that was not denied: it took the pending, unexpired transaction of its state; upstream then identified the code's owner; the code seals that reply's access token, its expiry and its cache, lasts its configured time, and was sent to the redirect of the authorize request with that request's state. |
| `OAuthHistory.GrantHistory` | src/m365_mcp/oauth/authorization.py:268-338 | Every granted access token is the one that upstream issued to the callback of the spent code, for what is left of its lifetime, which is more than nothing. A handle comes with it if and only if the client has the refresh grant; its session is the owner's whom upstream identified, lasts its configured time from the exchange, and seals the cache of that same reply. |
| `OAuthHistory.GrantingExactly` | src/m365_mcp/oauth/authorization.py:292-338 | An exchange that has spent its code is refused if and only if the access token has expired; otherwise it is granted that token, with a handle to come if and only if its client has the refresh grant. |
| `OAuthHistory.DeniedExactly` | src/m365_mcp/oauth/authorization.py:148-169 | A callback for a pending transaction completes it; denied upstream, it is refused for good and no code ever comes of it; not denied, it goes on. |
| `OAuthHistory.UnidentifiedGetsNoCode` | src/m365_mcp/oauth/authorization.py:191-212 | If upstream identifies nobody, the callback fails for good and no code ever comes of it. |
| `OAuthIdentity.RotationWasConfirmed` | src/m365_mcp/oauth/sessions.py:96-253 | Every rotation goes back to a lookup that selected a live row of this client and server below the limit, to an upstream call with the cache that this row had sealed, and to a reply that identified this row's own owner; the client got that reply's token, and the successor seals that reply's cache. |
| `OAuthIdentity.DenialKillsTheFamily` | src/m365_mcp/oauth/sessions.py:158-188 | If upstream refuses the session or identifies anyone but its owner, the request never rotates; unless the store fails it, it ends in invalid_grant, and then the session is revoked or gone for the rest of the run. |
| `OAuthIdentity.TroubleIsUnavailable` | src/m365_mcp/oauth/sessions.py:164-179 | If upstream cannot be reached or its token not be verified, the request ends as unavailable and writes nothing. |
| `OAuthRefusals.RefreshRefusalHasCause` | src/m365_mcp/oauth/sessions.py:96-253 | Every refused refresh had a fault at its arrival, met a store failure, got no usable answer from upstream, asked for another scope than its live session has, or was refused invalid_grant after looking at the history or revoking. |
| `OAuthRefusals.RevocationHasCause` | src/m365_mcp/oauth/sessions.py:123-240 | A refresh revokes a session only if it presented a handle that has a successor, or selected a row at the rotation limit, or upstream refused the session or identified someone else. |
| `OAuthRefusals.AuthorizeRefusalHasCause` | src/m365_mcp/oauth/authorization.py:64-139 | Every refused authorize request had that fault at its arrival, or upstream began no flow, or the store failed. |
| `OAuthRefusals.CompleteRefusalHasCause` | src/m365_mcp/oauth/authorization.py:141-266 | Every refused callback had no state, no pending transaction of its state, was denied, was not identified upstream, or met a store failure. |
| `OAuthRefusals.ExchangeRefusalHasCause` | src/m365_mcp/oauth/authorization.py:268-338 | Every refused exchange had that fault at its arrival, met a store failure, found no unspent, unexpired code for its client, redirect and verifier, or an expired access token. |
| `OAuthReplay.ReplayIsAtomic` | src/m365_mcp/oauth/store.py:749-796 | In every run, from the start of a replay revocation to its answer, if no store error ends it, exactly one of its steps acts on the tables, and does what one find-and-revoke does at that moment, deed included; all its other steps leave the tables alone. |
| `OAuthReplay.LooksFindOneSession` | src/m365_mcp/oauth/store.py:799-822 | In every run, any two looks of a request that find a session find the same one with the same facts, whatever came in between. |
| `OAuthReclaim.EmptyIsSound` | src/m365_mcp/oauth/store.py:283-397 | Two empty stores are in the relation that the results below start from. |
| `OAuthReclaim.OperationsExactly` | src/m365_mcp/oauth/store.py:396-822 | For every operation, the sweep at start included, and whatever its clock: it is answered alike with and without reclamation if and only if the row it acts on expires after every sweep since that row was stored; and the relation between the stores is kept. |
| `OAuthReclaim.ReclamationExactly` | src/m365_mcp/oauth/store.py:824-852 | The same at every place of every sequence of operations with fresh identifiers, with clocks that may go back. |
| `OAuthReclaim.OneSweepExactly` | src/m365_mcp/oauth/store.py:824-852 | On tables and on the same tables swept once, any operation is answered alike if and only if the row it acts on expires after the sweep. |
| `OAuthReclaim.ReclamationIsInvisible` | src/m365_mcp/oauth/store.py:824-852 | With clocks that do not go back, the answers agree at every place but those of revocations by current handle. |
| `OAuthReclaim.RevocationAnswersDiffer` | src/m365_mcp/oauth/store.py:722-747 | A revocation's answer differs if and only if it revokes a row that had expired by a sweep since it was stored. |
| `OAuthReclaim.WaitingRefreshConflicts` | src/m365_mcp/oauth/sessions.py:105-227 | For every session that expires between the reading of a refresh and the sweep of another request: the lookup agrees, the swap rotates without reclamation and conflicts with it. |
| `OAuthServices.OAuthSessionService.RevokeReplayedSession` | src/m365_mcp/oauth/sessions.py:294-323 | Statement by statement, the call leaves tables and answer as the replay stages of the protocol do. |
| `OAuthServices.OAuthSessionService.Revoke` | src/m365_mcp/oauth/sessions.py:255-292 | Revokes by current handle, and falls through to revocation by history when the handle has moved, as the protocol's stages do. |
| `OAuthServices.OAuthSessionService.Refresh` | src/m365_mcp/oauth/sessions.py:96-253 | The whole uninterrupted call is the protocol's stages one after another, in every branch. |
| `OAuthServices.OAuthSessionService.Issue` | src/m365_mcp/oauth/sessions.py:54-94 | Stores one session with the code's facts, sealed under its own context, and returns its handle; nothing is stored without a cache or on a store error. |
| `OAuthServices.OAuthAuthorizationService.Authorize` | src/m365_mcp/oauth/authorization.py:64-139 | Checks in the code's order and the storing of the transaction agree with the arrival and the stages of the protocol. |
| `OAuthServices.OAuthAuthorizationService.Complete` | src/m365_mcp/oauth/authorization.py:141-266 | The callback, from the state to the stored code, agrees with the stages of the protocol. |
| `OAuthServices.OAuthAuthorizationService.Exchange` | src/m365_mcp/oauth/authorization.py:268-338 | The exchange, from the checks to the issued session, agrees with the stages of the protocol. |
| `OAuthServices.OAuthAuthorizationService.Refresh` | src/m365_mcp/oauth/authorization.py:340-375 | The checks before the session service's refresh agree with the arrival of the protocol. |
| `OAuthServices.MovedIsNext` | src/m365_mcp/oauth/sessions.py:96-253 | A step depends on nothing of the world but tables, clients and clock, and a finished request stays finished. |
| `OAuthServices.AloneIsFinish` | src/m365_mcp/oauth/sessions.py:96-253 | The steps of one process in a row, inside any world, do what the uninterrupted call does. |
| `OAuthServices.RefreshIgnoresSurroundings` | src/m365_mcp/oauth/sessions.py:96-253 | For a refresh request that holds whatever the clients and the clock around it. |
| `OAuthServices.AloneContinuesRun` | src/m365_mcp/oauth/sessions.py:96-253 | With allowed fates, the steps of one process in a row continue any run to another run. |
| `OAuthProgress.LiveSwapRotates` | src/m365_mcp/oauth/store.py:681-720 | In every reachable world, the swap of a live row below the limit to a fresh handle succeeds. |
| `OAuthProgress.NextHandleIsCurrent` | src/m365_mcp/oauth/store.py:681-720 | The rotated row survives its own sweep, and the next handle selects it. |
| `OAuthProgress.HonestRefreshSucceeds` | src/m365_mcp/oauth/sessions.py:96-253 | Every run in which a refresh of the right client has arrived, with the current handle of an unexpired session below the limit, can be continued by three steps of it, upstream confirming the owner, to a world where it got upstream's token and the next handle, and that handle is the current one. |
| `OAuthProgress.HonestExchangeSucceeds` | src/m365_mcp/oauth/authorization.py:268-338 | Every run in which an exchange has arrived, of a registered client that may refresh, with its unspent, unexpired code, redirect and verifier, while the access token lasts, can be continued by three steps of it to a world where it was granted the code's access token and a handle. |
| `OAuthProgress.HonestAuthorizeSucceeds` | src/m365_mcp/oauth/authorization.py:95-139 | Every run in which an authorize request has started can be continued by two steps of it, upstream beginning a flow, to a world where it was sent on and its transaction is stored. |
| `OAuthProgress.HonestCallbackSucceeds` | src/m365_mcp/oauth/authorization.py:141-266 | Every run in which a callback has arrived, not denied, with the state of a pending, unexpired transaction, can be continued by three steps of it, upstream identifying someone, to a world where it redirects with an unspent code for that owner. |
| `Downloads.AttachmentDownloadStore.PruneExpired` | src/m365_mcp/mail/downloads.py:153-158 | Pruning from the front only drops exactly all expired entries. |
| `Downloads.AttachmentDownloadStore.EvictFor` | src/m365_mcp/mail/downloads.py:104-108 | The eviction loop ends with room for the newcomer, having dropped the shortest oldest-first prefix that makes it. |
| `Downloads.AttachmentDownloadStore.Allocate` | src/m365_mcp/mail/downloads.py:110-118 | Takes the first unused of five draws, stops at a malformed one, and fails if all are in use. |
| `Downloads.AttachmentDownloadStore.Issue` | src/m365_mcp/mail/downloads.py:95-125 | Either the payload is too large and nothing happens, or exactly the expired and the shortest oldest prefix go and, unless no token could be allocated, the payload is retained last; the plain map of tickets loses exactly those and gains exactly the new one; order, byte total and both limits hold in each case. |
| `Downloads.AttachmentDownloadStore.Consume` | src/m365_mcp/mail/downloads.py:127-141 | Refines the plain map of live tickets: a ticket is redeemed if and only if it is live, with the payload it was last issued for, and is gone afterwards; each issue is redeemed at most once. The expiry test after the pop is never true. |
| `Downloads.AttachmentDownloadStore.Clear` | src/m365_mcp/mail/downloads.py:82-93 | Releases every retained byte. |
| `Downloads.UnexpiredIsSuffix` | src/m365_mcp/mail/downloads.py:153-158 | If the expired entries come first, dropping them is dropping a prefix. |
| `Downloads.UnexpiredAsMap` | src/m365_mcp/mail/downloads.py:153-158 | On the plain map, pruning removes exactly the expired tickets. |
| `Downloads.EvictionTakesTheOldest` | src/m365_mcp/mail/downloads.py:104-108 | Eviction never takes a ticket that expires after one that is kept, and kept tickets stay as they were. |
| `Downloads.RemovalKeepsOrder` | src/m365_mcp/mail/downloads.py:135-138 | Removal from the middle keeps the order of expiry and the distinct keys, |
| `Downloads.RemovalBytes` | src/m365_mcp/mail/downloads.py:135-138 | takes exactly the removed bytes off the total, |
| `Downloads.RemovalAsMap` | src/m365_mcp/mail/downloads.py:135-138 | and removes exactly one ticket of the plain map. |
| `Downloads.FirstFreeDrawDecides` | src/m365_mcp/mail/downloads.py:110-118 | The first draw that is not a token in use decides: well-formed, it is issued, malformed, it ends the allocation; if all draws are in use there is no token. |
| `Downloads.RedemptionAccounted` | src/m365_mcp/mail/downloads.py:127-141 | A redemption uses up one issue of its token, so that token is not redeemed more often than it was issued. |
| `Uploads.AttachmentUploadStore.Issue` | src/m365_mcp/mail/uploads.py:112-130 | Refused exactly for unacceptable metadata or, after pruning, for lack of room; otherwise staged for its owner; total and limits hold. |
| `Uploads.AttachmentUploadStore.IssuePushGrant` | src/m365_mcp/mail/uploads.py:132-164 | Refused exactly for what cannot be granted or, after pruning, at the grant limit; otherwise the grant fixes user, draft, name, type, size and digest. |
| `Uploads.AttachmentUploadStore.PushGrantSize` | src/m365_mcp/mail/uploads.py:166-172 | Tells the size of a live grant and of nothing else, and removes nothing but what has expired. |
| `Uploads.AttachmentUploadStore.CompletePushGrant` | src/m365_mcp/mail/uploads.py:174-196 | Turns a live grant into a staged entry exactly when the content has its size and digest and there is room, never a second time; wrong content or a full store leave the grant usable. |
| `Uploads.AttachmentUploadStore.Consume` | src/m365_mcp/mail/uploads.py:198-215 | Hands an entry out exactly to its owner and for its draft, never a second time; what came through a push handle has the owner, draft, name, type, size and digest that the grant fixed; any other attempt leaves the entry. |
| `Uploads.AttachmentUploadStore.Prune` | src/m365_mcp/mail/uploads.py:232-240 | Removes exactly the expired entries and grants and keeps the byte total exact. |
| `Uploads.AttachmentUploadStore.Clear` | src/m365_mcp/mail/uploads.py:217-221 | Drops entries, grants and the total together. |
| `Uploads.BytesWithout` | src/m365_mcp/mail/uploads.py:232-237 | The byte total of a dictionary loses exactly the removed entry's length, whichever entry goes first. |
| `ReleaseNotes.OverwriteLaw` | scripts/render_windows_release_hashes.py:39-63 | For accepted notes, rendering over rendered notes is rendering over the notes themselves if no value of the first rendering contains a marker; with a marker among them, every later rendering is refused. |
| `ReleaseNotes.RenderingIsIdempotent` | scripts/render_windows_release_hashes.py:39-63 | Rendering twice with the same values is rendering once if and only if no value contains a marker. |
| `ReleaseNotes.OneSectionIsLeft` | scripts/render_windows_release_hashes.py:39-63 | The result has exactly one start and one end marker, and the text around the section is that of the notes. |
| `ReleaseNotes.AcceptedExactly` | scripts/render_windows_release_hashes.py:57-63 | Notes are accepted if and only if they hold no marker, or one of each with the start marker first; what precedes the section is kept up to trailing white space, what follows it as it is. |
| `ReleaseNotes.BodyContains` | scripts/render_windows_release_hashes.py:40-56 | The body holds a marker if and only if one of the inserted values does: the fixed text helps to form none. |
| `ReleaseNotes.SectionShape` | scripts/render_windows_release_hashes.py:40-56 | The section is its body between the markers, each on a line of its own. |
| `ReleaseNotes.EveryValueIsShown` | scripts/render_windows_release_hashes.py:40-56 | The section names the release and the asset, and has a table row for every digest, in order. |
| `ReleaseNotes.DividedIsFree` | scripts/render_windows_release_hashes.py:57-63 | Accepted notes have no marker in the text before and the text after the section. |
| `ReleaseNotes.LaidIsDivided` | scripts/render_windows_release_hashes.py:57-62 | With a marker-free body the section is found again and nothing else is. |
| `ReleaseNotes.MarkedBodyIsRefused` | scripts/render_windows_release_hashes.py:57-58 | A body with a marker in it makes the counts of the rendered notes malformed. |
| `ReleaseNotes.Separated` | scripts/render_windows_release_hashes.py:11-12 | No marker arises across a line break or a bar. |
| `ReleaseNotes.OtherMarker` | scripts/render_windows_release_hashes.py:11-12 | The two markers do not overlap. |
| `GraphRetry.Request` | src/m365_mcp/graph/client.py:82-119 | Sends stop at the first reply not worth a retry, with that reply's verdict; one sleep between any two sends, within the cap: what a number or date in Retry-After asks, but not less than nothing, and otherwise the doubling backoff cut off at the cap; a Retry-After over the cap on a retryable status ends the request in that reply's error; other requests than GET, HEAD and OPTIONS are sent again only after a 429; at most one send more than the retries, and the final raise is unreachable; success if and only if some attempt within the limit succeeds after replies all worth retrying. |
| `GraphRetry.RunIsUnique` | src/m365_mcp/graph/client.py:82-119 | The replies determine sends, sleeps and outcome, so the description above is complete. |
| `GraphRetry.TotalSleepIsBounded` | src/m365_mcp/graph/client.py:82-108 | Total sleep is at most the retries times the cap. |
| `GraphRetry.BackoffTotal` | src/m365_mcp/graph/client.py:210-212 | Without a usable Retry-After the total is at most what one further doubling of the backoff would have added, and exactly that if the cap shortens no wait. |
| `ChunkUpload.UploadChunk` | src/m365_mcp/graph/client.py:121-163 | The guard refuses exactly an empty chunk and a range outside the total; otherwise the Content-Range names the chunk's bytes. |
| `ChunkUpload.UploadChunks` | src/m365_mcp/graph/mail.py:254-262 | Sends the next range after each accepted one until a reply is not accepted or all is sent; the guard never fires. |
| `ChunkUpload.AddDraftAttachment` | src/m365_mcp/graph/mail.py:204-262 | One direct request below the limit, ranges above it, and neither for a bad size, a message that is no draft, or a session without URL; each Graph request on the way may fail and ends the call. |
| `ChunkUpload.UploadFile` | windows/M365Mcp.Local/LocalGraphClient.cs:262-285 | The loop over one reused buffer in 32-bit arithmetic puts the same ranges, overflows nothing, digests exactly what it sends, and ends as its last reply says. |
| `ChunkUpload.ReadRange` | windows/M365Mcp.Local/LocalGraphClient.cs:264-273 | The buffer's used part is the next range of the file, though the buffer still holds older bytes. |
| `ChunkUpload.RangesTile` | src/m365_mcp/graph/mail.py:254-258 | The ranges are contiguous from the first byte, non-empty, at most one chunk long, and concatenate to the content sent. |
| `ChunkUpload.AttachedExactly` | src/m365_mcp/graph/mail.py:259-262 | The upload succeeds if and only if every range but the last was answered with 200 and the last with 201; then the ranges concatenate to the content. |
| `ChunkUpload.SameRanges` | windows/M365Mcp.Local/LocalGraphClient.cs:264-284 | Given the same content and replies, the two programs put the same ranges. |
| `OidcCache.OidcDocumentProvider.LoadConfiguration` | src/m365_mcp/auth/oidc.py:60-66 | The step of an unforced call on the metadata: fetches exactly when it is missing or past its lifetime, and a failed fetch keeps the cache and is reported; what is served is what is cached from then on. |
| `OidcCache.OidcDocumentProvider.LoadKeys` | src/m365_mcp/auth/oidc.py:78-88 | Fetches exactly when the cached keys are stale or a forced refresh is allowed; a forced attempt is recorded even if its fetch fails; what was fetched is cached, what is served is what is cached from then on, and a fetch that brings nothing is reported. |
| `OidcCache.OidcDocumentProvider.SigningKeys` | src/m365_mcp/auth/oidc.py:68-88 | Serves fresh keys unforced; stops at metadata that cannot be had or name no URL; else acts as the locked part. What is served is newly fetched, or was cached and within its lifetime when looked at. |
| `OidcCache.ServedIsFresh` | src/m365_mcp/auth/oidc.py:60-66 | What a locked section serves was just fetched or is younger than the lifetime; a failed fetch is reported and keeps what was stored. |
| `OidcCache.CachedKeysAreFresh` | src/m365_mcp/auth/oidc.py:79-82 | An answer without a fetch is the cached document within its lifetime, and then a forced refresh was less than 60 s ago. |
| `OidcCache.MetadataBound` | src/m365_mcp/auth/oidc.py:56-66 | While fetches succeed, a window of length T holds at most floor(T/ttl) + 1 metadata fetches. |
| `OidcCache.LimiterFailsExactly` | src/m365_mcp/auth/oidc.py:79-86 | In every run, failing fetches included: a forced call less than 60 s after an earlier forced attempt, fresh or stale, fetches all the same if and only if no fetch within the last lifetime brought keys. |
| `OidcCache.FetchesExactly` | src/m365_mcp/auth/oidc.py:78-86 | In every run, a call fetches if and only if no fetch within the last lifetime brought keys, or it forces a refresh and every earlier attempt at one began at least 60 s before. |
| `OidcCache.ServesTheNewest` | src/m365_mcp/auth/oidc.py:78-88 | In every run, a call is unavailable if and only if it fetches and that brings nothing; otherwise it serves the newest keys that any call has brought, its own fetch included. |
| `OidcCache.StaleExactly` | src/m365_mcp/auth/oidc.py:96-100 | In every run, keys are stale if and only if no fetch within the last lifetime brought any. |
| `OidcCache.CloseAttemptMetStaleKeys` | src/m365_mcp/auth/oidc.py:79-86 | A forced attempt that begins less than 60 s after any earlier one met stale keys. |
| `OidcCache.ForcedAttemptsAreSpaced` | src/m365_mcp/auth/oidc.py:79-85 | A forced attempt that met fresh keys begins at least 60 s after every earlier attempt, fresh or stale, whether fetches bring anything or not. |
| `OidcCache.ExpiryBetweenLooks` | src/m365_mcp/auth/validator.py:81-92 | The validator's unforced look first does not help: any number of validators served the same fresh keys shortly before their expiry all fetch at the instant of the expiry, while fetches fail. |
| `OidcCache.OutageIsUnlimited` | src/m365_mcp/auth/oidc.py:80-86 | With nothing cached, any number of forced refreshes fetch at the same instant. |
| `OidcCache.StaleFetchesAreSpaced` | src/m365_mcp/auth/oidc.py:80-88 | While fetches succeed, fetches of stale keys begin at least one lifetime apart. |
| `OidcCache.WindowBound` | src/m365_mcp/auth/oidc.py:68-88 | While fetches succeed, a window of length T holds at most floor(T/60) + floor(T/ttl) + 2 key fetches, whatever the requests. |
| `OidcCache.ForcedBound` | src/m365_mcp/auth/oidc.py:79-85 | Forced fetches of fresh keys keep to floor(T/60) + 1 even if every fetch fails. |

## Left out

- Scopes are sets: splitting and joining scope text is left out, and so are the texts of redirects and error pages.
- A client lookup that fails is one flag of the request, and an upstream sign-in address that fails validation counts as
  upstream being unavailable.
- Sealing never fails in the model; the branches that answer unavailable or server_error when it does are left out.
- Client registration, its table and its validation: single-table inserts without interplay.
- Schema migration, busy timeouts and indexes of the database; edits of the database from outside.
- Cancellation of a request and crashes in its middle.
- Audit logging, HTTP routing, middleware and tool registration.
- MSAL, JWT validation and Microsoft Graph are free choices of the environment.
- Downloads.AttachmentDownloadStore.Consume: tokens are matched by injective digests, so collisions are not modelled.
- Uploads: the hexadecimal text of a declared digest is a constructor, with letter case already folded.
- GraphRetry.Request: URL and header checks, token acquisition and body parsing are left out; a Retry-After header is
  given by what it parses to, a date by how far ahead of the clock it lies; floating-point rounding is not modelled.
- ChunkUpload.AddDraftAttachment: the three Graph requests are answered by parameters; errors of those
  requests are told apart no further. The check of the upload address is left out.
- ChunkUpload.UploadFile: the same preliminaries of the Windows program are left out; the file does not change while it
  is read.
- OidcCache.OidcDocumentProvider.SigningKeys: states the uninterrupted call; interleaved calls are covered by the runs
  over locked sections, which is where the state changes. HTTP fetching is the parameter `fetched`.
- The document extractors, the worker process and the rest of the Windows program.
- Settings validation and the single-branch checks of recipients, subjects and dates: they would only add easy members.
