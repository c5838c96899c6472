# LabSSO: a model of its grant, revocation and desired-state logic

LabSSO is a lab identity provider. Browsers and clients talk to a data plane (OIDC, SAML and WS-Federation handlers that
share one in-memory `Runtime`); operators talk to a control plane (plan, apply, typed mutations and reset over one
desired-state document). A data-plane request captures one immutable snapshot and then works as a sequence of atomic
`Runtime` actions. A mutation compiles a candidate, revokes, syncs the TOTP ledger and swaps the active pointer, in
separate steps, with requests running in between.

`dafny verify dfyconfig.toml` checks the whole project.

## How the project is laid out

| file | what it holds |
|---|---|
| `Basics.dfy`, `Words.dfy` | options and results, Go's string helpers and what they return, deletion loops over maps |
| `Documents.dfy`, `Snapshots.dfy`, `CompilerLaws.dfy` | the document, its defaults and validation loops; the compiler's index construction, the security comparison; when compilation succeeds and which value goes where |
| `RuntimeState.dfy`, `Runtime.dfy`, `RuntimeLaws.dfy` | every `Runtime` action as a function on values, the object whose methods implement them with the source's loops, and what each action does row by row |
| `Access.dfy`, `Totp.dfy` | the read-only predicates of the handlers; the TOTP window search |
| `System.dfy`, `HandlerLaws.dfy` | the transition system: requests, the mutator's phases, one event per atomic action; exactly when each handler step goes on and what it stores |
| `Revocation.dfy`, `Handlers.dfy`, `Bounds.dfy`, `TotpLedger.dfy`, `Lineage.dfy`, `Linearity.dfy`, `Protocol.dfy` | the inductive invariant, event by event |
| `Theorems.dfy`, `Redemption.dfy`, `StaleRequests.dfy`, `AccessTokens.dfy`, `Presentations.dfy` | what the invariant means: the protocol's main results, what requests can take out of the tables, how long access tokens live, and what must be presented for them |
| `Operations.dfy`, `Idempotency.dfy`, `Engine.dfy`, `DesiredState.dfy`, `Retries.dfy`, `Drift.dfy`, `EngineLaws.dfy`, `Application.dfy`, `Mutations.dfy` | operation lists, the idempotency cache, the calls of the desired-state engine, their laws over call sequences, the application object, and the agreement of engine and transition system |
| `Witnesses.dfy`, `FirstSteps.dfy`, `LeftBehind.dfy`, `LoginRuns.dfy` | concrete documents and runs that show where the code surprises |
| `Limiter.dfy`, `Pages.dfy`, `Scrub.dfy` | rate limiter, cursor pagination, import scrubber |

## Modelling decisions

- Time is a nondecreasing integer of nanoseconds; one call reads the clock once. `randomID` yields identifiers that were not used before and that no request in flight has guessed.
- A revision, fingerprint or cursor digest is the value it digests, so equal digests mean equal contents. A scoped idempotency key is the tuple it encodes.
- File contents, URL and host syntax, key parsing, JSON and YAML decoding and `hotp` are arbitrary (partial) functions passed in as data.
- Password checks, signatures and the tunables (pause, force-fail, inject, force-consent) are free choices of an event: the protocol results hold whatever they answer. A request may stop at any point.
- History variables (who was born from whom, answers sent, accepted TOTP steps, access tokens minted) exist only in the transition system's state, to state the results; no handler reads them.
- The boot snapshot is installed once with generation 1, before any request or call (cmd/labsso/serve.go:59).

## Where the code does not do what one would expect

- A WS-Fed realm that resolves to a client by its bare `id` (no `clientId`, no matching entity id) is accepted and stored, but the row is not usable under the snapshot that stored it: `Access.WsFedPendingUsableIff` gives the exact condition, `FirstSteps.BareRealmIsStored` the run that stores it and `FirstSteps.BareRealmWitness` a concrete one. No request whose snapshot is still admitted can take such a row (`StaleRequests.AdmittedRequestsSpareUnusableRows`); in the run of `LeftBehind.BareRowIsDenied` a request left behind denies one, because its older snapshot knows the realm as an entity id.
- The 16 KiB budget of a pending row is checked before the random id is assigned: `RuntimeState.BudgetExcludesId` says exactly when the stored row is still within it, and `FirstSteps.OverBudgetRowIsStored` reaches a state with a stored SAML row over it.
- `SecurityEqual` compares in one direction; with empty secrets it would call different snapshots equal (`Snapshots.EmptySecretsConfuse`). The compiler never produces an empty secret, and then it is equality (`Snapshots.SecurityEqualIsEquality`).
- An idempotency cache of capacity zero keeps rows it can never evict (`Idempotency.CapacityZeroLeaks`); the invariant survives a new key exactly for capacity one and more (`Idempotency.PutKeepsValidIff`). The program uses 256.
- A plan served from the cache can carry an outdated `drifted` flag after a reset that changed the bootstrap document. It equals the recomputed plan if and only if its candidate is both or neither of the bootstrap revisions when it was recorded and when it is served (`Drift.ServedPlanIffSinceBoot`); `Witnesses.StaleDriftIsServed` is a run from boot that is served a wrong flag. Everything else in the plan agrees with recomputation.
- A request whose snapshot fell below `minimumGeneration` can store nothing, but it can still consume a newer code, because `tokenCode` takes the code before anything is checked, and it can deny a newer pending row. `StaleRequests.StaleRequestFootprint` says exactly which codes and live pending rows a step of it removes; `LoginRuns.NewerCodeIsConsumed` and `LeftBehind.NewerRowIsDenied` are runs in which it happens.
- Enrolling a new TOTP secret does not stop a login that has already verified a code of the old one: the enrolment clears the ledger, and the login then records its step and is authenticated with MFA, exactly when its generation is admitted (`LoginRuns.EnrolmentRaceIff`); `LoginRuns.EnrolmentRace` is such a run.
- `writeTokens` keeps a branch that burns a refresh handle whose grant was revoked; no interleaving reaches it (`Theorems.RevokedBranchIsDead`).

## Model

| member | source | states |
|---|---|---|
| `Theorems.AdmissionWindow` | internal/app/mutate.go:56-75 | in every reachable state all snapshots from `minimumGeneration` to the active generation share one security view (users, clients, auth, protocols, vendor, issuer, access and signing config, compiled credentials); generations count swaps from 1; `minimumGeneration` exceeds the active generation only between invalidate and swap, and by exactly one |
| `Theorems.AdmissionNeverLowered` | internal/oidc/runtime.go:461-471 | over any continuation of any run `minimumGeneration` never decreases |
| `Theorems.StoredRowsAreGood` | internal/oidc/provider.go:290-339 | at every reachable moment each session, code and refresh row has an admitted generation and an enabled user of the active snapshot, and each code and refresh row a registered client that allows its scope |
| `Theorems.StoredPendingsAreUsable` | internal/oidc/provider.go:951-978 | a stored pending row satisfies `PendingUsable` against the active snapshot if and only if it is not a WS-Fed row whose realm is a bare client id |
| `Theorems.RevokedBranchIsDead` | internal/oidc/provider.go:462-480 | no request with a usable snapshot reaches the revoked branch of `writeTokens`, and no handle is ever burnt |
| `Theorems.TablesAreBounded` | internal/oidc/runtime.go:95-116 | in every reachable state row keys are row ids, `""` is no pending or session key, pending rows are within their field limits and each table holds at most 4096 rows |
| `Theorems.OneLivePlacePerRequest` | internal/oidc/provider.go:599-614 | for each authorization request, live pending plus code plus refresh handle plus requests that took one plus answers sent is at most one, under any concurrency |
| `Theorems.AnsweredOnce` | internal/saml/provider.go:220-240 | a pending row yields at most one returned response, assertion or denial |
| `Theorems.RefreshNeverOutgrowsItsOrigin` | internal/oidc/provider.go:397-421 | along the chain pending, code, refresh, refresh and so on the client is constant, the scope never grows, and from the code on user and MFA flag are constant, for any number of rotations |
| `Theorems.LedgerMentionsActiveUsers` | internal/app/mfa.go:128-164 | at every interleaving point the TOTP ledger and overlay mention only users of the active snapshot, and the active snapshot gives the user of each entry the secret reference and compiled seed of the snapshot it was recorded under (enrolled overlay secrets are not part of this) |
| `Theorems.OldSeedRecordsNothing` | internal/oidc/runtime.go:360-377 | once a swap changed or removed a user's seed, a login that holds an older snapshot can put no ledger entry back |
| `Theorems.AcceptedStepsIncrease` | internal/oidc/runtime.go:362-377 | between ledger clears for a user, accepted steps strictly increase over the whole run although verification runs outside the lock, and each is within one of its submission's step |
| `Protocol.RunKeepsInv` | internal/app/mutate.go:37-77 | the protocol invariant holds after every run of interleaved request, mutator and operator steps from boot |
| `Redemption.RedemptionIsAtomic` | internal/oidc/provider.go:462-536 | a redemption changes the runtime only in the one step that replaces its own unexpired handle by exactly one new row under a usable generation; every other exit leaves everything as it was |
| `Redemption.RefreshLossHasAReason` | internal/oidc/runtime.go:186-216 | in every reachable state a live, unexpired refresh handle disappears only by logout of its user, by a revoking mutation, or by its own rotation |
| `Presentations.EveryIssueWasPresented` | internal/oidc/provider.go:376-421 | in every run each refresh handle ever stored and each access token ever minted goes back to a presentation noted when it was made: the code's own client, its registered redirect URI, a verifier digest equal to the code's challenge, not after the code's expiry; or the handle's own client, not after its expiry, for no more than its scope. The chain of the new handle is the presented chain extended by exactly what was presented for |
| `Presentations.GoodCodeIsRedeemed` | internal/oidc/provider.go:376-395 | such a presentation of a code under an admitted snapshot, with nothing forced and room in the table, ends in a stored handle and an access token with the code's user, client, scope and MFA flag; the code is gone |
| `Presentations.GoodHandleIsRotated` | internal/oidc/provider.go:397-421 | such a presentation of a handle exchanges it for one that lives a day, with the requested scope, or the old scope if none was requested; nothing else changes |
| `HandlerLaws.MintedIff` | internal/oidc/provider.go:462-482 | tokens are minted if and only if client, user, scope, MFA, tunable and generation pass; a handle is burnt if and only if its grant is revoked under an admitted snapshot |
| `HandlerLaws.AuthorizationStores` | internal/oidc/provider.go:325-338 | an authorization request is stored if and only if it is within its limits, admitted and there is room, and the row holds everything the browser sent |
| `HandlerLaws.SilentCodeStores` | internal/oidc/provider.go:290-304 | a code without a login page needs a usable session and a client that waived consent; it carries the request's nonce and challenge and lives five minutes |
| `HandlerLaws.LoginCodeStores` | internal/oidc/provider.go:606-614 | the code of a login carries client, redirect, scope, nonce and challenge of its pending row and lives five minutes |
| `HandlerLaws.SamlStores` | internal/saml/provider.go:171-180 | what an AuthnRequest leaves in the table, and when |
| `HandlerLaws.WsFedStores` | internal/wsfed/provider.go:108-132 | what a passive request leaves in the table, and when |
| `HandlerLaws.LoginSessionStores` | internal/loginui/ui.go:110-121 | a session is opened if and only if its generation is admitted and there is room; it lives as configured, an hour by default |
| `HandlerLaws.LoginGoesOnIff` | internal/loginui/ui.go:77-88 | a login goes on if and only if its request is alive and usable, an enabled user has the name, and the password is right |
| `HandlerLaws.SecretChosen` | internal/loginui/ui.go:248-254 | an enrolled secret wins over the compiled seed |
| `HandlerLaws.CodeVerifiedIff` | internal/totp/totp.go:81-94 | a TOTP code is accepted if and only if it is the secret's code of the current step or a neighbour |
| `HandlerLaws.AuthenticatedIff` | internal/oidc/runtime.go:367-376 | a verified code authenticates if and only if its generation is admitted and its step is later than the user's last |
| `HandlerLaws.SessionResumesIff` | internal/loginui/ui.go:139-170 | a session stands in for a login if and only if it is alive, its MFA suffices and its user is enabled |
| `HandlerLaws.CompletionAdmittedIff` | internal/oidc/provider.go:596-598 | a login is completed if and only if user, MFA and generation pass |
| `HandlerLaws.AssertionAdmittedIff` | internal/saml/provider.go:220-240 | an assertion is made if and only if user, MFA and generation pass |
| `HandlerLaws.CompletionReadsIff` | internal/oidc/provider.go:599-602 | completion goes on if and only if its row is alive, usable and an OIDC row |
| `HandlerLaws.AssertionReadsIff` | internal/wsfed/provider.go:170-190 | assertion goes on if and only if its row is alive, usable and a federation row |
| `HandlerLaws.TakeSucceedsIff` | internal/oidc/provider.go:603-605 | taking the row succeeds if and only if it is still there |
| `HandlerLaws.PendingUsableIff` | internal/oidc/provider.go:951-978 | usable, by linear search over the document: the protocol is on, and the row asks for what its client registered |
| `HandlerLaws.QueryOkIff` | internal/oidc/provider.go:225-289 | an authorization request passes if and only if OIDC is on, its client, redirect and scopes are registered, and the mode is not force-fail |
| `HandlerLaws.UserUsableIff` | internal/oidc/provider.go:925-931 | a user is usable if and only if the document lists it and does not disable it |
| `HandlerLaws.FindEnabledIff` | internal/loginui/ui.go:263-273 | a login name finds the first enabled user that has it, and none if there is none |
| `HandlerLaws.ScopesAllowedIff` | internal/oidc/provider.go:932-942 | every word of the scope is one of the five known ones and, if the client lists scopes, one of them |
| `Lineage.ChainNarrows` | internal/oidc/provider.go:943-950 | any later link of a chain allows no more than any earlier one |
| `Access.WsFedPendingUsableIff` | internal/wsfed/provider.go:108-132 | the row that `passive` stores is usable if and only if its realm did not fall back on a bare client id |
| `FirstSteps.BareRealmIsStored` | internal/wsfed/provider.go:108-132 | from any boot with such a realm a run reaches a state that holds the row if and only if it is within the field limits, and the row is not usable under the active snapshot |
| `FirstSteps.BareRealmWitness` | internal/wsfed/provider.go:108-132 | a concrete document and run that stores an unusable row |
| `StaleRequests.TakenRowsWereVetted` | internal/oidc/provider.go:592-641 | in every reachable state a request removes a pending row only after it expired, or by completing or answering it, and then it is usable under the request's own snapshot |
| `StaleRequests.StaleTakesToDeny` | internal/oidc/provider.go:592-614 | a request left behind takes a row that is still there only to deny it: the purge that left it behind removed every row it was admitted to complete |
| `StaleRequests.AdmittedRequestsSpareUnusableRows` | internal/wsfed/provider.go:170-190 | a request whose snapshot is admitted never takes a row that is not usable under the active snapshot |
| `StaleRequests.DenialTakesIff` | internal/loginui/ui.go:198-224 | a denial, by an admitted request or not, takes a live row if and only if it is usable under the request's own snapshot, and otherwise changes nothing |
| `StaleRequests.StaleRequestFootprint` | internal/oidc/provider.go:376-395 | in every reachable state a step of a request below `minimumGeneration` adds no row, leaves refresh handles, ledger and overlay alone and drops only expired sessions; it removes a code if and only if it redeems it, and an unexpired pending row if and only if it denies it |
| `LoginRuns.NewerCodeIsConsumed` | internal/oidc/provider.go:376-395 | a concrete run in which a request left behind consumes a code of a later generation |
| `LeftBehind.NewerRowIsDenied` | internal/loginui/ui.go:198-224 | a concrete run in which a request left behind denies a row of a later generation |
| `LeftBehind.BareRowIsDenied` | internal/wsfed/provider.go:170-190 | a concrete run in which a request left behind denies a bare-id row that its older snapshot resolves by entity id |
| `LoginRuns.EnrolmentRaceIff` | internal/oidc/runtime.go:333-377 | a login that verified its code before the user's secret was replaced is authenticated with MFA if and only if its generation is admitted, and its step of the old secret becomes the first entry of the new ledger |
| `LoginRuns.EnrolmentRace` | internal/loginui/ui.go:97-108 | a concrete run in which the code is wrong for the new secret and the login is authenticated after the enrolment |
| `AccessTokens.TokensDieWithTheirGeneration` | internal/oidc/provider.go:980-996 | in every reachable state a minted access token presented under an admitted snapshot is accepted if and only if its own generation is admitted and force-fail is off |
| `StaleRequests.RedeemingConsumes` | internal/oidc/provider.go:376-395 | a redemption by any registered client consumes the code it names, whatever generation either has |
| `Access.SamlPendingUsable` | internal/saml/provider.go:143-181 | the row that `sso` stores is usable under its snapshot |
| `Access.FoundUserIsUsable` | internal/loginui/ui.go:263-273 | a user found by name among the enabled users is usable by id |
| `Access.NarrowedScopeAllowed` | internal/oidc/provider.go:932-950 | narrowing a scope never loses permission |
| `Totp.Verify` | internal/totp/totp.go:81-94 | an accepted step lies within one of the current step and produces the submitted code; rejection means no step of the window does, or the code has the wrong length |
| `RuntimeState.RotateKeepsTables` | internal/oidc/runtime.go:203-216 | rotation keeps the table invariant and never grows the table |
| `RuntimeState.PutPendingKeepsTables` | internal/oidc/runtime.go:95-116 | storing a handler's pending row keeps keys, field limits and the row bound |
| `RuntimeState.BudgetExcludesId` | internal/oidc/runtime.go:473-487 | a row accepted without its id is within the budget with its id if and only if the id is short enough |
| `FirstSteps.OverBudgetRowIsStored` | internal/oidc/runtime.go:95-116 | a concrete SAML request of a registered service provider with an HTTPS reply URL after which the stored row is over the budget, whatever id it was given |
| `SharedRuntime.CheckBudget` | internal/oidc/runtime.go:475-487 | the field loop with its early exit accepts exactly the bounded rows |
| `SharedRuntime.Runtime.SweepExpired` | internal/oidc/runtime.go:436-458 | the four deletion loops leave exactly the unexpired rows |
| `SharedRuntime.Runtime.PutPending` | internal/oidc/runtime.go:95-116 | the whole new state and result are those of the atomic action: bound, admission, sweep, capacity, id and time |
| `SharedRuntime.Runtime.TakePending` | internal/oidc/runtime.go:120-146 | reading drops an expired row, taking removes the row it returns |
| `SharedRuntime.Runtime.PutCode` | internal/oidc/runtime.go:148-160 | the new state is that of the atomic action: admission, sweep, capacity |
| `SharedRuntime.Runtime.RotateRefresh` | internal/oidc/runtime.go:206-216 | the spent handle goes and its replacement appears in one action, or nothing changes |
| `SharedRuntime.Runtime.PutSession` | internal/oidc/runtime.go:218-233 | the new state is that of the atomic action |
| `SharedRuntime.Runtime.ListSessions` | internal/oidc/runtime.go:246-259 | the loop drops the expired sessions and lists each remaining one once |
| `SharedRuntime.Runtime.ExpireSession` | internal/oidc/runtime.go:271-294 | the session and every code and refresh handle of its user go, and nothing else |
| `RuntimeLaws.LogoutRemovesExactly` | internal/oidc/runtime.go:271-294 | a logout removes the session and exactly the codes and refresh handles of its user; an unknown session changes nothing |
| `RuntimeLaws.LogoutRevokesUser` | internal/oidc/runtime.go:271-294 | in the protocol, after a logout no stored code or handle names the user, and every other row is still there |
| `RuntimeLaws.LogoutOfAllRemovesExactly` | internal/oidc/runtime.go:261-269 | expiring all sessions removes sessions, codes and handles, and nothing else |
| `RuntimeLaws.IncompleteMfaRemovesExactly` | internal/oidc/runtime.go:379-397 | a row stays if and only if its MFA is complete; pending rows and TOTP state stay |
| `RuntimeLaws.RevocationRemovesExactly` | internal/oidc/runtime.go:302-319 | revoking empties the four tables and keeps the TOTP state, resetting empties that too |
| `RuntimeLaws.EnrolmentTouchesOneUser` | internal/oidc/runtime.go:333-347 | enrolling and clearing concern one user, whose ledger starts afresh |
| `RuntimeLaws.RecordedIff` | internal/oidc/runtime.go:367-376 | a step is recorded if and only if its generation is admitted and it is later than the user's last |
| `RuntimeLaws.Lifetimes` | internal/oidc/runtime.go:118-130 | ten minutes for a pending row; expiry is strict |
| `RuntimeLaws.CleanupIsSwept` | internal/oidc/runtime.go:436-458 | a sweep leaves exactly the live rows of each table |
| `RuntimeLaws.PendingStoredIff` | internal/oidc/runtime.go:95-116 | a pending row is stored if and only if it is within its limits, admitted, and fewer than 4096 rows are alive |
| `RuntimeLaws.BoundedIff` | internal/oidc/runtime.go:475-487 | the limits, field by field, and the sum of the thirteen fields |
| `RuntimeLaws.CodeStoredIff` | internal/oidc/runtime.go:148-160 | a code is stored if and only if it is admitted and there is room, and what else changes |
| `RuntimeLaws.RefreshStoredIff` | internal/oidc/runtime.go:172-184 | a handle is stored if and only if it is admitted and there is room, and what else changes |
| `RuntimeLaws.SessionStoredIff` | internal/oidc/runtime.go:218-233 | a session is stored if and only if it is admitted and there is room, and what else changes |
| `RuntimeLaws.RotatedIff` | internal/oidc/runtime.go:206-216 | rotation succeeds if and only if the spent handle is alive and the new one admitted, and exchanges the two |
| `RuntimeLaws.ReadsReturnLiveRows` | internal/oidc/runtime.go:120-146 | a row is returned if and only if it is there and alive; a dead one goes, and taking removes what it returns |
| `RuntimeLaws.OperatorSteps` | internal/app/mfa.go:66-126 | the operator's calls and the arrival of a request as steps of the protocol; a request captures the active snapshot |
| `SharedRuntime.Runtime.ExpireIncompleteMfa` | internal/oidc/runtime.go:379-397 | exactly the rows without completed MFA go |
| `SharedRuntime.Runtime.InvalidateBefore` | internal/oidc/runtime.go:460-466 | admission is raised and all protocol rows go in one action |
| `SharedRuntime.Runtime.VerifyAndRecord` | internal/oidc/runtime.go:360-377 | the ledger changes only for a verified step under an admitted generation that is later than the last one |
| `Documents.ValidateIds` | internal/model/document.go:203-319 | the validation loops accept a document if and only if ids and names are unique and present, references resolve, and URIs, vendor and mode are valid |
| `Snapshots.Compile` | internal/compiler/compile.go:41-203 | the index-building loops return the compiled snapshot or the validation error of the document |
| `Snapshots.LookupsAgreeWithSearch` | internal/compiler/compile.go:116-179 | for every document that compiles, each of the five lookup maps agrees with linear search over the canonical list |
| `Snapshots.CompiledReferencesResolve` | internal/model/document.go:203-319 | every user's group resolves and every confidential client has a non-empty secret under its effective id |
| `Snapshots.CompareSecurity` | internal/snapshot/snapshot.go:88-101 | the early-exit loop decides the one-directional comparison |
| `Snapshots.SecurityEqualIsEquality` | internal/snapshot/snapshot.go:88-101 | without empty secrets the one-directional comparison is equality of passwords, seeds, keys, token and client secrets |
| `Snapshots.EmptySecretsConfuse` | internal/snapshot/snapshot.go:95-99 | two snapshots that differ only in which client has an empty secret compare as equal |
| `Snapshots.SecurityChangedIff` | internal/app/mutate.go:276-282 | `securityChanged` on compiled snapshots holds if and only if the security views differ |
| `Snapshots.SameViewSameLookups` | internal/app/mutate.go:276-282 | snapshots with one security view answer every client and user lookup alike |
| `CompilerLaws.CompilesIff` | internal/compiler/compile.go:41-203 | a document compiles if and only if its settings pass, entity ids are distinct, and every referenced secret reads and parses |
| `CompilerLaws.SettingsOkIff` | internal/compiler/compile.go:41-115 | the settings that must pass, in terms of the document and the files |
| `CompilerLaws.SnapshotHolds` | internal/compiler/compile.go:95-203 | a snapshot holds the normalized document, its revisions and generation, the key files and the trimmed access token |
| `CompilerLaws.SnapshotSecrets` | internal/compiler/compile.go:116-179 | every client secret is the trimmed file behind its reference, every password and seed what its file parses to |
| `CompilerLaws.DefaultsFilled` | internal/config/load.go:55-104 | every default, and that a value that is set is kept |
| `CompilerLaws.RestKept` | internal/config/load.go:55-104 | normalization changes nothing that has no default |
| `Words.FieldsAreWords` | internal/oidc/provider.go:857-865 | splitting a scope returns exactly its maximal runs of non-space characters |
| `Words.TrimmedIs` | internal/compiler/compile.go:133-143 | trimming drops the spaces at both ends and nothing else |
| `Operations.EditList` | internal/app/ops.go:77-124 | the search loop and its branches compute the list operation and its exact error |
| `Operations.ListOpIsMapUpdate` | internal/app/ops.go:77-124 | on a list with distinct ids an operation changes the item under its own id as asked and leaves every other id alone |
| `Operations.ListOpNeedsPresence` | internal/app/ops.go:77-124 | an operation succeeds if and only if add finds the id absent, update and remove find it present, and the value decodes to the same id |
| `Operations.ListOpKeepsIdsDistinct` | internal/app/ops.go:77-124 | operations keep ids distinct |
| `Operations.ListOpFailsIff` | internal/app/ops.go:77-124 | the exact error of a list operation, or none |
| `Operations.ClientOperation` | internal/app/ops.go:29-30 | on a document: the clients change as asked, in order and by id, nothing else does, and it fails as the list does |
| `Operations.UserOperation` | internal/app/ops.go:31-32 | the same for users |
| `Operations.GroupOperation` | internal/app/ops.go:33-34 | the same for groups |
| `Operations.SingletonOperation` | internal/app/ops.go:35-42 | profile, protocols, auth and overage: the decoded value, or the zero value on remove, and nothing else changes |
| `Operations.ListenerOperation` | internal/app/ops.go:43-50 | the same for listeners, access, UI and management |
| `Operations.IssuerOperation` | internal/app/ops.go:51-71 | the issuer is cleared, or set from a non-empty object or a string, and fails otherwise |
| `Operations.UnknownOperation` | internal/app/ops.go:22-27 | unknown operations and targets are refused |
| `Operations.BatchInOrder` | internal/app/ops.go:12-19 | a batch is its operations in their order, up to the first failure |
| `Operations.RemoveUndoesAdd` | internal/app/ops.go:89-108 | removing what was added restores the list |
| `Operations.UpdateUndoesUpdate` | internal/app/ops.go:109-121 | updating back restores the list |
| `Operations.OpsIgnoreDefaults` | internal/config/load.go:55-104 | a batch fails alike, and normalizes to the same document, on a document and on its normal form |
| `Operations.ApplyOpsConcat` | internal/app/ops.go:12-19 | two batches in a row are one batch |
| `Operations.Draft.ApplyAll` | internal/app/ops.go:12-75 | the in-place loop computes the batch, stopping at the first failure with its error |
| `Idempotency.PutKeepsValidIff` | internal/app/idemp.go:51-64 | storing a new key keeps the list duplicate-free, equal to the map's keys and within capacity if and only if the capacity is at least one |
| `Idempotency.CapacityZeroLeaks` | internal/app/idemp.go:51-64 | with capacity zero a stored row leaves the list at once and stays in the map |
| `Idempotency.CacheIsLru` | internal/app/idemp.go:31-64 | after any lookups and stores the list is the window of the `cap` most recently used distinct keys, in order of last use |
| `Idempotency.RetainedIff` | internal/app/idemp.go:31-64 | a key is in the cache if and only if fewer than `cap` distinct other keys were inserted or hit since its last use |
| `Idempotency.IdempCache.Lookup` | internal/app/idemp.go:31-49 | a hit moves its key to the back, a reused key with another request is a conflict, anything else changes nothing |
| `Idempotency.IdempCache.Store` | internal/app/idemp.go:51-64 | a new key is appended and the oldest evicted beyond capacity, an existing key is overwritten in place |
| `DesiredState.CallEffect` | internal/app/mutate.go:37-77 | a call leaves store and runtime alone, or replaced exactly the snapshot whose revision it named by the candidate of its own batch |
| `DesiredState.FailureChangesNothing` | internal/app/mutate.go:37-113 | a failing call, and every plan, changes neither store nor runtime |
| `EngineLaws.ApplyDecides` | internal/app/mutate.go:37-77 | the order of an apply's refusals with their errors, and what it answers and leaves when it goes through |
| `EngineLaws.ApplySwapsIff` | internal/app/mutate.go:37-77 | an apply swaps if and only if it gives a reason, is not recorded, names the live revision, and its operations apply to a document that compiles and moves no bound listener |
| `EngineLaws.TypedDecides` | internal/app/mfa.go:29-64 | the order of a typed mutation's refusals, and what it answers when it goes through |
| `EngineLaws.TypedSwapsIff` | internal/app/tunables.go:99-140 | a typed mutation swaps if and only if its input is admissible and its one operation goes through |
| `EngineLaws.AdmissibleIff` | internal/app/tunables.go:103-108 | the inputs a typed mutation refuses before it takes the lock |
| `EngineLaws.ResetDecides` | internal/app/reset.go:15-78 | the order of a reset's refusals, and what it answers and leaves when it goes through |
| `EngineLaws.ResetSwapsIff` | internal/app/reset.go:15-78 | a reset swaps if and only if it gives a reason, is not recorded, names the live revision, can be installed and is no dry run |
| `EngineLaws.DryRunOnlyReports` | internal/app/reset.go:58-61 | a dry run changes neither store nor runtime nor cache entries, and reports not applied, the next generation and the two revisions |
| `EngineLaws.KeysAndMarks` | internal/app/idemp.go:74-114 | calls share a key only with the same actor, kind and key text, and a fingerprint only as the same request |
| `EngineLaws.UserLookupAfterSwap` | internal/app/ops.go:31-32 | from boot, after a user operation swapped the live lookup under every id is what was asked for |
| `EngineLaws.ClientLookupAfterSwap` | internal/app/ops.go:29-30 | the same for clients |
| `EngineLaws.UserOperationLive` | internal/app/mutate.go:168-194 | the live document is the old one with that one change to its users |
| `EngineLaws.ClientOperationLive` | internal/app/mutate.go:168-194 | the live document is the old one with that one change to its clients |
| `EngineLaws.VendorSwapLive` | internal/app/tunables.go:99-140 | a vendor swap changes vendor and, if given, tenant, and nothing else |
| `EngineLaws.OverageLive` | internal/app/tunables.go:142-182 | an overage change sets what was given, keeps the rest, and zero means the default |
| `EngineLaws.RewriteLive` | internal/app/import.go:124-165 | a redirect rewrite replaces the URIs of the client it names, and nothing else |
| `EngineLaws.ImportLive` | internal/app/import.go:63-114 | an import appends its client, and nothing else |
| `EngineLaws.ApplyTouchesRuntime` | internal/app/mutate.go:62-68 | an apply revokes exactly when the security view changed and forgets the TOTP state of exactly the users whose source moved |
| `DesiredState.LiveDocumentIsFold` | internal/app/mutate.go:168-194 | after any calls the live document is the normal form of all accepted operations applied to the document of the last boot or reset; generation is one plus the number of swaps; `Drifted` holds if and only if live and bootstrap documents differ |
| `DesiredState.CachedPlanAgrees` | internal/app/mutate.go:86-113 | after any calls a served plan names the live revision and the revision of its operations applied to the live document, and equals a recomputed plan up to the drift flag |
| `DesiredState.PlanThenApply` | internal/app/mutate.go:196-231 | from boot, an apply that swaps installs the candidate revision that an earlier plan of the same input named, whatever calls came before and between |
| `Drift.ServedPlanIffSinceBoot` | internal/app/mutate.go:86-113 | from boot, a keyed plan served again while its key is kept equals the recomputed plan if and only if its candidate is both or neither of the bootstrap revisions at the two moments |
| `Drift.FewOthersKeepPlan` | internal/app/idemp.go:31-64 | a recorded plan's key is kept while fewer than 256 other keys are used |
| `Drift.UncachedPlanIsRecomputed` | internal/app/mutate.go:105-112 | a plan whose key the cache does not hold is the recomputed plan |
| `Witnesses.StaleDriftIsServed` | internal/app/reset.go:47-77 | a run from boot (switch, plan back, reset to the rewritten boot file, same plan) that is served a plan without drift whose candidate is not the bootstrap document |
| `DesiredState.SetMfaChangesOnlyTheMode` | internal/app/mfa.go:29-64 | SetMFA that swaps changes the MFA mode of the live document and nothing else |
| `Retries.KeyedCallsSwapOnce` | internal/app/idemp.go:108-129 | after a keyed call swapped, no call with its key swaps while the key stays in the cache: an identical retry gets the first reply whatever changed in between, a different request is refused, store and runtime unchanged |
| `Retries.KeyedCallsSwapOnceSinceBoot` | internal/app/app.go:69 | from boot, after any calls, the key is kept while fewer than 256 other keys are used, and the same holds |
| `Retries.RecordedKeyNeverSwaps` | internal/app/mutate.go:46-55 | with a recorded result a call under its key replays it, or fails with a conflict, or with the validation error that precedes the lookup |
| `Application.App.Apply` | internal/app/mutate.go:37-77 | the method with its replay, candidate, revocation, sync, swap and store steps computes the engine's apply |
| `Application.App.PlanChanges` | internal/app/mutate.go:86-113 | the method computes the engine's plan and changes only the cache |
| `Application.App.ApplyCommand` | internal/app/mfa.go:29-64 | the typed mutations compute the engine's typed call |
| `Application.App.ResetState` | internal/app/reset.go:15-78 | the method computes the engine's reset, loading the bootstrap document only for the expected revision |
| `Application.SyncTotpOverlay` | internal/app/mfa.go:128-164 | the two reference maps and the clearing loop forget exactly the users whose reference or seed changed or who are gone, after dropping incomplete MFA when the mode turns to always |
| `Mutations.ApplyIsARun` | internal/app/mutate.go:62-68 | an apply with nothing interleaved is a run of the transition system and leaves the same runtime and snapshot |
| `Mutations.ResetIsARun` | internal/app/reset.go:62-69 | so is a reset |
| `RateLimit.Compact` | internal/oidc/limit.go:34-40 | the in-place compaction of the slice in its own array equals filtering |
| `RateLimit.Decide` | internal/oidc/limit.go:21-47 | pruning loop, compaction and branches compute the decision and the new buckets |
| `RateLimit.AtMostNPerWindow` | internal/oidc/limit.go:21-47 | over any history no interval (a, a+window] holds more than `n` admitted calls of a key |
| `RateLimit.RefusedIff` | internal/loginui/ui.go:424-450 | a call is refused if and only if its window is full, or its key is not live and at least 4096 others are |
| `RateLimit.BucketsBounded` | internal/oidc/limit.go:31-33 | the table never holds more than 4096 buckets |
| `Pages.ServePage` | internal/app/page.go:28-61 | sorting the slice in place and cutting it computes the page, the cursor and the exact rejections |
| `Pages.FollowingListsEverythingOnce` | internal/app/page.go:28-61 | following the cursor over an unchanged collection with distinct ids, with any valid limits and arrival orders, ends within as many requests as items and lists each item once in id order |
| `Pages.CursorBelongsToItsCollection` | internal/app/page.go:39-54 | a served cursor is accepted if and only if kind and contents are those it was issued for and the limit is valid |
| `Pages.PageHolds` | internal/app/page.go:55-60 | a page holds the items asked for, a hundred by default, or what is left, and a cursor if there is more |
| `Pages.PageServedIff` | internal/app/page.go:28-54 | a request is served if and only if its limit is valid and its cursor is none or one of this collection |
| `Pages.AscendingUnique` | internal/app/page.go:36 | a collection has one arrangement by ascending id, so the choice of sorting algorithm does not matter |
| `Scrub.ScrubTree` | internal/importrw/rewrite.go:80-124 | the recursive procedure with its two loops computes the scrubbed tree and its warnings |
| `Scrub.ScrubbedIsClean` | internal/importrw/rewrite.go:80-138 | the output has no secret-named key, no PEM string and no null at any depth |
| `Scrub.ScrubKeepsSurvivors` | internal/importrw/rewrite.go:80-124 | the nodes of the output are exactly the input's nodes that are not under a secret-named key, not PEM strings and not null, in their order |
| `Scrub.ScrubIdempotent` | internal/importrw/rewrite.go:68-124 | scrubbing again changes nothing and adds no warning |
| `Scrub.WarnsIffUnclean` | internal/importrw/rewrite.go:85-123 | there is a warning if and only if the input held a secret-named key or a PEM string |
| `Scrub.WarningsNameOffences` | internal/importrw/rewrite.go:85-123 | the warnings are one for each topmost secret-named field and each PEM string, with its path, in document order |
| `Scrub.SecretNames` | internal/importrw/rewrite.go:131-138 | the twenty secret names, whatever their case |
| `Scrub.PemIff` | internal/importrw/rewrite.go:126-129 | a string is PEM-like if and only if its upper-case form holds the marker |

## Left out

- HTTP routing, cookies, CSRF, HTML pages, REST and MCP adapters, CLI and listeners: plumbing.
- JWT, JWKS, X.509, Argon2, HMAC, SHA and XML signatures: foreign cryptography, arbitrary functions here.
- YAML, JSON, XML, base64 and URL parsing and file reads: partial functions supplied as data. A change whose raw JSON cannot be fingerprinted (malformed text) is outside the model.
- The vendor clothes, discovery documents, group claims, audit ring, capability catalogue and authorization of management actors: data tables or single-function members.
- The runtime tunables appear only as free choices that make a step fail; their own getters and setters are not modelled.
- Login timing padding, dummy credentials and the two rate limiters' place in the handlers: a request of the transition system may be refused at any point instead.
- The handlers' re-check of `PreConsent` between login and completion is over-approximated: the transition system allows completion where the source may show the consent page first.
- `Validate`, `Canonicalize`, exports and the query calls, which change no state.
- Nil and empty slices are one value; a scrubbed array with nothing left in it is the empty array here, where Go marshals the nil slice as null.
- The clones of documents and snapshots: documents are values, so sharing of backing arrays between a draft and the live document is not captured. A limiter bucket is compacted in an array of its own.
- Pagination of a collection with duplicate ids, which the validator excludes for clients, users and groups.
- Access tokens minted by the operator's token tunable, which checks neither user nor client, and presentation of a token under a snapshot that is no longer admitted.
