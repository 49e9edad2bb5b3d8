# ShieldGate: a verified model of its credential protocols

ShieldGate is an OAuth 2.0 / OpenID Connect server. Its hard part is a set of stateful protocols in which
services run sequences of SQL statements that concurrent requests interleave. This project models those
protocols in Dafny and proves what they promise. `dafny verify dfyconfig.toml` checks all of it.

## How the model is built

Tables are maps, each repository call is one atomic statement, and a request is a program counter with its
local variables. The protocols whose guarantees rest on the order of statements are built in layers:

- a table module gives the rows and what each statement does to them;
- a calls module gives each request as a program: `Decide` is the statement it runs next and where it is after
  that, with the clock, storage errors and random values as inputs;
- a machine module interleaves any number of requests, crashes where the source survives them, cleanup and the
  clock, keeps a history of what the tables no longer tell, and proves an inductive invariant over all program
  counters; theorems modules state what follows over all runs;
- a runs module gives one request run to its end (`Run`) while others interfere (`World`). An alone module says what
  it does when nobody interferes and nothing errs, written out on the rows before and after, without the program;
- a service module has the classes of the source. Each method is proved to run exactly the statements of its
  program under arbitrary interference, and so, alone, to do what the alone module says. A worlds module proves that
  the calls of any run of the machine are such method runs, in the world that the other events of the run make up:
  so the theorems speak about the methods.

| files | protocol |
|---|---|
| `TokenTables` `TokenCalls` `TokenMachine` `TokenProofs*` `TokenTheorems` `TokenRaces` `TokenRuns` `TokenAlone` `TokenService` `TokenWorlds` | authorization codes, refresh-token rotation, reuse detection, revocation |
| `IdempotencyTable` `IdempotencyMachine` `IdempotencyTheorems` `IdempotencyRuns` `IdempotencyAlone` `IdempotencyService` `IdempotencyWorlds` `Redaction` | Idempotency-Key records and what is stored of a response |
| `Totp` `TypedCodes` `MfaTables` `MfaCalls` `MfaMachine` `MfaTheorems` `MfaCodes` `MfaLockout` `MfaOverlap` `MfaRuns` `MfaAlone` `MfaService` `MfaWorlds` | TOTP, recovery codes, lockout |
| `ClientMetadata` `MetadataRules` `RegistrationCalls` `RegistrationMachine` `RegistrationTheorems` `RegistrationRuns` `RegistrationAlone` `RegistrationService` `RegistrationWorlds` | dynamic client registration |
| `TenantResolver` `TenantWorlds` | the domain resolver and its cache, interleaved |
| `ClientSecrets` | client authentication and its cache |
| `DeviceGrant` `DeviceRuns` `TokenExchange` | device grant and token exchange |
| `PasswordResets` `PasswordResetRuns` | password resets |
| `Rbac` `RbacEffects` `RbacService` | roles and permissions |
| `Consent` `Scopes` `Common` | consents, scope strings, shared types |

The last five rows run at the granularity of whole calls (the client-secret cache admits interference as well):
their code reads rows and saves them whole, and does not support stronger claims.

## What is assumed

- SHA-256 and HMAC are injective; bcrypt, the TOTP code of a step and the acceptance of a URI by `net/url` are
  arbitrary deterministic functions. JSON documents are what `encoding/json` decodes, numbers included.
- UUIDs and random tokens are new. A refresh token or code is presented only after a call returned it; it
  cannot be guessed.
- The clock does not run backwards. A storage call either takes effect or errs. In the protocols with a machine
  of every statement the error is an input, with the branch that handles it; in the models of whole calls it is an
  input for every statement that writes, except the insert and the decision of a device code. The reads of those
  models (users, clients, roles, permissions, consents, device codes) do not err.
- TOTP codes are six digits where that matters (`MfaOverlap.OverlappingCallsEscape`,
  `MfaCodes.AnotherSecretIsConfirmed`).
- `issueTokens` may fail after it stored rows. Such rows were never returned by a call; the theorems about
  revocation say exactly what may remain of them.

## Where the code keeps less than it promises

- A replayed authorization code does not revoke its family while the exchange that consumed the code is still
  storing its tokens: code exchange, unlike rotation, does not re-read (`TokenRaces.EarlyReplayRevokesNothing`;
  exactly when, over all continuations, `TokenRaces.RevocationFailsExactly`).
- A revocation whose deletes err is logged and acknowledged, and leaves the rows (`TokenRaces.ErringDeletesKeepRows`,
  a run of it `TokenRaces.ErringRevocationIsReachable`); once one call's two deletes have taken effect, erring
  deletes of others bring nothing back (`TokenTheorems.RevocationIsFinal`).
- The second-factor lockout counts every failure, but calls that overlap can all pass the lock check before one
  of them is counted, any number of them (`MfaOverlap.OverlappingCallsEscape`; that only these can, `MfaOverlap.LockBindsLaterReaders`).
- Confirming an enrolment does not compare the secret whose code it checked with the one it confirms: an enrolment
  begun again in between is confirmed by a code of the secret it replaced (`MfaCodes.AnotherSecretIsConfirmed`;
  exactly when, `MfaCodes.ConfirmedSecretWasChecked`).
- A client registered with more than 50 scopes, which it can take over from its initial access token, cannot
  send back what it reads (`RegistrationTheorems.ReadThenUpdateKeeps`).
- The lifetime of an initial access token is multiplied in 64 bits, so some lifetimes of centuries are accepted
  as short ones (exactly which, `RegistrationCalls.LifetimeRule`; not below 292 years, `RegistrationCalls.LifetimeGuard`).
- Deleting a role logs a failed delete of one of its grants and goes on, which leaves the grant behind
  (`Rbac.IntegrityKept`); it reaches nobody (`Rbac.DanglingGrantsAreHarmless`).

## Model

| member | source | states |
|---|---|---|
| `TokenTheorems.RevocationIsFinal` | internal/services/auth_service_impl.go:314-454 | Over every interleaving of refresh, exchange and revocation calls with expiry cleanup, any statement of which may err: once the two deletes of one call took effect with no exchange of the code pending, no later state holds a token of the family that a call returned. Once a family is condemned and none of its deletes erred, a state with no call in flight holds none either, and no token at all if no call ended in a server error (section 4.14.2 of RFC 9700) |
| `TokenRaces.OwnDeletesAreFinal` | internal/services/auth_service_impl.go:446-454 | A call that condemned a family and whose own two deletes take effect leaves no returned token of it, whatever others do and whichever of their statements err |
| `TokenRaces.RevocationFailsExactly` | internal/services/auth_service_impl.go:114-135 | When a call decides to delete a family in a reachable state: some continuation in which none of its deletes errs ends with a returned token of the family live if and only if the exchange of its code was still storing tokens at that decision |
| `TokenTheorems.ReuseIsDetected` | internal/services/auth_service_impl.go:319-326 | In every reachable state a refresh call that reads a stored token of its tenant that was rotated before goes on to delete the token's family, changes nothing else, and condemns it |
| `TokenTheorems.LostRaceIsDetected` | internal/services/auth_service_impl.go:354-364 | The claim of a refresh call marks the token if it is stored in the tenant and unrevoked, and otherwise the call revokes and condemns the family, exactly |
| `TokenTheorems.MissedRowIsDetected` | internal/services/auth_service_impl.go:373-384 | A rotation whose claimed row is gone at the re-read revokes and condemns the family, and one whose row is there is answered with tokens |
| `TokenTheorems.GrantedRefreshPresentedALiveToken` | internal/services/auth_service_impl.go:314-352 | Over every run a refresh that is answered with tokens presented, in an earlier state, a token stored for its tenant and its client, neither rotated nor expired, whose scope covers the scope granted: the one asked for, or the whole |
| `TokenTheorems.GoneTokensStayGone` | internal/services/auth_service_impl.go:403-454 | Over every run a token that was deleted never comes back |
| `TokenTheorems.DetectionCondemns` | internal/services/auth_service_impl.go:324-400 | Whatever makes a call decide to delete a family: a call other than a code replay then finds no exchange of the family's code pending, and condemns the family; a code replay condemns it exactly when no such exchange is pending |
| `TokenAlone.RefreshAlone` | internal/services/auth_service_impl.go:314-385 | A refresh that runs alone and errs nowhere, written out on the rows: it is answered with tokens exactly for a stored, unrotated, unexpired token of the client and a scope within it, and then marks that token and stores one access and one refresh token with what it was granted; a rotated token takes every refresh and access token of its family with it and no other; an expired one is removed; nothing else changes anything |
| `TokenAlone.ExchangeAlone` | internal/services/auth_service_impl.go:115-182 | An exchange alone: answered with tokens exactly for an unused, unexpired code of the client with its redirect URI and a verifier whose S256 digest is the challenge, if there is one (section 4.6 of RFC 7636); a used code takes its family with it; an expired one is removed; any other is used up |
| `TokenAlone.RevocationAlone` | internal/services/auth_service_impl.go:403-444 | A revocation alone: a refresh token of the client takes its family with it, an access token of the client is gone, and nothing else changes anything (section 2.1 of RFC 7009) |
| `TokenTheorems.NoForkedChain` | internal/services/auth_service_impl.go:354-385 | In every reachable state an unused code, the unrevoked refresh tokens and the calls that claimed or consumed without having stored number at most one per family |
| `TokenTheorems.OneSuccessor` | internal/repo/gorm/refresh_token.go:45-54 | Of all calls that ever present one refresh token at most one is answered with tokens |
| `TokenTheorems.RefreshTokensKeepTheirGrant` | internal/services/auth_service_impl.go:229-282 | Every stored refresh token has the tenant, client, user, login time and methods of the code its family started from, and no scope beyond the code's |
| `TokenTheorems.AccessTokensKeepTheirGrant` | internal/services/auth_service_impl.go:229-282 | The same for stored access tokens |
| `TokenTheorems.RotationsOnlyNarrow` | internal/services/auth_service_impl.go:339-368 | Along any number of rotations the scope only shrinks and the family stays, given the provenance invariant |
| `TokenTheorems.ReachableRotationsOnlyNarrow` | internal/services/auth_service_impl.go:339-368 | That holds in every reachable state |
| `TokenTheorems.GrantedExchangeMetEveryCheck` | internal/services/auth_service_impl.go:115-182 | Over every run an exchange answered with tokens consumed, before it expired, the code it named, of its tenant, client and redirect URI; and if the code has a challenge, its method is S256 and it is the digest of the verifier, which is not empty |
| `TokenTheorems.CodeGrantsOnce` | internal/repo/gorm/auth_code.go:46-66 | Of all exchanges of one code at most one is ever answered with tokens (section 4.1.2 of RFC 6749) |
| `TokenTheorems.FailedExchangeSpendsCode` | internal/services/auth_service_impl.go:115-182 | A code whose consumer was refused never yields tokens later |
| `TokenTheorems.LateReplayCondemns` | internal/services/auth_service_impl.go:115-135 | A replay that begins after the consuming exchange has returned, while the used row is stored, starts to delete the family and condemns it |
| `TokenRaces.EarlyReplayRevokesNothing` | internal/services/auth_service_impl.go:115-182 | While the consumer of a code is still storing tokens a deletion of the family revokes nothing for good: from any such state every call can end, with no delete of the deleting call erring and the tokens that the consumer returns live: the refresh token always, the access token, too, if it was yet to be stored |
| `TokenRaces.EarlyReplayIsReachable` | internal/services/auth_service_impl.go:115-182 | That race is reachable from an empty database: a replay decides to delete the family while the exchange is storing |
| `TokenRaces.ErringDeletesKeepRows` | internal/services/auth_service_impl.go:446-454 | Of the two deletes of a family, each leaves its rows exactly if it errs; the call is answered the same either way |
| `TokenRaces.ErringRevocationIsReachable` | internal/services/auth_service_impl.go:403-454 | A run from an empty database in which a revocation whose deletes err is acknowledged and leaves the revoked refresh token live |
| `TokenProofsRuns.RunInv` | internal/services/auth_service_impl.go:314-454 | The nine-part inductive invariant over all program counters holds in every reachable state |
| `TokenCalls.StepsTerminate` | internal/services/auth_service_impl.go:115-454 | Every call runs at most nine more statements |
| `TokenService.AuthService.RefreshTokens` | internal/services/auth_service_impl.go:314-386 | The method runs exactly the statements of a refresh call, whatever others do in between; alone and without errors it does what TokenAlone.RefreshAlone says |
| `TokenService.AuthService.Rotate` | internal/services/auth_service_impl.go:354-386 | The method from the claim on: claim, store access, store refresh, re-read |
| `TokenService.AuthService.LookAgain` | internal/services/auth_service_impl.go:373-384 | The re-read of the claimed row and its three outcomes |
| `TokenService.AuthService.ExchangeAuthorizationCode` | internal/services/auth_service_impl.go:115-182 | The method runs exactly the statements of an exchange call, whatever others do in between; alone and without errors it does what TokenAlone.ExchangeAlone says |
| `TokenService.AuthService.ExchangeUsed` | internal/services/auth_service_impl.go:137-182 | The method from the use of the code on: its checks, then the issue of tokens |
| `TokenService.AuthService.RevokeToken` | internal/services/auth_service_impl.go:403-443 | The method runs exactly the statements of a revocation call and always acknowledges; alone and without errors it does what TokenAlone.RevocationAlone says |
| `TokenService.AuthService.RevokeAccessToken` | internal/services/auth_service_impl.go:403-443 | The access-token half of a revocation |
| `TokenService.AuthService.IssueTokens` | internal/services/auth_service_impl.go:229-310 | Stores the access token, then the refresh token, then signs; what is left behind when a step fails |
| `TokenService.AuthService.RevokeTokenFamily` | internal/services/auth_service_impl.go:446-454 | Deletes the refresh rows of a family first and its access rows second |
| `TokenWorlds.MachineCallsAreMethodRuns` | internal/services/auth_service_impl.go:115-454 | Every call of a run of the machine ends with the answer and the tables with which its method ends in the world that the other events of the run make up |
| `TokenService.RefreshTokenRepository.Revoke` | internal/repo/gorm/refresh_token.go:45-54 | Marks an unrevoked row of the tenant revoked and tells exactly whether it did |
| `TokenService.AuthCodeRepository.Use` | internal/repo/gorm/auth_code.go:46-66 | Marks an unused code used and returns its row exactly when it did |
| `Scopes.ParseAroundSpace` | internal/services/scope.go:11-14 | Parsing around a separator is parsing both sides; with ParseWord and the empty string this determines the parser on every input |
| `Scopes.ParseWord` | internal/services/scope.go:11-14 | A word parses to itself |
| `Scopes.ParseJoin` | internal/services/scope.go:11-14 | Parsing the space-join of words gives the same list (section 3.3 of RFC 6749) |
| `Scopes.ParseJoinParse` | internal/services/scope.go:45-54 | Normalising a scope string does not change what it parses to |
| `Scopes.ScopeIsSubset` | internal/services/scope.go:28-42 | True exactly when every requested scope is allowed |
| `Scopes.ScopeContains` | internal/services/scope.go:17-25 | True exactly when the scope is listed |
| `Scopes.ValidateScopeForClient` | internal/services/scope.go:45-54 | Succeeds exactly when the request lies within the registration; grants the request, or everything when it is blank |
| `IdempotencyTheorems.SecondRunWaits` | internal/middleware/idempotency.go:114-155 | Of two handler runs under one key the later began only after the earlier record was deleted by its own request, expired, or went a minute unanswered |
| `IdempotencyTheorems.RunsAreOrdered` | internal/middleware/idempotency.go:114-155 | Any two handler runs under one key are ordered, so the previous row covers them |
| `IdempotencyTheorems.AnsweredKeyStaysAnswered` | internal/middleware/idempotency.go:104-155 | Once a response is stored the handler does not run again under its key until the record expires, which is no sooner than the lifetime asked for after the request arrived |
| `IdempotencyAlone.ServeAlone` | internal/middleware/idempotency.go:104-175 | A request alone: if a record of its key is unexpired and answered, or unexpired and not a minute old, the handler does not run and nothing changes; the request is told Mismatch for another fingerprint, InProgress while unanswered, and otherwise the stored response. If none stands the handler runs once, and its redacted response is kept for the lifetime asked for, or no record at all after a server error, a panic or an oversized body |
| `IdempotencyAlone.StandingRecordDecides` | internal/middleware/idempotency.go:114-175 | The same at the two statements of a request among others: a standing record is left alone by the insert, and the record that is read decides the answer |
| `IdempotencyTheorems.SupersededForever` | internal/repo/gorm/idempotency.go:26-60 | A request that lost its record never holds one again |
| `IdempotencyTheorems.LateStepsChangeNothing` | internal/repo/gorm/idempotency.go:62-80 | The late Complete or Delete of a superseded request leaves every record as it is |
| `IdempotencyTheorems.ReplayIsFaithful` | internal/middleware/idempotency.go:158-204 | Every replayed response is the redacted response that a request with the same tenant, principal, key and fingerprint was itself answered with, for NUL-free methods and URIs one with the same method, URI and body; never a server error |
| `IdempotencyTable.FingerprintIsInjective` | internal/middleware/idempotency.go:196-204 | The NUL-separated fingerprint input is injective for NUL-free method and URI |
| `IdempotencyMachine.RunInv` | internal/repo/gorm/idempotency.go:26-88 | The invariant over all program counters holds in every reachable state, with crashes and cleanup |
| `IdempotencyService.IdempotencyMiddleware.Handle` | internal/middleware/idempotency.go:70-124 | Requests without a usable key never touch the table, each refusal is given exactly for its cause, and exactly the admitted requests run the protocol |
| `IdempotencyService.IdempotencyMiddleware.Serve` | internal/middleware/idempotency.go:102-155 | The method runs exactly the statements of the protocol, whatever others do in between; alone and without errors it does what IdempotencyAlone.ServeAlone says |
| `IdempotencyService.IdempotencyMiddleware.Execute` | internal/middleware/idempotency.go:126-155 | Handler, then complete or release |
| `IdempotencyService.IdempotencyRepository.Upsert` | internal/repo/gorm/idempotency.go:26-47 | Inserts, or takes over a record that expired or went stale unanswered, and tells exactly whether it did |
| `IdempotencyWorlds.MachineCallsAreMethodRuns` | internal/middleware/idempotency.go:102-155 | Every answered request of a run of the machine ends as Serve ends in the world that the other events of the run make up |
| `IdempotencyService.ValidIdempotencyKey` | internal/middleware/idempotency.go:206-216 | True exactly for 1 to 255 visible ASCII characters |
| `IdempotencyService.PrincipalTellsSenders` | internal/middleware/idempotency.go:186-194 | Two different senders never share a principal |
| `Redaction.RedactKeepsTheRest` | internal/middleware/idempotency.go:236-254 | Reading a redacted document by a path gives nothing below a listed field and otherwise the redacted form of what was there |
| `Redaction.RedactLeavesNoLeak` | internal/middleware/idempotency.go:236-254 | No listed field is left at any depth |
| `Redaction.RedactChangesLeaks` | internal/middleware/idempotency.go:236-254 | A document changes exactly when it has a listed field |
| `Redaction.RedactIsIdempotent` | internal/middleware/idempotency.go:236-254 | Redacting twice is redacting once |
| `Redaction.RedactInPlace` | internal/middleware/idempotency.go:236-254 | The loops compute the redacted document and report a change exactly when there was one |
| `Redaction.RedactResponse` | internal/middleware/idempotency.go:220-233 | Bodies that are no JSON, or hold no listed field, are stored unchanged |
| `Redaction.StoredBodyIsClean` | internal/middleware/idempotency.go:220-233 | No stored body leaks, and storing a stored body changes nothing |
| `Totp.Verify` | internal/mfa/totp.go:66-79 | Accepts exactly when the entered code is that of a step within the skew, and returns the earliest such step |
| `Totp.TimeStepContains` | internal/mfa/totp.go:46-49 | From the epoch on the steps are consecutive periods of 30 seconds |
| `Totp.NormalizeTypedCode` | internal/mfa/recovery.go:42-53 | The map over the characters computes the normal form |
| `Totp.LooksLikeTotp` | internal/mfa/recovery.go:56-67 | True exactly for six digits between white space |
| `Totp.TypedRecoveryCode` | internal/mfa/recovery.go:42-53 | However a recovery code is typed, it hashes as the code shown and is not taken for a TOTP code |
| `MfaCodes.AcceptedCodesAreCodes` | internal/services/mfa_service_impl.go:148-221 | Over every run each accepted code, the confirming one included, is the code that was entered into its call and the six-digit code, for the secret that the call had read, of the very step that is recorded as used |
| `MfaCodes.NoCodeIsAcceptedTwice` | internal/services/mfa_service_impl.go:213-218 | Within one enrolment two acceptances of one code are of two different steps which both have that code (section 5.2 of RFC 6238) |
| `MfaCodes.ConfirmedSecretWasChecked` | internal/repo/gorm/mfa.go:63-82 | The secret that a confirmation confirms is the one whose code it checked exactly if the row holds the same secret at both statements |
| `MfaCodes.AnotherSecretIsConfirmed` | internal/services/mfa_service_impl.go:133-171 | A run from the empty table in which an enrolment that was begun again meanwhile is confirmed by a code of the secret it replaced |
| `MfaTheorems.AcceptedStepsRise` | internal/repo/gorm/mfa.go:84-97 | Under every interleaving, within one enrolment the steps of accepted codes strictly increase and each lies within one step of the time it was checked at |
| `MfaAlone.VerifyAlone` | internal/services/mfa_service_impl.go:175-227 | A verification alone, written out on the row: accepted are exactly a code of the secret within one step whose earliest step is later than the last one used, and an unused recovery code; both forget the failures; any other code counts, and from the fifth on locks for 900 seconds; without a confirmed row or while locked nothing changes |
| `MfaAlone.BeginAlone` | internal/services/mfa_service_impl.go:101-131 | Starting an enrolment alone leaves a pending row with the new secret, unless one is confirmed |
| `MfaAlone.ConfirmAlone` | internal/services/mfa_service_impl.go:133-171 | A confirmation alone succeeds exactly within 900 seconds and with a code of the pending secret within one step; that step is then used and exactly the issued recovery codes are stored, unused |
| `MfaAlone.RegenerateAlone` | internal/services/mfa_service_impl.go:229-245 | With a confirmed row exactly the new recovery codes are stored, unused; without, nothing changes |
| `MfaAlone.DisableAlone` | internal/services/mfa_service_impl.go:247-259 | Afterwards there is no row and no recovery code |
| `MfaTheorems.AcceptancesAreRecorded` | internal/services/mfa_service_impl.go:207-221 | Every call that was told its TOTP code is accepted accounts for one of those steps |
| `MfaTheorems.AcceptanceBound` | internal/repo/gorm/mfa.go:84-97 | Verifications whose current steps span a..b accept at most b-a+3 codes of an enrolment |
| `MfaTheorems.RecoveryCodesAreConserved` | internal/repo/gorm/mfa.go:99-117 | No recovery code is accepted twice, and unused plus accepted codes since the last issue always equal the number issued |
| `MfaLockout.GuessBound` | internal/services/mfa_service_impl.go:175-204 | Over whole calls, the n-th rejected code, n at least 5, comes at least 900(n-5) seconds after the fifth; any T seconds hold at most 5 + T/900 rejected codes |
| `MfaLockout.ReportsLockExactly` | internal/services/mfa_service_impl.go:175-204 | Verify reports a lockout exactly when it leaves the user locked |
| `MfaLockout.FailuresAreCounted` | internal/repo/gorm/mfa.go:119-130 | The row's count and lock are exactly those of the rejections since the last success |
| `MfaOverlap.LockBindsLaterReaders` | internal/services/mfa_service_impl.go:175-204 | Under every interleaving no failure is lost, and a code whose call had seen five or more rejections was checked at least 900 seconds after the last of them: only calls that read the row before a rejection was counted escape its lock |
| `MfaOverlap.OverlappingCallsEscape` | internal/services/mfa_service_impl.go:175-204 | Such overlapping calls do escape: for every n a run from the empty table enrols a user, confirms, and has n codes checked and rejected at one instant; so no bound on rejected codes holds of overlapping calls |
| `MfaService.MfaServiceImpl.VerifySecondFactor` | internal/services/mfa_service_impl.go:175-204 | The method runs exactly the statements of Verify, whatever others do in between; alone and without errors it does what MfaAlone says |
| `MfaService.MfaServiceImpl.CheckTotp` | internal/services/mfa_service_impl.go:207-221 | The TOTP half of check |
| `MfaService.MfaServiceImpl.CheckRecoveryCode` | internal/services/mfa_service_impl.go:222-227 | The recovery-code half of check |
| `MfaService.MfaServiceImpl.BeginEnrollment` | internal/services/mfa_service_impl.go:101-131 | The method runs exactly the statements of starting an enrolment, whatever others do in between; alone and without errors it does what MfaAlone says |
| `MfaService.MfaServiceImpl.ConfirmEnrollment` | internal/services/mfa_service_impl.go:133-171 | The method runs exactly the statements of confirming an enrolment, whatever others do in between; alone and without errors it does what MfaAlone says |
| `MfaService.MfaServiceImpl.Regenerate` | internal/services/mfa_service_impl.go:229-245 | The method runs exactly the statements of replacing recovery codes, whatever others do in between; alone and without errors it does what MfaAlone says |
| `MfaService.MfaServiceImpl.DisableSecondFactor` | internal/services/mfa_service_impl.go:247-259 | The method runs exactly the statements of disabling the second factor, whatever others do in between; alone and without errors it does what MfaAlone says |
| `MfaWorlds.MachineCallsAreMethodRuns` | internal/services/mfa_service_impl.go:101-259 | Every call of a run of the machine ends with the answer and the rows with which its method ends in the world that the other events of the run make up |
| `MfaService.MfaRepository.UseStep` | internal/repo/gorm/mfa.go:84-97 | Accepts a step exactly when it is later than the last one of a confirmed row, and then that step is no longer acceptable |
| `MfaService.MfaRepository.UseRecoveryCode` | internal/repo/gorm/mfa.go:99-117 | Accepts a recovery code exactly when it is stored and unused, and clears failures |
| `MfaService.MfaRepository.SavePending` | internal/repo/gorm/mfa.go:39-61 | Replaces the row exactly when it is not confirmed |
| `MfaService.MfaRepository.Confirm` | internal/repo/gorm/mfa.go:63-82 | Confirms exactly a pending row; a repeated recovery hash rolls the transaction back |
| `RegistrationTheorems.UsesAreBounded` | internal/repo/gorm/initial_access_token.go:47-62 | Under every interleaving the clients ever created with a token are at most its recorded uses, which never exceed its limit |
| `RegistrationTheorems.ClientsStayWithinTheirToken` | internal/services/registration_service_impl.go:101-226 | Through every registration and update a client's scopes stay within those of the token it was created with, and its type is what it was at creation |
| `RegistrationTheorems.TypeNeverChanges` | internal/services/registration_service_impl.go:195-226 | A client's public or confidential type is the same in any two states of a run |
| `RegistrationTheorems.OnlyTheHolderChanges` | internal/services/registration_service_impl.go:195-257 | Over every run a stored client changes or disappears only by an update or deletion that named it, in its tenant, and presented the registration access token whose hash was stored when it was registered |
| `RegistrationTheorems.ClientsKeepTheirHolder` | internal/services/registration_service_impl.go:160-257 | A stored client keeps the tenant and the registration access token of its registration |
| `RegistrationTheorems.OnlyGoodMetadataSpends` | internal/services/registration_service_impl.go:101-131 | A use is counted only after the metadata was found valid and within the token's scopes, and by a live token |
| `RegistrationAlone.IssueAlone` | internal/services/registration_service_impl.go:44-88 | Issuing a token alone, exactly: which requests are accepted, and the scopes, uses and lifetime of the new token |
| `RegistrationAlone.RevokeTokenAlone` | internal/services/registration_service_impl.go:94-96 | Revoking alone marks exactly an unrevoked token of the tenant |
| `RegistrationAlone.RegisterAlone` | internal/services/registration_service_impl.go:101-181 | Registering alone: a client is created exactly for valid metadata within the scopes of a live token of the tenant with a use left, one use is counted, and nothing else changes anything |
| `RegistrationAlone.UpdateAlone` | internal/services/registration_service_impl.go:195-257 | Updating alone: exactly with the client's own registration access token and id and with valid metadata of its type within its scopes the metadata changes, and nothing else |
| `RegistrationAlone.DeleteAlone` | internal/services/registration_service_impl.go:231-257 | Deleting alone: exactly with the client's own registration access token the row is removed, and nothing else |
| `MetadataRules.ValidExactly` | internal/services/client_metadata.go:55-182 | Validation accepts exactly the metadata whose sets of values obey each rule (section 2 of RFC 7591), complains of a redirect URI exactly when the rules before hold and one on URIs does not, and keeps the values sent, with its defaults |
| `RegistrationTheorems.ReadThenUpdateKeeps` | internal/services/registration_service_impl.go:184-226 | In every reachable state, sending what Read returns to Update leaves the metadata unchanged exactly when the client has at most 50 scopes (section 2.2 of RFC 7592) |
| `RegistrationTheorems.LongScopeListsAreTaken` | internal/services/registration_service_impl.go:112-119 | Such clients exist: for every number of scopes from 51 to 128, a run from empty tables issues an initial access token with that many and registers, with a document that names none, a client that takes them all over and whose read-back is refused |
| `RegistrationCalls.ReadThenUpdate` | internal/services/registration_service_impl.go:260-278 | The same for any normal client |
| `RegistrationCalls.ProposalIsNormal` | internal/services/registration_service_impl.go:108-119 | A registration is in normal form and within the token's scopes |
| `RegistrationCalls.ReplacementIsNormal` | internal/services/registration_service_impl.go:195-226 | An update is in normal form, only narrows the scopes and keeps the type |
| `RegistrationCalls.LifetimeRule` | internal/services/registration_service_impl.go:54-60 | The documented rule, that exactly lifetimes between 1 second and the maximum are accepted, fails for a lifetime if and only if its nanoseconds lie above a non-zero multiple of 2^64 by at least one and at most the maximum |
| `RegistrationCalls.LifetimeGuard` | internal/services/registration_service_impl.go:54-60 | It holds for every lifetime of at most 9223372036 seconds in absolute value |
| `RegistrationCalls.LifetimeWraps` | internal/services/registration_service_impl.go:54-60 | 18446744074 seconds is accepted as 0.29 seconds |
| `RegistrationService.RegistrationServiceImpl.CreateInitialAccessToken` | internal/services/registration_service_impl.go:44-88 | The method validates and stores exactly as the model's step does; alone and without errors it does what RegistrationAlone says |
| `RegistrationService.RegistrationServiceImpl.RevokeInitialAccessToken` | internal/services/registration_service_impl.go:94-96 | Revokes exactly an unrevoked token of the tenant; alone and without errors it does what RegistrationAlone says |
| `RegistrationService.RegistrationServiceImpl.RegisterClient` | internal/services/registration_service_impl.go:101-181 | The method runs exactly the statements of Register, whatever others do in between; alone and without errors it does what RegistrationAlone says |
| `RegistrationService.RegistrationServiceImpl.UpdateClient` | internal/services/registration_service_impl.go:195-228 | The method runs exactly the statements of Update, whatever others do in between; alone and without errors it does what RegistrationAlone says |
| `RegistrationService.RegistrationServiceImpl.ReadClient` | internal/services/registration_service_impl.go:184-257 | Shows the metadata exactly if the row is of the tenant and holds the hash of the token presented, which is not empty |
| `RegistrationService.RegistrationServiceImpl.DeleteClient` | internal/services/registration_service_impl.go:231-237 | The method runs exactly the statements of Delete on the client row; alone and without errors it does what RegistrationAlone says |
| `RegistrationWorlds.MachineCallsAreMethodRuns` | internal/services/registration_service_impl.go:44-237 | Every call of a run of the machine ends with the answer and the tables with which its method ends in the world that the other events of the run make up |
| `RegistrationService.InitialAccessTokenRepository.Consume` | internal/repo/gorm/initial_access_token.go:47-62 | Counts a use exactly of a live token with uses left |
| `ClientMetadata.ValidateClientMetadata` | internal/services/client_metadata.go:55-125 | The loops compute the normal form, or the kind of the first broken rule |
| `ClientMetadata.ValidateRegisteredUris` | internal/services/client_metadata.go:130-161 | Accepts exactly at most ten distinct URIs that satisfy the URI rules |
| `ClientMetadata.ValidScopeToken` | internal/services/client_metadata.go:172-182 | True exactly for scope-tokens of at most 128 bytes |
| `ClientMetadata.DedupeList` | internal/services/client_metadata.go:184-193 | The loop computes the trimmed, non-blank values without repetition |
| `ClientMetadata.DedupeHasAll` | internal/services/client_metadata.go:184-193 | Exactly the trimmed non-blank values are kept |
| `ClientMetadata.DedupeIsClean` | internal/services/client_metadata.go:184-193 | The result is trimmed, non-blank and without repetition |
| `ClientMetadata.DedupeKeepsClean` | internal/services/client_metadata.go:184-193 | Such a list is left as it is, so deduplication is idempotent |
| `ClientMetadata.RenderIsFixpoint` | internal/services/client_metadata.go:55-125 | Rendered metadata validates to itself exactly when it has at most 50 scopes |
| `DeviceRuns.DeviceCodeIsSafe` | internal/services/device_token_exchange.go:124-193 | Over every run a device code is decided at most once and yields tokens at most once: to its own client, after an approval before expiry and never after a denial, for the approving user and login, no sooner than the interval after any recorded poll (section 3.5 of RFC 8628) |
| `DeviceRuns.ApprovedCodeYieldsTokens` | internal/services/device_token_exchange.go:139-193 | Over every run a poll yields tokens exactly for a stored code of its tenant and client that was approved, unexpired and not within the interval after the last recorded poll, unless the delete or the issue errs; they are the approving user's, and the code is gone |
| `DeviceRuns.PollIsAnswered` | internal/services/device_token_exchange.go:139-193 | Every other poll by the client is told exactly that the code expired, to slow down, that it was denied, or to wait (section 3.5 of RFC 8628), and is recorded or the code removed |
| `DeviceRuns.DecisionIsTaken` | internal/services/device_token_exchange.go:124-137 | A decision is taken exactly while the code is undecided and unexpired, and the row then holds it |
| `DeviceRuns.SpentCodeIsRefused` | internal/services/device_token_exchange.go:139-193 | Once tokens were issued every later exchange of the code is refused and changes nothing |
| `DeviceRuns.StrangersLearnNothing` | internal/services/device_token_exchange.go:139-147 | A poll by another client or tenant is refused and changes nothing |
| `DeviceGrant.DeviceService.CreateDeviceAuthorization` | internal/services/device_token_exchange.go:54-105 | Stores a pending row with a positive interval and a later expiry unless a code is taken; the user code shown normalises to the one stored |
| `DeviceGrant.DeviceService.ExchangeDeviceCode` | internal/services/device_token_exchange.go:139-193 | The method does exactly what the model's exchange does, including logged storage errors |
| `DeviceGrant.DeviceService.ResolveDeviceCode` | internal/services/device_token_exchange.go:124-137 | Decides exactly the pending, unexpired row that carries the user code |
| `DeviceGrant.DeviceCodeRepository.GetByUserCode` | internal/repo/gorm/device_code.go:45-56 | Finds a row of the tenant with the user code whenever there is one |
| `DeviceGrant.FormatThenNormalize` | internal/services/device_token_exchange.go:27-39 | Normalising a formatted generated user code gives it back |
| `DeviceGrant.TypedUserCode` | internal/services/device_token_exchange.go:27-31 | So does normalising it typed with any case, dashes and spaces |
| `TokenExchange.ExchangeToken` | internal/services/device_token_exchange.go:195-277 | Succeeds exactly when the scope lies within the subject token's and the acting client's registration; subject and user are kept, the actor recorded |
| `TenantResolver.AnswersAreFresh` | internal/middleware/tenant_resolver.go:50-84 | Every answer no lookup error caused is the direct answer of the call's own lookup, or was the answer of the unexpired entry that it checked at instant c, which a call had looked up less than ttl, plus the latency of that one lookup, before c |
| `TenantWorlds.MachineCallsAreMethodRuns` | internal/middleware/tenant_resolver.go:50-84 | Every call of such a run ends with the answer and the cache with which Resolve ends in the world that the other events of the run make up |
| `TenantResolver.CacheIsBoundedAndTrue` | internal/middleware/tenant_resolver.go:50-84 | The cache holds at most 10000 entries, each the direct answer of a lookup that succeeded: errors are never cached |
| `TenantResolver.ResolveAlone` | internal/middleware/tenant_resolver.go:50-84 | A call alone: an unexpired entry is answered without a lookup; otherwise the tenant looked up, or that there is none, is answered and cached until ttl later, and an error is answered and not cached |
| `TenantResolver.DomainTenantResolver.Resolve` | internal/middleware/tenant_resolver.go:50-84 | The method runs exactly the steps of the model, whatever overlapping calls and tenant changes do in between; alone it does what ResolveAlone says |
| `ClientSecrets.CacheRefinesBcrypt` | internal/services/client_secret_cache.go:61-93 | Over every history of authentications, secret rotations and clock readings the cache changes no answer and holds at most 10000 entries |
| `ClientSecrets.VerifiedSecretIsCached` | internal/services/client_secret_cache.go:61-93 | Once bcrypt has verified a secret it is accepted from the cache, whatever bcrypt would say, exactly for the lifetime of the entry and for that client, stored hash and secret |
| `ClientSecrets.ClientService.ValidateClient` | internal/services/client_service_impl.go:230-257 | Answers as bcrypt alone would, with or without a cache, whatever concurrent calls store; and stores exactly a secret that bcrypt has just verified |
| `ClientSecrets.ClientSecretCache.Remember` | internal/services/client_secret_cache.go:76-87 | A full cache is emptied before the entry is stored |
| `PasswordResetRuns.ResetsAreLimited` | internal/services/user_service_impl.go:461-519 | Over every run any half-open hour holds at most 3 resets created for a user, and at most one of a user's resets is unused |
| `PasswordResetRuns.ResetCompletesExactly` | internal/services/user_service_impl.go:525-596 | Over every run a reset completes exactly for a long enough password and the token of an unused reset of the tenant, less than an hour old, of a user who is not suspended, if nothing errs; the user then has the new password, no failed logins, and no lockout that had an end, and the token is used; an attempt that is not due changes nothing |
| `PasswordResetRuns.ResetIsCreatedExactly` | internal/services/user_service_impl.go:461-519 | A request creates a reset exactly for a known user who is not suspended and had fewer than three in the hour before, if no statement up to the insert errs; it lasts an hour and is the user's only unused one |
| `PasswordResetRuns.ResetLeavesNothing` | internal/services/user_service_impl.go:525-596 | A completed reset leaves the user no session, access token, refresh token or unused reset |
| `PasswordResets.CleanupKeepsCounts` | internal/repo/gorm/email.go:276-302 | Cleanup never changes what a request counts |
| `PasswordResets.UserService.RequestPasswordReset` | internal/services/user_service_impl.go:461-519 | The method does exactly what the model's request does, at each point of failure |
| `PasswordResets.UserService.ResetPassword` | internal/services/user_service_impl.go:525-596 | The method does exactly what the model's redemption does, at each point of failure |
| `PasswordResets.UserService.RevokeUserCredentials` | internal/services/user_service_impl.go:702-718 | Sessions, then access tokens, then refresh tokens; what is left when one step fails |
| `RbacService.PermissionService.HasPermission` | internal/services/permission_service_impl.go:206-219 | True exactly when some unexpired assignment, active role, grant and existing permission match the resource with the action or manage |
| `RbacService.PermissionService.GetUserPermissions` | internal/services/permission_service_impl.go:223-271 | Exactly the permissions that reach the user, each once |
| `RbacService.PermissionService.Delete` | internal/services/permission_service_impl.go:151-187 | Detaches, then deletes; stops half way at the first failure, the last statement included |
| `RbacService.RoleService.Create` | internal/services/role_service_impl.go:45-117 | The method does what the model's call does, passing over unknown names and failed grants |
| `RbacService.RoleService.Update` | internal/services/role_service_impl.go:146-232 | The method does what the model's call does, passing over failed deletes and inserts |
| `RbacService.RoleService.Delete` | internal/services/role_service_impl.go:235-293 | The method does what the model's call does, passing over failed deletes of grants; if the last statement fails the role stays without the grants deleted so far |
| `Rbac.IntegrityKept` | internal/services/role_service_impl.go:235-277 | Every call, at each point of failure, keeps assignments and grants pointing to existing rows exactly when it is not a deletion of an unassigned role of the tenant that is no system role which deletes the row after failing to delete one of its grants, which Delete only logs |
| `Rbac.HistoryKeepsIntact` | internal/services/role_service_impl.go:45-539 | So does every sequence of such calls |
| `Rbac.HistoryKeepsSystem` | internal/services/role_service_impl.go:146-277 | Every sequence of calls leaves system roles and permissions undeleted and unchanged |
| `Rbac.DanglingGrantsAreHarmless` | internal/services/permission_service_impl.go:223-271 | A grant left behind by a deleted role reaches nobody |
| `RbacEffects.ReachesIsGiven` | internal/services/permission_service_impl.go:223-271 | A permission reaches a user exactly if a role that the user holds gives it |
| `RbacEffects.RoleCreationTakesEffect` | internal/services/role_service_impl.go:45-117 | A role is created exactly if its name is free; it gives exactly the named permissions whose grant was stored, and no other role or user changes |
| `RbacEffects.RoleUpdateTakesEffect` | internal/services/role_service_impl.go:146-232 | An update succeeds exactly for an existing role of the tenant that is no system role; a deactivated role gives nothing from then on, any other gives what it was granted or, if permissions were named, those and the ones whose old grant could not be deleted; no other role or user changes |
| `RbacEffects.RoleDeletionTakesEffect` | internal/services/role_service_impl.go:235-293 | A role is deleted exactly if it exists, is no system role and is assigned to nobody, and gives nothing then; nothing else changes for anybody |
| `RbacEffects.AssignmentTakesEffect` | internal/services/role_service_impl.go:446-502 | A user holds an assigned role until the assignment expires, and nothing else changes |
| `RbacEffects.RevocationTakesEffect` | internal/services/role_service_impl.go:505-539 | A role taken from a user is held no longer, by that user only |
| `RbacEffects.CleanupTakesNothing` | internal/repo/gorm/rbac.go:272-278 | Cleaning up assignments changes nobody's roles from then on |
| `RbacEffects.GrantTakesEffect` | internal/services/role_service_impl.go:311-416 | Granting or taking away a permission changes exactly that of what the role is granted |
| `RbacEffects.PermissionDeletionTakesEffect` | internal/services/permission_service_impl.go:151-187 | A permission is deleted exactly if it exists, is no system permission and can be detached from every role; exactly it is then missing from what roles give |
| `Consent.ConsentIsUnion` | internal/services/session_service_impl.go:98-142 | After any grants HasConsent holds exactly when something was granted and the scopes lie in the union of all that was; never before the first grant |
| `Consent.SessionService.GrantConsent` | internal/services/session_service_impl.go:109-128 | The row grows by exactly the granted scopes and no other row changes |
| `Consent.SessionService.HasConsent` | internal/services/session_service_impl.go:98-107 | True exactly when the row covers the scopes |
| `Consent.UnionScopes` | internal/services/session_service_impl.go:131-142 | The union of both lists without repetition |

## Left out

- TokenTheorems.RevocationIsFinal: speaks of `revokeTokenFamily` only; deletions by user or by client, which delete access rows first, are not steps of the token machine.
- MfaLockout.GuessBound: holds for whole calls; what remains of it when calls overlap is stated in MfaOverlap.
- DeviceRuns.DeviceCodeIsSafe: the interval counts from polls whose update was stored; the source logs a failed update and goes on.
- RegistrationService.RegistrationServiceImpl.DeleteClient: what deleting a client revokes besides its row is not modelled.
- TokenExchange.ExchangeToken: how a subject token is found to be live, and signing, are not modelled.
- Nonces, ID token contents, token events, audit records and log lines.
- Token families started by device codes, client credentials and token exchange are not in the token machine.
- Administrative client operations; a client's row id is identified with its client_id.
- The session rows that a change of the second factor ends; the step that ends them, and its failure, are modelled.
- Confirming an enrolment reads the clock twice in the source and once here; clock readings of the second factor are whole seconds.
- A permission decision reads the clock once per assignment in the source and once here.
- Host normalisation of the resolver (`net.SplitHostPort`), and upper-casing of letters outside a to z in typed codes.
- HTTP, cookies, CSRF, routing, HTML, rate limiting, metrics, mail delivery, configuration and migrations: plumbing around the services.
- Account lockout and suspension other than what a password reset reads and lifts.
- Listing, paging and discovery documents: only easy members.
