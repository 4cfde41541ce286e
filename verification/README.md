# VaultLog, modelled and proved in Dafny

The hard core of the VaultLog backend, and the two pieces of its frontend that complete a protocol, as Dafny
modules with proofs. `dafny verify dfyconfig.toml` checks all of it.

| module | what it holds |
|---|---|
| `Sets`, `Text`, `Sorting`, `Json` | set sizes; UTF-8, decimal and UUID text; insertion sort; Python's `json.dumps(sort_keys=True, separators=(",", ":"), ensure_ascii=False)` with a parser that undoes it (strings as in section 7 of RFC 8259) |
| `AuditHashing` | canonical event bytes and the framing of the hash input |
| `AuditService` | the metadata guard, `record`, `verify_chain`, tamper evidence |
| `AuditConcurrency` | any number of transactions over any number of tenants, as lock, insert, advance, commit and abort steps |
| `Paging` | keyset paging of the ledger while it grows |
| `RateLimiter` | the sliding window, with callers interleaved step by step and with one caller at a time |
| `RefreshTokens`, `RefreshRaces`, `BrowserClient` | sessions, token families and rotation with each use case one step; refresh and logout as interleaved transactions; the browser's single-flight refresh against those |
| `CipherContexts`, `SecretStore`, `SecretLedger`, `SecretRaces` | associated data, envelope encryption and versions; the store refines the written values, and the ledger tells each secret's story, with rotations and deletions interleaved as well |
| `Membership`, `Mfa`, `MfaRaces` | whole-run invariants of register, invite, accept and remove, and of enroll, confirm, login and disable; confirmations and code redemptions as interleaved transactions |
| `Revisions` | the migration walk `is_upgrade_revision` |

Services that change rows are classes whose methods make the repository calls in the order the code makes them and are
proved equal to a step function on the tables, including what a rollback or a commit on error leaves behind. The
properties are lemmas about runs of those step functions.

## Assumptions

- SHA-256 is a parameter. Tamper evidence asks that it returns 32 bytes and has no collision on the inputs of the two
  ledgers compared; nothing else about it is used. `str.lower` is a parameter as well.
- The cipher and the key wrapping are one pair of functions (`CipherContexts.Lawful`): opening gives the plaintext back
  under the same key, nonce and associated data, and fails otherwise.
- Identifiers, tokens and nonces that the code draws at random are parameters of each step and may repeat; a repeat that
  a unique constraint catches is a failing step that rolls back.
- A row lock re-reads the latest committed row; inserting a tenant's first head row is a step of its own that waits for,
  or fails on, another transaction's insert.
- In the limiter, members are fresh and the server's clock does not run backwards. It is ahead of a call's timestamp by
  an unknown offset plus the time the call takes to arrive, which varies by at most the *spread*; calls may overtake one
  another on the way. Only for callers one after the other are timestamps taken to be in order.
- PostgreSQL's default isolation level: each statement sees what is committed when it runs. Sessions do not flush on
  their own, so changed rows are written at the commit.

## What the code does not do

Eight places where code and promise differ, each with the condition under which they agree and an input where they do
not:

- The decision record 0008 keeps forbidden keys out of audit metadata, but the walk does not enter lists:
  `AuditService.GuardExact`, `AuditService.GuardMissesList`.
- `verify_chain` without a head row accepts any prefix (`AuditService.NoHeadAcceptsPrefixes`), and
  `VerifyTenantChain` reads events and head in two statements, so a commit in between is reported as an inconsistent
  head: `AuditConcurrency.VerifierReadSkew`, `AuditConcurrency.CommitBetweenReads`.
- The key of the limiter expires one window after the last pipeline on the server's clock, while entries are stamped
  before the way there. At most `capacity` calls are admitted in a window less the spread of that delay, and not in any
  longer one, and only with `fail_closed=True`: `RateLimiter.BoundIff`, `RateLimiter.LateArrivalExceeds`. With one
  caller at a time the decisions are those of the sliding window if and only if there is no spread:
  `RateLimiter.SequentialExactIff`.
- Refresh locks the row of the token but not of the session, and logout locks nothing. A logout committed inside a
  refresh leaves a revoked session that gains a token, and two overlapping revocations overwrite each other:
  `RefreshRaces.RevokedGainsIff`, `RefreshRaces.LogoutDuringRefresh`, `RefreshRaces.RevocationOverwrittenIff`,
  `RefreshRaces.OverlappingLogouts`.
- A user without membership gets an error from a refresh that is committed, and the error response does not delete
  the cookie, so the next refresh looks like reuse. It happens then and only then: `BrowserClient.RevokedForReuseIff`,
  `BrowserClient.UndeliveredRotation`, `BrowserClient.LostMembershipLooksLikeReuse`.
- A confirmation locks nothing between reading the pending record and loading it again, nor between deleting the old
  codes and inserting its own. A disable in between leaves MFA enabled without a record, an overlapping confirmation
  leaves more than ten codes: `MfaRaces.EnabledWithoutRecordIff`, `MfaRaces.GoneOnlyByDisable`, `MfaRaces.TenCodesIff`,
  `MfaRaces.DisabledWhileConfirming`, `MfaRaces.OverlappingConfirmations`.
- An invitation revoked while it is being accepted still gives a membership and is marked accepted:
  `Membership.AcceptedUnrevokedIff`, `Membership.RevokedThenAccepted`.
- `is_upgrade_revision` answers no for a direct parent of a merge: `Revisions.MergeParentMissed`,
  `Revisions.AcyclicExactness`.

## Model

| member | source | states |
|---|---|---|
| Text.DecodeEncode | backend/src/vaultlog/domain/audit/hashing.py:38-40 | UTF-8 decoding undoes encoding for every string |
| Text.EncodeInjective | backend/src/vaultlog/domain/audit/hashing.py:38-40 | two strings with equal UTF-8 bytes are equal |
| Text.UuidTextInjective | backend/src/vaultlog/domain/secrets/aad.py:6-11 | the 36-character text of a UUID determines it |
| Text.UuidTextReads | backend/src/vaultlog/domain/secrets/aad.py:6-11 | the digits of the text in order are those of the UUID, with hyphens at positions 8, 13, 18 and 23 |
| Json.ParsePrint | backend/src/vaultlog/domain/audit/hashing.py:38-40 | a parser reads every printed value back, escapes included, and stops exactly where the value ends |
| Json.CanonKeepsMeaning | backend/src/vaultlog/domain/audit/hashing.py:38-40 | sort_keys puts every nested dictionary in ascending key order and changes no JSON value |
| Json.CanonicalInjective | backend/src/vaultlog/domain/audit/hashing.py:38-40 | two values in canonical order with the same JSON meaning are the same value, entry for entry |
| Json.DumpsDecidesMeaning | backend/src/vaultlog/domain/audit/hashing.py:38-40 | the printed text of two values is equal if and only if they are the same JSON value, whatever the insertion order of keys |
| Json.DumpsRoundTrip | backend/src/vaultlog/domain/audit/hashing.py:38-40 | parsing the printed text consumes all of it and gives the same JSON value |
| AuditHashing.TimeTextInjective | backend/src/vaultlog/domain/audit/hashing.py:36 | the timestamp text determines the UTC time to the microsecond |
| AuditHashing.TimeTextReads | backend/src/vaultlog/domain/audit/hashing.py:36 | year, month, day, hour, minute, second and microsecond are read back from their places in YYYY-MM-DDTHH:MM:SS.ffffffZ |
| AuditHashing.CanonicalReadsBack | backend/src/vaultlog/domain/audit/hashing.py:26-40 | the canonical bytes decode and parse to the JSON object with the ten values of the event under their names and nothing else |
| AuditHashing.CanonicalBytesDecideFields | backend/src/vaultlog/domain/audit/hashing.py:12-40 | canonical bytes of two events are equal if and only if all ten hashed fields are, metadata compared as a JSON object |
| AuditHashing.CanonicalStarts | backend/src/vaultlog/domain/audit/hashing.py:26-40 | every canonical form starts with an opening brace, and its eighth byte is the n of "action" |
| AuditHashing.FramingUnambiguous | backend/src/vaultlog/domain/audit/hashing.py:9-45 | equal hash inputs have the same previous hash (or both none) and the same ten fields, although the genesis tag has 25 bytes and a digest 32 |
| AuditService.CollectKeys | backend/src/vaultlog/domain/audit/services.py:21-27 | the loop collects exactly the keys of dictionaries nested in dictionaries |
| AuditService.WalkMissesLists | backend/src/vaultlog/domain/audit/services.py:21-27 | a key occurs in the metadata if and only if the walk finds it or it lies inside a list |
| AuditService.GuardExact | backend/src/vaultlog/domain/audit/services.py:63-66 | metadata that passes the guard is free of forbidden keys if and only if none of them lies inside a list |
| AuditService.GuardMissesList | backend/src/vaultlog/domain/audit/services.py:63-66 | a concrete forbidden key inside a list passes the guard |
| AuditService.WalkReaches | backend/src/vaultlog/domain/audit/services.py:21-27 | the walk finds exactly the keys of dictionaries reached through dictionaries only |
| AuditService.AuditTables.LockOrCreateHead | backend/src/vaultlog/infrastructure/database/repositories/audit.py:34-48 | returns the tenant head, or stores and returns the genesis head; no other row changes |
| AuditService.AuditTables.InsertEvent | backend/src/vaultlog/infrastructure/database/repositories/audit.py:50-67 | appends the row unless the tenant has its sequence or hash or any tenant has its id |
| AuditService.AuditTables.AdvanceHead | backend/src/vaultlog/infrastructure/database/repositories/audit.py:69-82 | sets the last sequence and hash of one head and nothing else |
| AuditService.AuditTables.Record | backend/src/vaultlog/domain/audit/services.py:50-106 | the repository calls in order compute RecordStep on the two tables, whose answer and new row are stated in RecordOutcome, and roll back on failure |
| AuditService.RecordOutcome | backend/src/vaultlog/domain/audit/services.py:50-106 | on a verifying ledger record answers for the request alone: unknown action, then a forbidden key reached through dictionaries, then a used id or hash; otherwise exactly the row that has the user, session, action, target, outcome, metadata, id and time of the request and continues the chain is appended, the head follows and no other ledger changes |
| AuditService.RecordKeepsChain | backend/src/vaultlog/domain/audit/services.py:50-106 | record keeps a verifying ledger verifying, appends at most one event with the next sequence, changes nothing when it fails and never another tenant; only a repeated id or hash can violate a constraint |
| AuditService.VerifyChain | backend/src/vaultlog/domain/audit/services.py:126-184 | the loop returns the verdict of the specification: the first bad row with its first failing test, else the head test, else ok |
| AuditService.VerdictMeaning | backend/src/vaultlog/domain/audit/services.py:126-184 | ok exactly for well-formed chains that match the head; events_checked is the longest well-formed prefix; failure_sequence is the next row for a row failure and absent for a head failure; the reason is the first test the row, or else the head, fails |
| AuditService.SameLastHashSameHistory | backend/src/vaultlog/domain/audit/hashing.py:43-45 | two well-formed ledgers that end in the same hash have the same length and agree in every hashed field, if the hash has no collision on their inputs |
| AuditService.TamperEvidence | backend/src/vaultlog/domain/audit/services.py:126-184 | any list that verifies against the head of a verified ledger is that ledger: no proper prefix, reordering or edit does |
| AuditService.NoHeadAcceptsPrefixes | backend/src/vaultlog/domain/audit/services.py:174-184 | without a head row every prefix of a verified ledger verifies; against its head only the whole ledger does |
| AuditConcurrency.InvStep | backend/src/vaultlog/infrastructure/database/repositories/audit.py:34-82 | every lock, insert, advance, commit and abort step keeps the chain, the lock exclusion and each open transaction consistent with them |
| AuditConcurrency.CommittedChainsVerify | backend/src/vaultlog/domain/audit/services.py:68-106 | in every state of every interleaving over any tenants, committed sequences are 1..n and verify_chain returns ok having checked n events |
| AuditConcurrency.AppendOnly | backend/src/vaultlog/infrastructure/database/repositories/audit.py:50-67 | in every interleaving the rows of a tenant only grow at the end |
| AuditConcurrency.CommittedRowsDescribe | backend/src/vaultlog/domain/audit/services.py:68-106 | in every state of every interleaving each committed row has the actor, session, action, target, outcome, metadata, id and time of a request that a transaction of its tenant recorded before |
| AuditConcurrency.VerifierReadSkew | backend/src/vaultlog/application/audit/use_cases.py:109-118 | events and head read at two moments agree if and only if nothing of the tenant was committed in between |
| AuditConcurrency.CommitBetweenReads | backend/src/vaultlog/application/audit/use_cases.py:109-118 | for every request, a run in which its event is committed between the two reads, which then do not verify together |
| AuditConcurrency.SoloRecordRefines | backend/src/vaultlog/domain/audit/services.py:50-106 | a transaction that meets no other lock holder never blocks and commits what record computes |
| Paging.OnePage | backend/src/vaultlog/infrastructure/database/repositories/audit.py:84-106 | one page and its next parameter split the listing: the page is a prefix and exactly the rest lies below the parameter |
| Paging.MatchingIsDescending | backend/src/vaultlog/infrastructure/database/repositories/audit.py:84-106 | filtering and ORDER BY sequence DESC on a table numbered 1..n reads it backwards |
| Paging.PagingExact | frontend/domains/audit/queries.ts:14-27 | following the next-page parameter terminates, and the pages together are the events of the first request with the action and target asked for, each once, in descending order, whatever is appended meanwhile |
| Paging.PagingExactUnderRecording | frontend/domains/audit/queries.ts:14-27 | the same for pages served at arbitrary later states of any concurrent execution of recorders |
| RateLimiter.InvStep | backend/src/vaultlog/infrastructure/security/rate_limit.py:27-57 | every pipeline, lost reply, failed, late or unanswered removal keeps the entries right and the bound |
| RateLimiter.AtMostCapacity | backend/src/vaultlog/infrastructure/security/rate_limit.py:27-57 | in any interleaving with fail-closed callers, who may overtake one another between stamp and pipeline, and any Redis errors, key expiry included, at most capacity admitted calls have timestamps in (t - w, t], for every t and every w up to the window less the spread of the lag between stamp and execution |
| RateLimiter.BoundIff | backend/src/vaultlog/infrastructure/security/rate_limit.py:27-57 | over all executions with a given lag the bound on windows of length w is never exceeded if and only if w <= 0, or callers fail closed and w is at most the window less the spread; so the whole window is safe exactly when the lag has no spread |
| RateLimiter.LateArrivalExceeds | backend/src/vaultlog/infrastructure/security/rate_limit.py:42-57 | any positive lag that a pipeline can have lets capacity + 1 calls into every window longer than the rest: the key expired although the earlier calls still lie in it |
| RateLimiter.RedisRateLimiter.Check | backend/src/vaultlog/infrastructure/security/rate_limit.py:27-57 | the pipeline and the separate removal compute CheckStep, with the answer and the state each error before or after either round trip leaves behind |
| RateLimiter.CheckAnswers | backend/src/vaultlog/infrastructure/security/rate_limit.py:27-57 | a check is unavailable exactly when it fails closed and a round trip it made went wrong, refused exactly when none did and the window was full, and admitted otherwise |
| RateLimiter.CheckIsSteps | backend/src/vaultlog/infrastructure/security/rate_limit.py:27-57 | a check that meets no other, with any errors, takes steps of the interleaved model that end in the same key and count the call as admitted exactly when the caller is let through |
| RateLimiter.CheckRefines | backend/src/vaultlog/infrastructure/security/rate_limit.py:42-57 | one undisturbed check is refused only when capacity admitted calls lie in the window, admitted only when fewer lie in the window less the spread, and leaves no entry when refused |
| RateLimiter.SequentialBounds | backend/src/vaultlog/infrastructure/security/rate_limit.py:42-57 | over any list of calls made one after the other, with any lag, every decision lies between those two specifications |
| RateLimiter.SequentialEntries | backend/src/vaultlog/infrastructure/security/rate_limit.py:42-57 | after any list of calls made one after the other the stored set lies between the admitted calls of the window and those of the window less the spread, with their timestamps; with no spread it is exactly the admitted calls still in the window at the last stamp |
| RateLimiter.SequentialExactIff | backend/src/vaultlog/infrastructure/security/rate_limit.py:42-57 | the limiter decides every such list as the sliding-window specification does if and only if the lag has no spread |
| RefreshTokens.IdentityStore.IssueCredentials | backend/src/vaultlog/domain/identity/services.py:42-66 | session and first token are added together or not at all, and the access token carries the methods of the login |
| RefreshTokens.IdentityStore.ExecuteRefresh | backend/src/vaultlog/application/identity/use_cases.py:174-193 | the refresh, with its commit on an authentication error, computes RefreshStep |
| RefreshTokens.IdentityStore.ExecuteLogout | backend/src/vaultlog/domain/identity/services.py:210-221 | revokes the session of a known token once, else changes nothing |
| RefreshTokens.LoginOutcome | backend/src/vaultlog/domain/identity/services.py:42-66 | over runs a login is granted exactly when the user has a membership and the drawn ids are new; the access token names the user, the tenant of the last join with no leave since, the new session and the methods of the login; the session starts live with one unused token for the lifetime from now on |
| RefreshTokens.RefreshOutcome | backend/src/vaultlog/domain/identity/services.py:157-208 | over runs a refresh is granted exactly for a live session, an unused, unrevoked and unexpired token, new ids and a membership, with the user, methods and tenant they say; a good token is rotated with or without a membership |
| RefreshTokens.LogoutOutcome | backend/src/vaultlog/domain/identity/services.py:210-221 | a logout with any token of a live session revokes it for that reason and its family is dead from then on; every other logout changes nothing |
| RefreshTokens.InvStep | backend/src/vaultlog/domain/identity/services.py:157-208 | every use case keeps the hash index and one token chain per session |
| RefreshTokens.RunKeepsInv | backend/src/vaultlog/application/identity/use_cases.py:174-193 | the chain invariant holds in every state of every run, after the committed errors too |
| RefreshTokens.ChainMeaning | backend/src/vaultlog/domain/identity/services.py:157-208 | in every reachable state a session has exactly one unused token, and a token is used if and only if it has a successor, in the same session and other than itself |
| RefreshTokens.RunPreserves | backend/src/vaultlog/domain/identity/services.py:157-221 | over any run sessions keep user and methods, revocations keep time and reason, used tokens stay used and revoked sessions gain no token |
| RefreshTokens.TokenSucceedsOnce | backend/src/vaultlog/domain/identity/services.py:157-208 | a raw refresh token is accepted at most once in a run |
| RefreshTokens.DeadTokenKillsFamily | backend/src/vaultlog/domain/identity/services.py:166-184 | presenting a used, revoked or expired token leaves its family dead for the rest of the run: the session stays revoked, nothing is granted for it and it gains no token |
| RefreshTokens.ReuseKillsFamily | backend/src/vaultlog/domain/identity/services.py:157-208 | if a token was accepted and is presented again, its family is dead from then on |
| RefreshTokens.DeadTokenRevokes | backend/src/vaultlog/domain/identity/services.py:166-184 | the step itself revokes a live session at that time and for the matching reason and changes no token |
| RefreshTokens.RevokedForGood | backend/src/vaultlog/domain/identity/services.py:157-221 | with each use case one step, a revoked session grants nothing, gains no token and keeps its revocation; RefreshRaces says when that fails between steps |
| RefreshTokens.AmrFixedAtCreation | backend/src/vaultlog/domain/identity/services.py:42-66 | all access tokens of a session carry the user and the amr of its creation |
| RefreshRaces.ReachableInv | backend/src/vaultlog/infrastructure/database/repositories/identity.py:184-224 | with refresh and logout read and committed in separate steps, any interleaving keeps one token chain per session, every lock exclusive and every open transaction true to its token and session |
| RefreshRaces.TokenRotatesOnce | backend/src/vaultlog/infrastructure/database/repositories/identity.py:199-205 | under the lock on the token row a token is rotated at most once in any interleaving, granted or not |
| RefreshRaces.RevokedGainsIff | backend/src/vaultlog/domain/identity/services.py:165-208 | a token is added to a revoked session if and only if a revocation was committed between the refresh reading the session and committing |
| RefreshRaces.RevocationOverwrittenIff | backend/src/vaultlog/infrastructure/database/repositories/identity.py:160-171 | a revocation overwrites another one if and only if that one was committed between its reading of the session and its commit |
| RefreshRaces.OnlyInFlightGranted | backend/src/vaultlog/domain/identity/services.py:157-208 | after a revocation only a refresh that had read the session before it is still granted |
| RefreshRaces.LogoutDuringRefresh | backend/src/vaultlog/application/identity/use_cases.py:174-221 | from any state with a usable token, a logout inside a refresh leaves a revoked session with a new unused token and an access token granted |
| RefreshRaces.OverlappingLogouts | backend/src/vaultlog/domain/identity/services.py:210-221 | from any state with a live session, two overlapping logouts: the second commit overwrites the revocation time of the first |
| RefreshRaces.AloneIsRefresh | backend/src/vaultlog/application/identity/use_cases.py:174-193 | a refresh whose steps meet no other is the single step of RefreshTokens, answer included |
| RefreshRaces.AloneIsLogout | backend/src/vaultlog/application/identity/use_cases.py:211-221 | the same for a logout |
| BrowserClient.InvNext | frontend/lib/api/client.ts:96-115 | every step of browser, server transactions and other clients keeps the held cookies safe to present, up to rotations that went unanswered |
| BrowserClient.SingleFlight | frontend/lib/api/client.ts:96-115 | while a refresh is under way every further call joins it; otherwise it is sent with the cookie |
| BrowserClient.RefreshSteps | frontend/lib/api/client.ts:96-115 | the refresh sent with the cookie is served with it, and the token of a granted answer becomes the cookie |
| BrowserClient.RevokedForReuseIff | frontend/lib/api/client.ts:96-147 | in any interleaving with the transactions of the server, a step revokes a session of this browser for reuse if and only if it commits a refresh of that session with a token that an earlier commit of the browser rotated while the user had no membership |
| BrowserClient.NeverRevokedForReuse | frontend/lib/api/client.ts:96-147 | so no such session is ever revoked for reuse as long as the users have their memberships whenever a refresh of the browser is committed |
| BrowserClient.UndeliveredRotation | backend/src/vaultlog/domain/identity/services.py:185-208 | a rotation answered with an error because of a missing membership makes the next presentation of the same token revoke the session for reuse |
| BrowserClient.LostMembershipLooksLikeReuse | backend/src/vaultlog/presentation/api/v1/auth.py:283-287 | a run of this browser system in which every answer is delivered and only the membership is lost ends in a reuse revocation |
| CipherContexts.AadReads | backend/src/vaultlog/domain/secrets/aad.py:6-11 | both associated data decode to their prefix, the identifiers in order and the decimal version, between colons |
| CipherContexts.SecretAadInjective | backend/src/vaultlog/domain/secrets/aad.py:6-7 | equal associated data means equal tenant, vault, secret and version |
| CipherContexts.DekWrapAadInjective | backend/src/vaultlog/domain/secrets/aad.py:10-11 | equal associated data means equal tenant and key version |
| CipherContexts.AadFamiliesDisjoint | backend/src/vaultlog/domain/secrets/aad.py:6-11 | no associated data belongs to both families |
| SecretStore.SecretDatabase.AddSecret | backend/src/vaultlog/infrastructure/database/repositories/secrets.py:123-147 | adds the row unless the id or the name in the vault exists, deleted rows included |
| SecretStore.SecretDatabase.SoftDelete | backend/src/vaultlog/infrastructure/database/repositories/secrets.py:199-216 | marks a live secret of the tenant deleted; nothing else changes, so its name stays taken in the vault |
| SecretStore.SecretDatabase.ProvisionTenantKey | backend/src/vaultlog/application/secrets/use_cases.py:65-70 | wraps a new key as version 1 unless one is active or stored |
| SecretStore.SecretDatabase.CreateSecret | backend/src/vaultlog/application/secrets/use_cases.py:86-117 | secret, version 1 and audit event together, or a full rollback |
| SecretStore.SecretDatabase.RotateSecret | backend/src/vaultlog/application/secrets/use_cases.py:200-233 | new version row, current_version and audit event together, or a full rollback |
| SecretStore.SecretDatabase.DeleteSecret | backend/src/vaultlog/application/secrets/use_cases.py:249-278 | soft delete and audit event together, or a full rollback; a denial is recorded in a second transaction |
| SecretStore.SecretDatabase.RevealSecret | backend/src/vaultlog/application/secrets/use_cases.py:155-184 | returns the stored value and records the access, or records the denial |
| SecretStore.StepSimulates | backend/src/vaultlog/application/secrets/use_cases.py:65-278 | every use case answers as the specification without encryption does, failures included, and keeps the encrypted rows a representation of the written values |
| SecretStore.RevealIsSpec | backend/src/vaultlog/domain/secrets/services.py:89-116 | decrypting from a represented store gives what the written values say |
| SecretStore.StoreRefinesWrittenValues | backend/src/vaultlog/domain/secrets/services.py:44-156 | after any run every operation answers what the specification answers, reveal(k) of an active secret is the k-th value written, reveal without a version the last, anything else not found, and the audit rows are those of the specification |
| SecretStore.WritesSucceed | backend/src/vaultlog/application/secrets/use_cases.py:86-233 | with a key provisioned, access allowed and the event recorded, creating under a new id and name returns Created, and rotating an active secret returns the next version |
| SecretStore.SealSucceeds | backend/src/vaultlog/domain/secrets/key_service.py:43-53 | loading the active key and encrypting succeeds exactly for a provisioned tenant, under key version 1 |
| SecretStore.EarlierRevealsKept | backend/src/vaultlog/domain/secrets/services.py:118-156 | a version once revealed is revealed the same as long as the secret is active |
| SecretStore.ForeignRowsFail | backend/src/vaultlog/domain/secrets/key_service.py:55-68 | a key row of another master key does not unwrap, a version row of another tenant is not found, a key of another length is not used |
| SecretStore.SwappedRowFails | backend/src/vaultlog/domain/secrets/services.py:103-116 | with the encrypted columns of any other stored row reveal fails |
| SecretStore.SwappedKeyFails | backend/src/vaultlog/domain/secrets/key_service.py:55-68 | a wrapped key read in place of another does not unwrap |
| SecretLedger.StepAgrees | backend/src/vaultlog/application/secrets/use_cases.py:86-278 | every use case keeps the audit events in agreement with the secret rows |
| SecretLedger.LedgerMatchesStore | backend/src/vaultlog/application/secrets/use_cases.py:86-278 | in every committed state the events about a secret are one creation, rotations to 2..current_version in order and, exactly if it is deleted, one final deletion; other tenants have none |
| SecretLedger.EventsOutcome | backend/src/vaultlog/application/secrets/use_cases.py:86-278 | after any run a use case that succeeds leaves exactly one row in the ledger of its actor, with actor, session, action, target, outcome, vault and its own details, id and time; one that fails without a denied access leaves none |
| SecretLedger.DeniedOutcome | backend/src/vaultlog/application/audit/use_cases.py:31-53 | after any run a denied access answers Forbidden and changes no secret; if the denial is audited, the ledger of the actor grows by the one access.denied row with the given target and attempted action, unless its id or hash is used or the guard refuses it; otherwise nothing is recorded |
| SecretLedger.LedgersVerify | backend/src/vaultlog/application/secrets/use_cases.py:86-278 | the ledger of every tenant verifies in every committed state |
| SecretRaces.Serializable | backend/src/vaultlog/infrastructure/database/repositories/secrets.py:165-237 | rotations that lock the row and deletions that read it first and mark it later, in any interleaving with everything else, have in each state the tables of the whole use cases in the order of their commits |
| SecretRaces.LedgerMatchesStoreInterleaved | backend/src/vaultlog/application/secrets/use_cases.py:200-278 | so the ledger tells the story of each secret in every state of every interleaving |
| Membership.OrganizationDatabase.RegisterUser | backend/src/vaultlog/domain/identity/services.py:95-116 | user, organization and owner membership together, or nothing |
| Membership.OrganizationDatabase.CreateInvitation | backend/src/vaultlog/domain/organizations/services.py:79-130 | adds a pending invitation exactly when roles, the pending check and the unique columns allow it |
| Membership.OrganizationDatabase.RevokeInvitation | backend/src/vaultlog/domain/organizations/services.py:140-157 | marks a pending invitation of the tenant revoked |
| Membership.OrganizationDatabase.AcceptInvitationFirst | backend/src/vaultlog/application/organizations/use_cases.py:184-210 | first transaction: a live invitation is found, and its user found or created |
| Membership.OrganizationDatabase.AcceptInvitationSecond | backend/src/vaultlog/application/organizations/use_cases.py:212-223 | second transaction: membership and acceptance mark, or neither |
| Membership.OrganizationDatabase.ExecuteRemoveMember | backend/src/vaultlog/domain/organizations/services.py:167-203 | removes a member of the tenant, never an owner or the actor, and no admin by an admin |
| Membership.RegisterOutcome | backend/src/vaultlog/domain/identity/services.py:95-116 | a registration succeeds exactly for a new email and new ids, and adds user, organization and owner |
| Membership.InviteOutcome | backend/src/vaultlog/domain/organizations/services.py:79-130 | an invitation is created exactly for an email free when checked, an invitable role that is not an admin by an admin, a known tenant with none pending for the email, and new ids; it is that row; no tenant ever has two pending for one email |
| Membership.RevokeOutcome | backend/src/vaultlog/domain/organizations/services.py:140-157 | a revocation marks exactly a pending invitation of the tenant |
| Membership.AcceptFirstOutcome | backend/src/vaultlog/application/organizations/use_cases.py:184-210 | an acceptance begins exactly when the token opens an invitation neither accepted nor revoked nor expired, the password is accepted and the invited user has no membership or is new; it remembers that invitation and user |
| Membership.AcceptSecondOutcome | backend/src/vaultlog/application/organizations/use_cases.py:212-223 | the second half adds the membership of the invitation as read exactly when the user still has none and the id is new, and then marks it accepted |
| Membership.MembersBeganInTime | backend/src/vaultlog/application/organizations/use_cases.py:184-223 | over runs every membership but that of an owner was added by an acceptance that began with the token of an invitation of its tenant, role and email that was not expired then |
| Membership.RemoveOutcome | backend/src/vaultlog/domain/organizations/services.py:167-203 | a membership is removed exactly after a step-up, in its tenant, by someone else, when it is not of an owner and, for an admin, not of an admin |
| Membership.InvStep | backend/src/vaultlog/application/organizations/use_cases.py:86-278 | every use case, and each half of an acceptance, keeps the invariants |
| Membership.MembershipInvariants | backend/src/vaultlog/domain/organizations/services.py:79-203 | in every state of every interleaving each organization has exactly one owner membership, each user at most one membership, and every other membership an accepted invitation of the same tenant, role and email |
| Membership.OwnerForever | backend/src/vaultlog/domain/organizations/services.py:167-203 | the owner membership of an organization is the same one forever |
| Membership.AcceptedUnrevokedIff | backend/src/vaultlog/application/organizations/use_cases.py:184-223 | when an acceptance adds its membership and marks its invitation accepted, the invitation is unrevoked if and only if no revocation succeeded between its two transactions |
| Membership.RevokedThenAccepted | backend/src/vaultlog/application/organizations/use_cases.py:184-223 | a run in which the invitation ends both revoked and accepted and the membership exists |
| Mfa.MfaDatabase.AddBatch | backend/src/vaultlog/infrastructure/database/repositories/identity.py:302-305 | inserts the whole batch, or fails if and only if a hash repeats or exists |
| Mfa.MfaDatabase.StartTotpEnrollment | backend/src/vaultlog/domain/identity/services.py:254-260 | replaces the TOTP record by an unconfirmed one and leaves mfa_enabled alone |
| Mfa.MfaDatabase.ConfirmEnrollment | backend/src/vaultlog/domain/identity/services.py:262-279 | confirms the record, enables MFA and replaces the recovery codes, or nothing |
| Mfa.MfaDatabase.CompleteMfaLogin | backend/src/vaultlog/domain/identity/services.py:292-331 | tries TOTP, then redeems a recovery code; a failed login redeems none |
| Mfa.MfaDatabase.DisableMfa | backend/src/vaultlog/domain/identity/services.py:344-347 | removes record and codes and disables MFA |
| Mfa.LoginOutcome | backend/src/vaultlog/domain/identity/services.py:292-331 | in every state of every run a login succeeds without a recovery code exactly when allowed, enabled, issued and with a right code for a confirmed record, with a recovery code exactly when that fails and the code is an unused one of the user; a refused login changes nothing |
| Mfa.ConfirmOutcome | backend/src/vaultlog/domain/identity/services.py:262-279 | a confirmation succeeds exactly for a pending record, a right code and new codes; it confirms that record, enables MFA and leaves exactly those codes, unused |
| Mfa.OtherOutcomes | backend/src/vaultlog/domain/identity/services.py:254-347 | a step-up is granted exactly for a right code; starting an enrollment replaces the record; disabling removes record and codes; none touches another user |
| Mfa.CodesAfter | backend/src/vaultlog/domain/identity/services.py:254-347 | which recovery codes each user has, and which are used, after every operation |
| Mfa.UsedAreRedeemed | backend/src/vaultlog/infrastructure/database/repositories/identity.py:307-320 | the used codes are exactly those redeemed since the last confirmation, no code twice |
| Mfa.MfaInvariants | backend/src/vaultlog/domain/identity/services.py:254-347 | a confirmed record implies mfa_enabled, mfa_enabled implies a record, codes number 10 while enabled and 0 otherwise, and at most 10 logins used one since the last confirmation |
| MfaRaces.ReachableInv | backend/src/vaultlog/infrastructure/database/repositories/identity.py:242-320 | in every interleaving locked recovery codes exist, belong to their user and are locked once, and one being redeemed is unused |
| MfaRaces.RedeemedOnce | backend/src/vaultlog/infrastructure/database/repositories/identity.py:307-320 | under the lock on its row a recovery code is redeemed at most once in any interleaving, unless a confirmation issues the same code again in between |
| MfaRaces.AloneIsConfirm | backend/src/vaultlog/domain/identity/services.py:262-279 | a confirmation whose steps meet no other is the single step of Mfa |
| MfaRaces.AloneIsLogin | backend/src/vaultlog/domain/identity/services.py:288-331 | the same for a login with a recovery code |
| MfaRaces.EnabledWithoutRecordIff | backend/src/vaultlog/domain/identity/services.py:262-279 | a step leaves MFA enabled without a TOTP record if and only if it commits a confirmation that found no record when it loaded it again, and none is there |
| MfaRaces.GoneOnlyByDisable | backend/src/vaultlog/domain/identity/services.py:262-279 | that record was removed by a disable committed between the two readings of the confirmation |
| MfaRaces.TenCodesIff | backend/src/vaultlog/domain/identity/services.py:275-279 | a confirmation leaves exactly ten codes if and only if every code the user has at its commit was there when it deleted the old ones |
| MfaRaces.AloneLeavesTen | backend/src/vaultlog/domain/identity/services.py:275-279 | so it leaves ten unless another confirmation of the user is committed between its deletion and its commit |
| MfaRaces.DisabledWhileConfirming | backend/src/vaultlog/domain/identity/services.py:262-279 | from any pending enrollment, a run that ends with MFA enabled and no record |
| MfaRaces.OverlappingConfirmations | backend/src/vaultlog/domain/identity/services.py:262-279 | from any pending enrollment, two overlapping confirmations that leave twenty codes |
| Revisions.AcyclicOrMergeFree | backend/scripts/rls/apply.py:50-79 | acyclic graphs and merge-free graphs, cyclic or not, have no merge on a cycle, which is all the walk needs to terminate |
| Revisions.IsUpgradeRevision | backend/scripts/rls/apply.py:50-79 | the walk terminates; No exactly when no way from end leads to start through a revision with start as its only parent or to an unknown revision, otherwise what the first way, trying the parents of merges in order, comes to |
| Revisions.AnswerUnique | backend/scripts/rls/apply.py:50-79 | that specification leaves one answer, a failed lookup before a yes included |
| Revisions.AnswerMeaning | backend/scripts/rls/apply.py:55-79 | Yes comes with an arrival at start through a revision with no other parent, No without one, a failed lookup with an unknown revision below end |
| Revisions.FoundIsAncestor | backend/scripts/rls/apply.py:55-79 | Yes is given for proper ancestors only |
| Revisions.ExactUnlessMerged | backend/scripts/rls/apply.py:55-79 | the answer equals descent when no merge lists start as a parent, so on every merge-free history |
| Revisions.AcyclicExactness | backend/scripts/rls/apply.py:55-79 | on an acyclic history the answer equals descent if and only if an ancestor start is the only parent of some revision at or below end |
| Revisions.MergeParentMissed | backend/scripts/rls/apply.py:56-75 | a direct parent of a merge is answered No although the merge descends from it, while its grandparent is answered Yes |

## Left out

- Routers, dependency wiring, cookies as HTTP headers, DTOs, the React UI and the query cache: no algorithm.
- The inside of SHA-256, AES-GCM, Argon2, RS256 tokens and TOTP; password policy, email normalisation and sending, logging.
- The permission matrix: what the policy answers is a parameter of each use case (`SecretStore.Access`, roles in `Membership`).
- Row-level security, and SQL beyond the unique constraints, row locks, commit and rollback the properties use.
- Conversion of a time to UTC: the model starts from the UTC date and time, with a four-digit year.
- Floats and keys that are not strings in audit metadata.
- Columns that decide nothing: user agents, creation times, display names, last editors.
- Interleavings inside one login, registration, invitation, secret creation, disable or start of an enrollment, each one step.
- Audit events of other use cases than those on secrets; `record` itself is modelled for every request.
- The transaction in which an invitation's email is checked for a membership: what it saw is a parameter of the invitation.
- The retry of key provisioning after registration: provisioning is a step that may be taken at any time.
- The single retry in `apiRequest`: in `BrowserClient` any call of `refreshSession` may happen at any moment.
- Text.DecodeEncode: the decoder takes continuation bytes as given, since only encoded strings are read back.
- Several tabs, each with its own `refreshPromise` but one cookie: the protocol result is about one browser context.
- Partial revision ids, which Alembic would resolve; graphs with a cycle through a merge, on which the recursion need not end.
