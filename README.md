# trustpin_integration in Dafny

A verified model of the MFA orchestration layer of `trustpin_integration`, a Go service.
The service sits between a mobile app and TrustPin, a remote MFA provider. It enrolls and
activates devices, creates push challenges and approves them. Each step is guarded by
local preconditions, by a replay-proof nonce and by tenant scoping. POST requests can
carry an `Idempotency-Key`, and a successful response is then replayed from a cache.

The model follows the Go code file by file, one Dafny module per component:

| module | file | Go source (under `internal/`) | form |
|---|---|---|---|
| `Wrappers` | wrappers.dfy | — | Option, Result, Outcome |
| `Domain` | domain.dfy | domain/types.go, application/ports.go | records as datatypes; `Json` values; `Failure` with Go's `Error()` text |
| `GoStrings` | gostrings.dfy | Go's `strings` package as used by the core | `TrimSpace`, `TrimPrefix`, `TrimSuffix`, with the white-space lemmas the tenant check needs |
| `Stores` | stores.dfy | infrastructure/memory/stores.go | classes `NonceStore` and `IdempotencyStore` over `map` fields |
| `Repos` | repos.dfy | infrastructure/memory/repos.go | classes over `map` fields; `GetByUsername` is a loop over the map |
| `TrustPinClient` | client.dfy | adapters/trustpin/client.go | the retry loop `Do`, proved against a recursive specification `Run` |
| `TrustPinAdapter` | adapter.dfy | adapters/trustpin/adapter.go | one payload, one call and one result per operation |
| `MfaService` | mfa_service.dfy | application/mfa_service.go | class `MfaService` whose methods change the repositories step by step |
| `AuthService` | auth_service.dfy | application/auth_service.go | `Login` |
| `Middleware` | middleware.dfy | middleware/auth.go, middleware/tenant.go, and the nesting in transport/http/server.go | the bearer-token gate, the tenant check and their composition |
| `Config` | config.dfy | config/config.go | environment lookups with defaults, `Atoi`, `normalizePEM` |
| `HttpTransport` | http_transport.dfy | transport/http/mfa.go, transport/http/auth.go | error mapping, the idempotency cache and the handlers |

The model has the following conventions:

- Time is an `int` number of nanoseconds, passed as `now`.
- The provider's network is a `Network` value. It says whether a URL parses, and it gives the outcome of each attempt.
- Every service or adapter method also returns `sent`, the requests that actually reached the provider. "No remote call" therefore reads `sent == []`.

The model makes these behaviours of the code explicit:

- Retries. Transport errors and 503 replies are retried until the last attempt. On the last attempt, a transport error is returned as the client's own `*url.Error`, whose text is `Post "<url>": <cause>`. A URL that does not parse ends the call before anything is sent. `retry_exhausted` is reachable only when `Max < 0`.
- Approval is checked and consumed before the remote call. A challenge must be of the caller's tenant and in `PUSH_SENT`. The payload must carry a nonce, and the nonce must be fresh for the tenant. The nonce is consumed whatever the provider then answers.
- Two approvals of one challenge. Once the first has reached the provider, the second never does. After a first success it fails `invalid_state`, not `nonce_reuse`; the service's design expects `nonce_reuse` there, and the model follows the code.
- A failed remote enrollment cannot be retried. It leaves the device `PENDING`, every new enrollment of that id fails `device_exists`, and only successes are cached.
- Activation does not check that the device belongs to the calling user. A provider device id that differs from the local one gets an `ACTIVE` alias under the caller's user id.
- `Approve` never checks a challenge's expiry. A provider state other than `PUSH_SENT` leaves the challenge unapprovable.
- Expiry boundaries differ. The nonce store treats `now == exp` as expired. The idempotency store treats it as live.
- Stores key entries by `tenant + ":" + key`. The concatenation is injective only for tenants without `:`; for example, `("a:b","c")` and `("a","b:c")` collide.
- As wired, the tenant check compares the token's tenant claim with itself (see Findings).

## Model

| member | source | states |
|---|---|---|
| Domain.Failure.Message | internal/adapters/trustpin/client.go:30-32 | a provider error's text is always `trustpin_error`; a JSON error's text starts with `j`; a `*url.Error`'s text starts with its Op and contains a double quote |
| GoStrings.TrimSpace | internal/middleware/tenant.go:10-12 | the result has no white space at either end and is the input with only white space removed around it |
| GoStrings.TrimSpacePadded | internal/middleware/tenant.go:10-12 | white space added on either side never changes what TrimSpace returns |
| GoStrings.TrimSpaceIdempotent | internal/config/config.go:80-84 | trimming twice is trimming once |
| GoStrings.PaddingDeterminesTrim | internal/middleware/tenant.go:10-12 | a trimmed string that `s` pads with white space is exactly TrimSpace(s) |
| GoStrings.TrimPrefix | internal/middleware/auth.go:33 | the prefix is removed exactly once when present, and the input is returned otherwise |
| GoStrings.TrimSuffix | internal/config/config.go:82 | the suffix is removed exactly once when present, and the input is returned otherwise |
| Stores.ScopedKey | internal/infrastructure/memory/stores.go:23 | the store key is the tenant, a colon, then the caller's key |
| Stores.ScopedKeyInjective | internal/infrastructure/memory/stores.go:23 | for tenants without `:`, equal store keys come from equal tenant and key |
| Stores.ScopedKeyCollides | internal/infrastructure/memory/stores.go:23 | tenant `a:b` with key `c` and tenant `a` with key `b:c` share one store key |
| Stores.NonceStore.CheckAndSet | internal/infrastructure/memory/stores.go:20-29 | accepts iff the key has no entry or its entry has expired (`now >= exp`); accepting records `now+ttl`; rejecting changes nothing |
| Stores.AcceptedNonceBlocksUntilExpiry | internal/infrastructure/memory/stores.go:24-27 | after acceptance, the same key is refused exactly until `now+ttl` |
| Stores.OtherNoncesUnaffected | internal/infrastructure/memory/stores.go:27 | recording one key never changes whether another key is fresh |
| Stores.Purge | internal/infrastructure/memory/stores.go:53-55 | only the looked-up key can disappear, and surviving entries are unchanged |
| Stores.IdempotencyStore.Get | internal/infrastructure/memory/stores.go:45-58 | returns the value iff the entry exists and `now <= exp`; an expired entry is deleted |
| Stores.IdempotencyStore.Set | internal/infrastructure/memory/stores.go:60-66 | overwrites the entry with the value and `now+ttl`, so the last writer wins |
| Stores.GetAfterSet | internal/infrastructure/memory/stores.go:45-66 | a value that was set is read back until its expiry and not afterwards |
| Stores.PurgeKeepsLookups | internal/infrastructure/memory/stores.go:53-56 | deleting an expired entry never changes a lookup at the same or a later time |
| Repos.VisibleDevice | internal/infrastructure/memory/repos.go:88-96 | a device is visible iff it is stored and belongs to the asking tenant |
| Repos.VisibleChallenge | internal/infrastructure/memory/repos.go:126-134 | a challenge is visible iff it is stored and belongs to the asking tenant |
| Repos.TenantIsolation | internal/infrastructure/memory/repos.go:88-134 | a device, and separately a challenge, stored for one tenant is never visible to another tenant |
| Repos.DeviceRepo.Create | internal/infrastructure/memory/repos.go:78-86 | an id taken in any tenant fails `device_exists` and changes nothing; otherwise the device is added |
| Repos.DeviceRepo.GetById | internal/infrastructure/memory/repos.go:88-96 | returns the device iff it is visible to the tenant |
| Repos.DeviceRepo.UpdateState | internal/infrastructure/memory/repos.go:98-108 | fails `not_found` unless the device is visible; otherwise sets only its state and update time |
| Repos.ChallengeRepo.Create | internal/infrastructure/memory/repos.go:119-124 | always succeeds and overwrites any challenge with the same id, even one of another tenant |
| Repos.ChallengeRepo.GetById | internal/infrastructure/memory/repos.go:126-134 | returns the challenge iff it is visible to the tenant |
| Repos.ChallengeRepo.UpdateState | internal/infrastructure/memory/repos.go:136-146 | fails `not_found` unless the challenge is visible; otherwise sets only its state and update time |
| Repos.UserRepo.Seed | internal/infrastructure/memory/repos.go:43-47 | stores the user under its id |
| Repos.UserRepo.GetByUsername | internal/infrastructure/memory/repos.go:21-30 | a found user is stored and matches tenant and username; None only when no stored user matches |
| Repos.UserRepo.GetById | internal/infrastructure/memory/repos.go:32-40 | returns the user iff it is stored under that id and belongs to the tenant |
| Repos.SessionRepo.Create | internal/infrastructure/memory/repos.go:58-63 | stores the session under its id, overwriting any previous one |
| Repos.SessionRepo.RevokeByJwtId | internal/infrastructure/memory/repos.go:65-67 | always succeeds and changes nothing |
| TrustPinClient.DecodeInto | internal/adapters/trustpin/client.go:70-78 | decoding succeeds iff the body is JSON null or an object whose members matching a field name up to case are strings or null; a field matched by exactly one string member gets its text, and one matched by none is ""; failures are JSON errors |
| TrustPinClient.DecodeMatchesUpToCase | internal/adapters/trustpin/client.go:74 | a number under `State` fails decoding into field `state`, and a string under `State` fills it |
| TrustPinClient.Do | internal/adapters/trustpin/client.go:43-89 | the loop returns the result of the recursive specification and sends the request once per attempt it makes |
| TrustPinClient.RunAttemptsBounded | internal/adapters/trustpin/client.go:50-54 | at most `Max+1` attempts; none exactly when `Max < 0` or the URL does not parse |
| TrustPinClient.RunExhaustedOnlyWithoutAttempts | internal/adapters/trustpin/client.go:50-88 | `retry_exhausted` is returned iff the loop body never runs |
| TrustPinClient.CallSendsNothingIff | internal/adapters/trustpin/client.go:44-54 | nothing is sent iff the payload cannot be marshalled, `Max < 0` or the URL does not parse; an unparsable URL returns the parse error |
| TrustPinClient.UnavailableRetriedToTheEnd | internal/adapters/trustpin/client.go:80-85 | 503 on every attempt uses all attempts and returns the last 503 with its body |
| TrustPinClient.TransportRetriedToTheEnd | internal/adapters/trustpin/client.go:59-66 | transport errors on every attempt use all attempts and return the last one as a `*url.Error` for the request URL |
| TrustPinClient.NonRetryableStops | internal/adapters/trustpin/client.go:85 | any other non-2xx reply ends the exchange on that attempt with that status and body |
| TrustPinClient.ProviderErrorMessage | internal/adapters/trustpin/client.go:30-32 | the provider error's text never depends on status or body |
| TrustPinAdapter.MapReply | internal/adapters/trustpin/adapter.go:54-57 | a client error is returned unchanged, and a success is mapped field by field |
| TrustPinAdapter.Enroll | internal/adapters/trustpin/adapter.go:44-58 | posts tenant and user to the enrollment path under the request's tenant; the result is the decoded reply |
| TrustPinAdapter.EnrollIgnoresDeviceId | internal/adapters/trustpin/adapter.go:45-48 | neither the payload nor the result depends on the device id |
| TrustPinAdapter.Activate | internal/adapters/trustpin/adapter.go:60-74 | posts pairing code, public key and the optional label under the request's tenant |
| TrustPinAdapter.CreateChallenge | internal/adapters/trustpin/adapter.go:76-94 | posts tenant, user, device, action and the optional context under the request's tenant |
| TrustPinAdapter.ApproveResult | internal/adapters/trustpin/adapter.go:96-110 | an empty challenge id fails `missing_challenge_id`; success always echoes the id with `APPROVED`; client errors pass through |
| TrustPinAdapter.Approve | internal/adapters/trustpin/adapter.go:96-110 | nothing is sent for an empty challenge id; otherwise posts to the challenge's approve path |
| MfaService.ExtractNonce | internal/application/mfa_service.go:136-146 | a nonce is found iff the payload is present and its `nonce` member is a non-empty string |
| MfaService.MfaService.Enroll | internal/application/mfa_service.go:19-42 | a taken id fails `device_exists` with no remote call; otherwise the device is stored and is `PAIRING_PENDING` after remote success or stays `PENDING` after a failure; states only advance |
| MfaService.MfaService.Activate | internal/application/mfa_service.go:44-76 | `invalid_state` with no remote call unless the tenant's device is `PAIRING_PENDING`; after remote success it is `ACTIVE`, with an alias under a different provider id |
| MfaService.MfaService.CreateChallenge | internal/application/mfa_service.go:78-108 | `invalid_state` with no remote call unless the tenant's device is `ACTIVE`; after remote success the challenge is stored under the provider's id and expires two minutes after issue |
| MfaService.MfaService.Approve | internal/application/mfa_service.go:110-134 | `invalid_state`, then `missing_nonce`, then `nonce_reuse`, each with no remote call and no change; otherwise the nonce is consumed and only a remote success sets the challenge `APPROVED` |
| MfaService.MfaService.ApproveTwice | internal/application/mfa_service.go:110-134 | once a first approval reached the provider, a second within five minutes never does; it fails `invalid_state` after a success and `nonce_reuse` after a failure |
| MfaService.MfaService.EnrollAgainAfterRemoteFailure | internal/application/mfa_service.go:19-42 | after a failed remote enrollment the device stays `PENDING` and a new enrollment fails `device_exists` without a remote call |
| AuthService.AuthService.Login | internal/application/auth_service.go:17-41 | fails `invalid_credentials` with no session iff no user matches or the password is empty; otherwise records a session for the tenant and the matching user that expires 15 minutes later, with empty ids |
| Middleware.EnforceTenant | internal/middleware/tenant.go:8-19 | passes only when the trimmed header and the trimmed context tenant are equal and non-empty; a missing value never passes |
| Middleware.EnforceTenantMeansSameTenant | internal/middleware/tenant.go:10-13 | passes iff both raw values are one non-empty tenant name surrounded only by white space |
| Middleware.EnforceTenantIgnoresHeaderPadding | internal/middleware/tenant.go:10 | white space around the header value never changes the outcome |
| Middleware.EnforceTenantIgnoresContextPadding | internal/middleware/tenant.go:11-12 | white space around the context value never changes the outcome |
| Middleware.VerifyIssuer | internal/middleware/auth.go:68-71 | true iff `iss` is a string equal to the issuer |
| Middleware.VerifyAudience | internal/middleware/auth.go:73-85 | the search loop is true iff `aud` equals the audience or is a list holding it as a string |
| Middleware.ClaimText | internal/middleware/auth.go:51-52 | a claim that is absent or not a string reads as "" |
| Middleware.SetIfPresent | internal/middleware/auth.go:58-63 | a header is set only to a non-empty value |
| Middleware.Gate | internal/middleware/auth.go:26-66 | forwards iff the `Bearer ` prefix, the signature, the issuer and the audience all check, otherwise 401; a forwarded request carries the claims, has X-Tenant-ID and X-User-ID overwritten by non-empty claims only, and keeps every other header |
| Middleware.JwtValidator.Middleware | internal/middleware/auth.go:26-66 | a rejected request is left unchanged; a forwarded one has the headers and context the gate computes |
| Middleware.Secured | internal/transport/http/server.go:38-39 | an admitted request passed the token checks and has a non-empty tenant; refusals are 401 or 403 |
| Middleware.SecuredAdmitsAnyNonBlankClaim | internal/middleware/auth.go:58-60 | as wired, a request with valid token checks is admitted iff its tenant claim is not blank |
| Middleware.SecuredIgnoresTenantHeader | internal/middleware/auth.go:58-60 | as wired, replacing the X-Tenant-ID header never changes the outcome |
| Middleware.ForgedRequestPassesGate | internal/middleware/auth.go:28-54 | a token for tenant `t1` sent with the header `X-Tenant-ID: t2` passes the token checks |
| Middleware.ForgedTenantHeaderAdmitted | internal/transport/http/server.go:38-39 | as wired, that forged request is admitted |
| Middleware.SecuredIndependent | internal/middleware/tenant.go:8-19 | the corrected composition refuses only with 401 or 403 |
| Middleware.SecuredIndependentRequiresAgreement | internal/middleware/tenant.go:10-13 | with the corrected composition, a request is admitted iff the token checks pass and the header sent names the claimed tenant up to white space |
| Middleware.ForgedTenantHeaderRefused | internal/middleware/tenant.go:13-16 | with the corrected composition the forged request gets 403 |
| Config.Getenv | internal/config/config.go:44-50 | the default when the value is empty, the value otherwise |
| Config.Atoi | internal/config/config.go:57 | only an optional sign followed by decimal digits parses, and only to a 64-bit int |
| Config.AtoiOfItoa | internal/config/config.go:57 | every 64-bit int written in decimal is read back exactly |
| Config.GetInt | internal/config/config.go:52-62 | the default when the value is empty or malformed, the parsed int otherwise |
| Config.GetIntReadsDecimal | internal/config/config.go:52-62 | a variable holding a decimal 64-bit int yields that int |
| Config.GetDuration | internal/config/config.go:64-74 | the default when the value is empty or does not parse, the parsed duration otherwise |
| Config.UnescapeNewlines | internal/config/config.go:83 | the result is never longer than the input |
| Config.UnescapeKeepsLeadingN | internal/config/config.go:83 | the result begins with `n` only where the input does |
| Config.UnescapeLeavesNoEscape | internal/config/config.go:83 | no backslash-n pair is left after the replacement |
| Config.UnescapeOfEscape | internal/config/config.go:83 | the replacement undoes the escaping of newlines in any text without escapes of its own |
| Config.NormalizePEM | internal/config/config.go:76-85 | "" stays ""; every result has no white space at either end |
| Config.NormalizePEMLeavesNoEscape | internal/config/config.go:80-84 | the normalised key contains no backslash-n pair |
| Config.NormalizePEMOfQuotedEscaped | internal/config/config.go:80-84 | a trimmed key with escaped newlines wrapped in double quotes normalises back to the key |
| Config.Load | internal/config/config.go:26-42 | unset variables give RetryMax 2, backoff 200ms, timeout 5s, issuer `trustpin`, audience `mobile`, port 8080, env `dev` and the default base URL; DB_DSN, REDIS_ADDR and TRUSTPIN_API_KEY are read as they are, "" when unset; both keys are trimmed |
| HttpTransport.MapError | internal/transport/http/mfa.go:259-291 | provider statuses map by the table, with 412 becoming 422 and others 502, always with the body as detail; other errors map by message to 409, 409, 400 or 500 without detail; every status is 4xx or 5xx and agrees with the code |
| HttpTransport.UnclassifiedErrorsAreServerErrors | internal/transport/http/mfa.go:281-290 | JSON errors, failed exchanges, unparsable URLs and other local errors such as `device_exists` become 500 `server_error` |
| HttpTransport.ErrorResponse | internal/transport/http/errors.go:19-27 | the error body holds exactly code, message and details |
| HttpTransport.Render | internal/transport/http/mfa.go:35-42 | the status is 200 iff the operation succeeded; a failure is the mapped error |
| HttpTransport.RepeatReplaysSuccess | internal/transport/http/mfa.go:21-49 | a success remembered under a key is replayed within five minutes without running the operation |
| HttpTransport.FailureNotRemembered | internal/transport/http/mfa.go:35-39 | after a failure nothing is cached under the key |
| HttpTransport.Server.Replay | internal/transport/http/mfa.go:22-33 | an empty key reads nothing; otherwise the live cached response, if any |
| HttpTransport.Server.Remember | internal/transport/http/mfa.go:44-49 | an empty key writes nothing; otherwise the success is cached with status 200 for five minutes |
| HttpTransport.Server.HandleEnroll | internal/transport/http/mfa.go:77-105 | 405, `invalid_json` and `missing_fields` never reach the service or the cache; otherwise the cache step holds and a success leaves the device `PAIRING_PENDING` under the context tenant and user |
| HttpTransport.Server.HandleActivate | internal/transport/http/mfa.go:107-138 | the same validation with device, pairing code and public key required; a success leaves the tenant's device `ACTIVE` |
| HttpTransport.Server.HandleCreateChallenge | internal/transport/http/mfa.go:140-170 | the same validation with device and action required; a success stores the challenge for the tenant and device |
| HttpTransport.Server.HandleApprove | internal/transport/http/mfa.go:172-204 | the same validation with challenge, device, signature and a non-null payload required; a success leaves the tenant's challenge `APPROVED` |
| HttpTransport.Server.HandleGetChallenge | internal/transport/http/mfa.go:206-231 | 400 for an empty id, 404 when absent or of another tenant, else the id, state and update time |
| HttpTransport.Server.HandleGetStatus | internal/transport/http/mfa.go:233-257 | 400 for an empty id, 404 when absent or of another tenant, else the id and state |
| HttpTransport.Server.HandleLogin | internal/transport/http/auth.go:23-50 | validation before Login; the tenant is trimmed after the emptiness check; a Login failure gives 401 with no session; then 500 `token_error` or 200 with the token |
| HttpTransport.Server.EnrollRepeated | internal/transport/http/mfa.go:21-49 | a successful enrollment repeated with one key within five minutes gets the identical response with no service or provider call |

## Left out

- Concurrency: the mutexes, and the non-atomic Get-then-Set in internal/transport/http/mfa.go:24-47. Each store operation is one atomic step.
- The wall clock is read once per operation as `now`. The Go code reads `time.Now()` more than once per operation.
- Integers are unbounded. Overflow of `now + ttl` is not modelled.
- Sleeps, the HTTP client timeout and context cancellation are not modelled. The backoff is carried in the configuration but never waited on.
- JSON bytes are not modelled:
  - Requests reach the handlers already decoded into their struct, and None stands for any decode error.
  - Bodies are `Json` values. The trailing newline `json.Encoder` adds is not modelled, and neither is an unparsable cached entry, which only another writer could produce.
- Times in responses (`updated_at`, `expires_at`) are nanosecond numbers, not RFC 3339 text.
- These collaborators become parameters rather than modelled code:
  - Token signature verification, the signing method and `exp` checks (golang-jwt) become the `verify` parameter.
  - Parsing the public key in `NewJWTValidator` is not part of this model.
  - The token issuer (internal/infrastructure/jwt/issuer.go) becomes the `tokens` parameter.
  - `time.ParseDuration` becomes the `parseDuration` parameter.
  - `url.Parse` becomes the `parse` part of the `Network` parameter, which says for each URL whether `http.NewRequestWithContext` fails.
- Header names are used in canonical form. `http.Header` canonicalisation and multi-valued headers are not modelled.
- The idempotency store is a field of the server here. In Go it is `IdemStore` on the MFA service, and the nil-store case is not modelled because the server always has one.
- Error paths that cannot occur with the in-memory repositories are asserted as such:
  - the repositories never fail;
  - the service's `UpdateState` or `Create` after a successful lookup cannot fail;
  - the GET handlers' 500 `server_error` branches (internal/transport/http/mfa.go:218-221, 245-248);
  - the repository error propagation in internal/application/auth_service.go:19-21, 37-39.
- Pointer aliasing: Go hands out pointers into the repository maps, and records here are values.
- Map iteration order: `UserRepo.GetByUsername` may return any matching user, as Go's random map order allows.
- TrustPinClient.DecodeInto: when several string members of a reply match one field up to case, Go stores the last in document order. Reply objects here are unordered maps, so the model takes the exact-case member, or "" when none of them is exact.
- Domain.Failure.Message: the URL inside a `*url.Error`'s text is the request URL unquoted. Go quotes it with `%q` and, for a failed exchange, masks any password in it. The model relies only on the text containing a double quote.
- Domain.Failure.Message: a JSON error's text is modelled as `json: ` plus a cause. Go's syntax errors carry no such prefix. The model relies only on that text never being one of `nonce_reuse`, `invalid_state` or `missing_nonce`.
- Routing, health and documentation endpoints, request ids, logging, process start-up, and the Postgres, Redis and idempotency stubs that only return `not_implemented` are not part of this model.

## Findings

| source | as written | input that shows it | evidently intended | confidence | as-written member | corrected member |
|---|---|---|---|---|---|---|
| internal/middleware/auth.go:58-60 | The JWT middleware wraps EnforceTenant (internal/transport/http/server.go:38-39) and overwrites X-Tenant-ID with the token's tenant claim before the tenant check reads it, so the check compares the claim with itself | a valid token with `tenant_id` `t1` sent with the header `X-Tenant-ID: t2` is admitted | the tenant header the client sent must independently agree with the claim, else 403 | high; not executed | Middleware.ForgedTenantHeaderAdmitted | Middleware.SecuredIndependentRequiresAgreement |
