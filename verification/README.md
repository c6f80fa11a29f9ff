# Verification of vault-secrets-broker

A Dafny model of the parts of vault-secrets-broker that are protocols: credential rotation with
detached clean-up, graceful shutdown, the concurrency limiter, the Auth0 secrets engine, the two
time-driven caches, the encrypted credential path, and the small codecs they use.

    dafny verify dfyconfig.toml

## How the model is built

- Concurrent code is a transition system: a `State`, an `Action` per atomic step, `Enabled` and
  `Apply`, and `IsRun`, which says that a sequence of states and actions is a run. Main results
  quantify over every run, every position in it, and any number of requests, adapters, clean-ups,
  callers or channels. Providers and networks are steps of their own: an effect may happen without
  its response arriving, and may happen after the caller has given up.
- Objects that the source updates in place are classes. Their small methods are the atomic actions,
  and their whole-call methods (`Rotate`, `RotateRoot`, `Shutdown`, `ManagementToken`, ...) follow the
  branches of the source for a call that nothing overlaps. The limiter, the counted adapters, the
  Auth0 backend, the token cache, the GitHub adapter and the mock provider carry the run that the
  calls on them amount to, as ghost fields that `Valid()` ties to the fields; `CounterExact`,
  `Counters`, `Accounting`, `StorageAgreement`, `LeaseStaysDead`, `Spacing` and `CachedIsFresh` are
  the theorems about runs, stated on the objects' own fields. The mock provider's
  `Wrap` lets the rest of the program take any steps between those of the request.
- A loop of the source is a loop here, proved against a recursive reference definition. What a
  reference definition or a table of cases says is proved once more in other terms: by the first round
  that stops the renewer, by the rotations of a chain, by numbers, alphabets and literal constants.

| file | content |
|---|---|
| Rotation.dfy, Adapter.dfy | semaphore, wait group, detached deletes, credential accounting |
| Shutdown.dfy, Server.dfy | handlers, adapters and `Server.Shutdown` under one clock; the registry |
| Limiter.dfy | the in-flight counter |
| Auth0Engine.dfy, Auth0Backend.dfy | leases, root rotation, lock-out |
| TokenCache.dfy | management-token cache |
| Renewer.dfy | SPIFFE renewer |
| Base64.dfy, Pipeline.dfy | encode, encrypt, deliver, decrypt, decode |
| Names.dfy, CredentialId.dfy, Sanitizer.dfy | names, composite ids, log text |
| FaultInjector.dfy, GitHub.dfy | the mock provider; synchronous rotation |

## Where the code falls short of its documentation

- The engine's help text says that after a root rotation Vault holds the current secret
  (plugins/vault-auth0-engine/backend/paths.go:161-162). `Auth0Engine.StorageAgreesExactly` says for
  every run when that is so: exactly if Auth0 has not rotated the management application since it
  issued the stored secret (and, for a configuration an operator wrote, if it was right when written).
  It fails from every healthy engine: with two overlapping root rotations that both report success
  (`Auth0Engine.OverlappingRootsLockOut`), and with a single one whose response or write is lost
  (`Auth0Engine.OneLossLocksOut`). Then no request succeeds until an operator writes the configuration
  (`Auth0Engine.LockOutIsPermanent`). For one call that nothing overlaps, `Auth0Backend.Backend.RotateRoot`
  states the condition in its inputs: Auth0 does not act, or its response arrives and storage takes
  the write.
- `Unblock` is documented to release every blocked request (cred-rotation-api/chaos/mock_provider.go:77).
  It releases a request exactly if `Block` was never called while already blocked on the request's
  channel (`FaultInjector.UnblockReleasesExactly`, `FaultInjector.SecondBlockStrandsRequest`).
- The SonarQube credential id is documented to be passed back unchanged to Revoke and Status
  (cred-rotation-api/adapter/sonarqube/sonarqube.go:125-126). That works exactly for logins without a
  colon (`CredentialId.RotatedIdRoundTrip`, `CredentialId.ColonInLoginMisparses`).
- The limiter turns a request away short of saturation exactly if pending rejecters make up the
  difference (`Limiter.TurnedAwayShortOfSaturation`). For every positive limit it can answer 503 any
  number of times in succession while no handler is running (`Limiter.RejectedWhileIdle`), but only
  after real saturation (`Limiter.RejectionJustified`).
- The sanitiser is documented to truncate to 256 runes (cred-rotation-api/adapter/datadog/datadog.go:377-378).
  It does so exactly if fewer than 256 printable runes are left (`Sanitizer.AsDocumentedExactly`);
  otherwise it emits 257, also when nothing was cut (`Sanitizer.MarkedThoughComplete`).
- The package comment of the Splunk adapter omits the random suffix of the name; the model follows
  the code (cred-rotation-api/adapter/splunk/splunk.go:155-159).

## Model

| member | source | states |
|---|---|---|
| Limiter.ConservationAndBound | cred-rotation-api/server/server.go:169-187 | in every reachable state the counter is admitted handlers plus rejecters that have not subtracted, and handlers never exceed the limit |
| Limiter.GroupBeganSaturated | cred-rotation-api/server/server.go:172-173 | whenever a rejecter is pending, its overlapping group began with exactly `limit` handlers running and no rejecter |
| Limiter.RejectionJustified | cred-rotation-api/server/server.go:167-183 | every 503 is preceded by full saturation, with a rejecter pending at every moment in between |
| Limiter.VerdictWithoutRejecters | cred-rotation-api/server/server.go:172 | with no rejecter pending, a request is turned away exactly at full saturation |
| Limiter.TurnedAwayShortOfSaturation | cred-rotation-api/server/server.go:172 | a request is turned away short of saturation exactly if fewer than `limit` handlers are running and pending rejecters make up the difference |
| Limiter.RejectedWhileIdle | cred-rotation-api/server/server.go:172-173 | for every positive limit and every N, a run in which N requests in succession are turned away while no handler is running |
| Limiter.ConcurrencyLimiter.Enter | cred-rotation-api/server/server.go:172 | the atomic add is the protocol's Add step and returns the value compared later |
| Limiter.ConcurrencyLimiter.Compare | cred-rotation-api/server/server.go:172 | the branch is the protocol's Decide step |
| Limiter.ConcurrencyLimiter.Leave | cred-rotation-api/server/server.go:173-184 | both subtractions are the protocol's Subtract step |
| Limiter.ConcurrencyLimiter.CounterExact | cred-rotation-api/server/server.go:169-184 | on the object, whatever calls were made in whatever interleaving: the counter is handlers plus pending rejecters, and handlers never exceed the limit |
| Limiter.ConcurrencyLimiter.ServeHTTP | cred-rotation-api/server/server.go:171-186 | an unoverlapped request gets 503 exactly at the limit, and the counter is back where it was |
| Rotation.CountersExactInEveryRun | cred-rotation-api/adapter/sonarqube/sonarqube.go:134-175 | free permits plus calls past Acquire are 10, the wait group is launched minus finished clean-ups, and only a call that returns a credential launches one, on every exit path and interleaving |
| Rotation.AtMostTenCreates | cred-rotation-api/adapter/pagerduty/pagerduty.go:125-136 | at most 10 create requests are outstanding |
| Rotation.FailedRotateDeletesNothing | cred-rotation-api/adapter/datadog/datadog.go:168-193 | a Rotate that returns an error has started no delete and never does |
| Rotation.AccountedStep | cred-rotation-api/adapter/splunk/splunk.go:161-188 | every step of serial chains keeps the account of why each credential is live |
| Rotation.LivePartition | cred-rotation-api/adapter/splunk/splunk.go:149-196 | live credentials are exactly, and disjointly: newest of each chain, replaced but not deleted, created by a failed Rotate, created and not yet returned |
| Rotation.CredentialAccounting | cred-rotation-api/adapter/datadog/datadog.go:156-201 | in every reachable state the newest credential of every chain is live, and the live count is newest + pending deletes + failed deletes + orphans + unclaimed |
| Adapter.CountedAdapter.Acquire | cred-rotation-api/adapter/splunk/splunk.go:150-152 | takes a permit and goes on, or gives up with an error, exactly if one is free in time |
| Adapter.CountedAdapter.Release | cred-rotation-api/adapter/splunk/splunk.go:153 | gives the permit back |
| Adapter.CountedAdapter.Create | cred-rotation-api/adapter/datadog/datadog.go:162-171 | accepts exactly the provider's usable answers; a created credential is live even when the answer is not usable |
| Adapter.CountedAdapter.Commit | cred-rotation-api/adapter/pagerduty/pagerduty.go:141-144 | adds to the wait group exactly when there is an old credential |
| Adapter.CountedAdapter.RunCleanup | cred-rotation-api/adapter/sonarqube/sonarqube.go:158-174 | leaves the wait group once whether the delete succeeds, fails or panics |
| Adapter.CountedAdapter.WithPermit | cred-rotation-api/adapter/sonarqube/sonarqube.go:137-175 | the permit is released on every path, and a clean-up is launched exactly on success with an old credential |
| Adapter.OldOf | cred-rotation-api/adapter/pagerduty/pagerduty.go:141 | the old credential is the non-empty entry old_token_name (Splunk, SonarQube) or old_key_id (Datadog, PagerDuty) |
| Adapter.CountedAdapter.Conclude | cred-rotation-api/adapter/splunk/splunk.go:166-196 | with a credential and an old one a clean-up for exactly that old one is launched; the permit comes back either way |
| Adapter.CountedAdapter.Rotate | cred-rotation-api/adapter/sonarqube/sonarqube.go:129-183 | for the four adapters: success exactly for a permit, a suffix and the provider's usable statuses with a non-empty credential (and id); the name sent reads back to provider id, time and random bytes; the credential id is that name, login:name which parses back unless the login has a colon, or the provider's id; permits unchanged, one clean-up for the named old credential exactly on success; keeps a serial history serial |
| Adapter.CountedAdapter.Counters | cred-rotation-api/adapter/sonarqube/sonarqube.go:134-158 | on the object, whatever calls were made: permits and wait group are exact, at most 10 creates outstanding |
| Adapter.CountedAdapter.Accounting | cred-rotation-api/adapter/datadog/datadog.go:156-201 | on the object, for serial clients: the newest credential of every chain is live and the live count is exact |
| Shutdown.NoLaunchAfterHttpDrain | cred-rotation-api/server/server.go:148-150 | once http.Shutdown returned nil no clean-up is launched, every wait group only falls, and what finished stays finished |
| Shutdown.CleanShutdownFinishedEverything | cred-rotation-api/server/server.go:144-165 | if Shutdown returns nil with no warning for an adapter, every clean-up the adapter launches in the whole run has finished |
| Shutdown.CleanShutdownAccounting | cred-rotation-api/server/server.go:152-164 | after such a shutdown the live credentials are newest + failed deletes + orphans, with no delete pending and nothing unclaimed |
| Shutdown.ShutdownMeetsDeadline | cred-rotation-api/server/server.go:20-26 | with an HTTP phase under 15 s - 10 s and clean-ups that end by their own deadline, no Drain times out, for any adapters, clean-ups and order, and Shutdown has returned by its deadline |
| Shutdown.DeadlineIsTight | cred-rotation-api/adapter/splunk/splunk.go:178 | a run with an HTTP phase of exactly 5 s in which a Drain times out |
| Server.Registry.Register | cred-rotation-api/adapter/registry.go:20-28 | a new name is added; a duplicate panics and changes nothing |
| Server.Registry.Get | cred-rotation-api/adapter/registry.go:31-39 | finds exactly the registered names, each under its own name |
| Server.Registry.Names | cred-rotation-api/adapter/registry.go:42-50 | every registered name once, in some order |
| Server.Drain | cred-rotation-api/adapter/sonarqube/sonarqube.go:187-199 | nil when the wait group empties before the deadline, the context error when it does not by then |
| Server.HttpServer.Shutdown | cred-rotation-api/server/server.go:144-165 | with the earlier of 15 s and the caller's own deadline: warns of every adapter busy past the deadline, of none if all are idle before it, does not return before the adapters it did not warn of are idle, and no later than the deadline or the end of the HTTP phase, for any order of names |
| Auth0Engine.InvInEveryRun | plugins/vault-auth0-engine/backend/auth0.go:56-91 | every secret in play is known to have been issued or configured, no two requests have the same one, and every lease is backed by its own successful request |
| Auth0Engine.DeadStaysDead | plugins/vault-auth0-engine/backend/auth0.go:54-55 | a secret that was invalidated never becomes valid again |
| Auth0Engine.ValidUntilRotated | plugins/vault-auth0-engine/backend/paths.go:250-254 | a valid secret stays valid exactly until the next rotate-secret effect on its application |
| Auth0Engine.AtMostOneValidLease | plugins/vault-auth0-engine/backend/paths.go:230-278 | at most one lease of an application has a valid secret |
| Auth0Engine.RevokedLeaseStaysDead | plugins/vault-auth0-engine/backend/paths.go:284-307 | after a revocation returns without error every lease issued before it began is dead for the rest of the run, lost and late responses included |
| Auth0Engine.StorageAgreesExactly | plugins/vault-auth0-engine/backend/paths.go:161-197 | in every run: the stored secret is Auth0's exactly if Auth0 has not rotated the application since it issued the stored secret, or since an operator wrote it correctly |
| Auth0Engine.StoreAgreesUnlessOvertaken | plugins/vault-auth0-engine/backend/paths.go:189-197 | a root rotation's write leaves agreement exactly if no rotation overtook it between Auth0's answer and the write |
| Auth0Engine.StorageAgreesWithAuth0 | plugins/vault-auth0-engine/backend/paths.go:168-205 | the serial case: with serialised root rotations that lose nothing, the stored secret is Auth0's whenever none is in progress, under any interleaving with other applications |
| Auth0Engine.StaleRequestOnlyFails | plugins/vault-auth0-engine/backend/paths.go:231-254 | a request that read a secret Auth0 no longer accepts, and has no token, can only fail |
| Auth0Engine.LostRootSecretLocksOut | plugins/vault-auth0-engine/backend/paths.go:184-197 | losing the new root secret after Auth0 rotated it leaves a dead secret in storage, and locks the engine out at once exactly if no other request holds a token or a configuration that can still obtain one |
| Auth0Engine.OneLossLocksOut | plugins/vault-auth0-engine/backend/paths.go:168-197 | from every healthy engine, a run of a single root rotation whose response or write is lost ends locked out |
| Auth0Engine.LockOutIsPermanent | plugins/vault-auth0-engine/backend/paths.go:183-187 | a locked-out engine serves nothing more until an operator writes the configuration |
| Auth0Engine.OverlappingRootsLockOut | plugins/vault-auth0-engine/backend/paths.go:168-197 | from every healthy engine, whatever other applications it serves, a run of two overlapping root rotations that both succeed ends locked out |
| Auth0Backend.Backend.WriteConfig | plugins/vault-auth0-engine/backend/paths.go:67-122 | stored exactly when the four required fields are given and storage takes the write |
| Auth0Backend.Backend.ReadConfig | plugins/vault-auth0-engine/backend/paths.go:124-139 | the public fields, without the secret, exactly when storage can be read and holds a configuration |
| Auth0Backend.Backend.GetConfig | plugins/vault-auth0-engine/backend/paths.go:391-404 | the configuration as stored when the request loads it, none, or the error of a failed read |
| Auth0Backend.Backend.ManagementToken | plugins/vault-auth0-engine/backend/auth0.go:119-172 | a new client gets a token exactly when Auth0 accepts its secret |
| Auth0Backend.Backend.CallRotate | plugins/vault-auth0-engine/backend/auth0.go:62-91 | success exactly when Auth0 rotated and the response is usable; the effect happens regardless |
| Auth0Backend.Backend.RotateSecret | plugins/vault-auth0-engine/backend/auth0.go:56-91 | both steps together, as a run of the protocol |
| Auth0Backend.Backend.RotateRoot | plugins/vault-auth0-engine/backend/paths.go:168-205 | succeeds exactly if configured, readable, accepted by Auth0, rotated, answered and written; storage changes only then, Auth0 also without the last two; from agreement, agreement survives exactly if Auth0 does not act or the answer arrives and is written |
| Auth0Backend.Backend.RotateCreds | plugins/vault-auth0-engine/backend/paths.go:230-278 | the exact condition for success, a lease exactly then, Auth0's secret replaced also when the answer or Transit fails; plaintext is returned only without a Transit key |
| Auth0Backend.Backend.RevokeCreds | plugins/vault-auth0-engine/backend/paths.go:284-307 | fails closed without an application id; otherwise the exact condition for success, which leaves no lease of the application valid |
| Auth0Backend.Backend.StorageAgreement | plugins/vault-auth0-engine/backend/paths.go:161-197 | on the object, whatever calls were made: StorageAgreesExactly |
| Auth0Backend.Backend.LeaseStaysDead | plugins/vault-auth0-engine/backend/paths.go:284-307 | on the object: a lease that was dead after some call is dead after all later ones |
| TokenCache.SingleFlight | cred-rotation-api/adapter/auth0/auth0.go:184-208 | at most one fetch is in progress, with no reader or second writer in the lock |
| TokenCache.FetchSpacing | cred-rotation-api/adapter/auth0/auth0.go:189-191 | consecutive successful fetches complete at least expires_in - 300 s apart |
| TokenCache.GrantsArePaired | cred-rotation-api/adapter/auth0/auth0.go:174-228 | a returned token is paired with the expiry that was checked; it is the caller's own fetch or had more than 300 s left |
| TokenCache.SentTokensAreFresh | cred-rotation-api/adapter/auth0/auth0.go:24-28 | a request with a cached token is sent more than 260 s before the token's true expiry (section 5.1 of RFC 6749) |
| TokenCache.FreshnessIsTight | cred-rotation-api/server/handlers.go:15 | a run in which a cached token is sent 260 s and 1 ms before its true expiry |
| TokenCache.Cache.CheckCached | cred-rotation-api/adapter/auth0/auth0.go:176-182 | the fast path hits exactly for a stored token with more than 300 s left, and leaves the lock free |
| TokenCache.Cache.CheckAgain | cred-rotation-api/adapter/auth0/auth0.go:184-191 | the same check once more under the write lock, which is kept for the fetch |
| TokenCache.Cache.EndFetch | cred-rotation-api/adapter/auth0/auth0.go:205-228 | an answer is taken over, token and expiry together, exactly if it has status 200, parses and carries a token |
| TokenCache.Cache.ManagementToken | cred-rotation-api/adapter/auth0/auth0.go:174-229 | fetches exactly when no token is stored or 300 s or less are left; a failure leaves the cache as it was |
| TokenCache.Cache.Spacing | cred-rotation-api/adapter/auth0/auth0.go:189-191 | on the object, whatever calls were made: successive fetches are at least expires_in - 300 s apart |
| TokenCache.Cache.CachedIsFresh | cred-rotation-api/adapter/auth0/auth0.go:24-28 | on the object: a cached token that was handed out is good for 260 s more throughout its handler's time |
| Renewer.GaplessExactly | cred-rotation-api/vault/client.go:231-252 | over any number of rounds the tokens held leave no gap exactly if every round fits into the token it started with |
| Renewer.IntervalIsSeventyPercent | cred-rotation-api/vault/client.go:233-235 | the wait is 70% of the reported lifetime, or one nanosecond less |
| Renewer.IntervalInSeconds | cred-rotation-api/vault/client.go:227-279 | a positive ttl of v, number or float, means 0.7 v seconds; every other answer means four minutes |
| Renewer.RoundedProductNeverAbove | cred-rotation-api/vault/client.go:228-234 | the rounded float product never exceeds the exact 70% |
| Renewer.TimelyRunFits | cred-rotation-api/vault/client.go:222-236 | latencies of at most 30% of the reported lifetime, or within what four minutes leave over, fit |
| Renewer.ContinuousCoverage | cred-rotation-api/vault/client.go:225-253 | in timely runs the client never holds an expired token before the loop exits |
| Renewer.OutcomeExactly | cred-rotation-api/vault/client.go:231-252 | the first round without a login decides how, when and with which tokens the loop ends |
| Renewer.ErroredExactly | cred-rotation-api/vault/client.go:243-251 | the loop ends with an error exactly if that round is not cancelled and its SVID fetch or login fails |
| Renewer.CancelledExactly | cred-rotation-api/vault/client.go:237-241 | the loop ends silently exactly if that round is cancelled |
| Renewer.ExitIsFinal | cred-rotation-api/vault/client.go:237-251 | after cancellation or onError there is no further login |
| Renewer.ThirtyPercentIsTight | cred-rotation-api/vault/client.go:228-234 | for every lifetime, a possible round at 30% and 1 ns whose login comes after the expiry |
| Renewer.Client.SpiffeRenewer | cred-rotation-api/vault/client.go:225-253 | the loop computes the reference outcome; onError is called, once, exactly if the first round without a login failed without being cancelled |
| Base64.EncodedText | cred-rotation-api/vault/client.go:283 | encoded length and alphabet (section 4 of RFC 4648) |
| Base64.RoundTrip | cred-rotation-api/vault/client.go:311 | decoding undoes encoding, and only the empty credential encodes to nothing |
| Base64.Alphabet | cred-rotation-api/vault/client.go:283 | the symbols are those of table 1 of RFC 4648 |
| Base64.QuantumBits | cred-rotation-api/vault/client.go:283 | every four characters carry the 24 bits of three bytes in order (section 4 of RFC 4648) |
| Base64.TailBits | cred-rotation-api/vault/client.go:283 | one or two bytes at the end are filled up with zero bits and padding |
| Pipeline.Handlers.Rotate | cred-rotation-api/server/handlers.go:36-79 | 400 exactly for a bad body or an empty field, else 404 exactly for an unknown provider, 502 for a failed rotation, 500 for a failed or empty encryption, and otherwise 200 with the ciphertext; that is the response EndToEnd speaks of |
| Pipeline.Outcome | cred-rotation-api/adapter/auth0/auth0.go:115-127 | which answers each of the six adapters takes a credential from |
| Pipeline.DecryptUndoesEncrypt | cred-rotation-api/vault/client.go:282-316 | decryption succeeds exactly for a non-empty credential under its own key, and returns it |
| Pipeline.EndToEnd | plugins/vault-rest-engine/backend/paths.go:145-223 | the plugin returns a credential exactly when every stage worked and both sides use one key (an unset one being cred-rotation-key), and then byte for byte the adapter's |
| Pipeline.AdapterCredentialsDecrypt | plugins/vault-rest-engine/backend/paths.go:213-216 | the refusal of an empty plaintext never triggers for a credential that came from an adapter |
| Names.TimeRoundTrip | cred-rotation-api/adapter/sonarqube/sonarqube.go:42 | the printed time determines its fields to the printed resolution, for years 0 to 9999 |
| Names.LayoutOfTime | cred-rotation-api/adapter/splunk/splunk.go:46 | the printed time is yyyymmdd, T, hhmmss, with milliseconds .mmm, and Z, read as numbers |
| Names.HexAlphabet | cred-rotation-api/adapter/splunk/splunk.go:339-345 | the suffix is lower-case hexadecimal, high digit first |
| Names.HexRoundTrip | cred-rotation-api/adapter/splunk/splunk.go:339-345 | the suffix determines the random bytes |
| Names.NameRoundTrip | cred-rotation-api/adapter/splunk/splunk.go:155-159 | a name determines provider id, printed time and random bytes, dashes in the id included |
| Names.NamesCollideExactly | cred-rotation-api/adapter/pagerduty/pagerduty.go:130-134 | two names are equal exactly when all three parts coincide |
| CredentialId.ParseAcceptsExactly | cred-rotation-api/adapter/sonarqube/sonarqube.go:341-347 | accepts exactly the joins of a non-empty login without colon and a non-empty name, and splits them |
| CredentialId.RoundTrip | cred-rotation-api/adapter/sonarqube/sonarqube.go:340-347 | join then parse is the identity exactly for a non-empty login without colon and a non-empty name |
| CredentialId.RotatedIdRoundTrip | cred-rotation-api/adapter/sonarqube/sonarqube.go:177-182 | the id Rotate returns names the created token exactly when the login has no colon |
| CredentialId.ColonInLoginMisparses | cred-rotation-api/adapter/sonarqube/sonarqube.go:177-212 | for every login with a colon and every name Rotate builds: the id is refused if the colon comes first, and otherwise parses to the login's front part and another token name |
| Sanitizer.SanitizeForLog | cred-rotation-api/adapter/datadog/datadog.go:381-398 | the early-breaking loop is filter-then-cut |
| Sanitizer.SanitizedIsSafe | cred-rotation-api/adapter/datadog/datadog.go:377-380 | no control characters, at most 257 runes, an order-preserving selection plus the ellipsis |
| Sanitizer.SanitizedIsFixed | cred-rotation-api/adapter/sonarqube/sonarqube.go:357-374 | sanitising twice is sanitising once |
| Sanitizer.UnchangedExactly | cred-rotation-api/adapter/splunk/splunk.go:347-368 | text goes through unchanged exactly if it has no rune below 0x20 and no 0x7f, and under 256 runes or a cut already |
| Sanitizer.AsDocumentedExactly | cred-rotation-api/adapter/datadog/datadog.go:377-398 | truncation is as documented, and the output within 256 runes, exactly if fewer than 256 printable runes are left |
| Sanitizer.MarkedThoughComplete | cred-rotation-api/adapter/datadog/datadog.go:391-395 | a text of 256 printable runes gets an ellipsis although nothing was cut |
| FaultInjector.RequestsAccounted | cred-rotation-api/chaos/mock_provider.go:101-141 | total = 429s + 500s + successes + cancelled 504s + requests inside, in every interleaving |
| FaultInjector.ClosedOnce | cred-rotation-api/chaos/mock_provider.go:81-84 | no channel is closed twice |
| FaultInjector.BlockLeaksExactly | cred-rotation-api/chaos/mock_provider.go:71-75 | a channel is leaked exactly by a Block while already blocked |
| FaultInjector.LeakedWaiterOnlyCancelled | cred-rotation-api/chaos/mock_provider.go:113-120 | a request waiting on a leaked channel can only end by cancellation |
| FaultInjector.UnblockReleasesExactly | cred-rotation-api/chaos/mock_provider.go:77-85 | after Unblock a waiting request can go on exactly if its channel was never overwritten |
| FaultInjector.UnblockReleasesAll | cred-rotation-api/chaos/mock_provider.go:87-98 | without a Block while blocked, no request is left waiting |
| FaultInjector.SecondBlockStrandsRequest | cred-rotation-api/chaos/mock_provider.go:71-85 | a run in which Unblock leaves a request waiting for good |
| FaultInjector.MockProvider.Block | cred-rotation-api/chaos/mock_provider.go:71-75 | the protocol's Block step |
| FaultInjector.MockProvider.Unblock | cred-rotation-api/chaos/mock_provider.go:78-85 | the protocol's Unblock step |
| FaultInjector.MockProvider.Reset | cred-rotation-api/chaos/mock_provider.go:88-98 | clears the rates, and is an Unblock step for the channel |
| FaultInjector.MockProvider.CountRequest | cred-rotation-api/chaos/mock_provider.go:103 | the protocol's Count step |
| FaultInjector.MockProvider.TakeSnapshot | cred-rotation-api/chaos/mock_provider.go:105-110 | the protocol's Snapshot step |
| FaultInjector.MockProvider.Await | cred-rotation-api/chaos/mock_provider.go:113-120 | the select: the protocol's Wake or Cancel step |
| FaultInjector.MockProvider.Verdict | cred-rotation-api/chaos/mock_provider.go:126-140 | 429 below the first rate, 500 in the next interval as long as the second, success above |
| FaultInjector.MockProvider.Finish | cred-rotation-api/chaos/mock_provider.go:126-140 | the roll picks one counter, as the protocol's Roll step |
| FaultInjector.MockProvider.Accounting | cred-rotation-api/chaos/mock_provider.go:101-141 | on the object, whatever calls were made in whatever interleaving: the counters add up, and the blocking channel is open |
| FaultInjector.MockProvider.Wrap | cred-rotation-api/chaos/mock_provider.go:101-141 | a whole request among any steps of the rest of the program: the roll's verdict exactly if not blocked at its snapshot or released since, 504 if blocked and cancelled, waiting on the snapshot's channel otherwise; the counters add up at the end |
| GitHub.ChainAccounting | cred-rotation-api/adapter/github/github.go:101-174 | after any number of rotations the newest token is live, and the live ones are newest, undeleted and orphaned, counted |
| GitHub.NewestExactly | cred-rotation-api/adapter/github/github.go:138-162 | the newest token is that of the last successful rotation |
| GitHub.OrphanExactly | cred-rotation-api/adapter/github/github.go:138-155 | orphans are exactly the tokens created by a rotation that reported an error |
| GitHub.UndeletedExactly | cred-rotation-api/adapter/github/github.go:164-171 | undeleted are exactly the tokens replaced by a rotation whose delete had no effect |
| GitHub.LiveExactly | cred-rotation-api/adapter/github/github.go:101-174 | which tokens are live, in terms of the rotations alone |
| GitHub.Adapter.Revoke | cred-rotation-api/adapter/github/github.go:179-195 | success exactly for a non-empty id and status 204 or 404, and then the token is not live; deletes at most that token |
| GitHub.Adapter.Rotate | cred-rotation-api/adapter/github/github.go:138-174 | creates before it deletes; on success the old token is gone exactly if the delete took effect, on an error nothing is |
| GitHub.Adapter.Accounting | cred-rotation-api/adapter/github/github.go:101-174 | on the object, whatever rotations were made: LiveExactly, and the count |

## Left out

- Shutdown.ShutdownMeetsDeadline: assumes that clean-ups and Drain are not delayed by scheduling and that the caller's context has no tighter deadline (cred-rotation-api/main.go:150 passes none).
- Server.HttpServer.Shutdown: clean-ups appear only as the moment each adapter becomes idle for good; their interleaving is the subject of module Shutdown.
- Rotation.CredentialAccounting: assumes serial chains, fresh provider ids and no use of Revoke on a chain's credentials; a credential is named by the call that created it.
- Auth0Engine.StorageAgreesWithAuth0: is the case of serialised root rotations, no lost response or failed write after Auth0 acted, no operator write, and no lease for the management application; StorageAgreesExactly covers every run.
- Auth0Engine.RevokedLeaseStaysDead: assumes Auth0 never reissues a secret.
- TokenCache.SentTokensAreFresh: assumes no delay between the end of a fetch and the reading of the clock that stores the expiry, and an `expires_in` that does not overflow a 64-bit nanosecond count.
- TokenCache.Cache.ManagementToken: an accepted answer comes within the client's and the handler's timeout; only calls that nothing overlaps run whole, the interleavings being those of the transition system.
- GitHub.Adapter.Rotate: each call passes the id of the newest token as the old one.
- Renewer.ContinuousCoverage: the truncated float product of the 70% interval is the exact value or 1 ns less, which holds for lifetimes below 104 days; floating point itself is not modelled.
- Pipeline.EndToEnd: Transit is any pair of functions in which a ciphertext opens only under its own key and to its own plaintext; the cipher itself is not modelled.
- HTTP transport, TLS, client-certificate authorisation, JSON, PKI issuance, KV reads and SPIRE attestation: library calls, represented by their outcomes.
- Internals of WaitGroup, RWMutex, the weighted semaphore and http.Shutdown: represented by their contracts.
- The Auth0 adapter's own Rotate and Status: the same steps as the plugin's rotateSecret.
- Revoke and Status handlers, status lookups of the adapters and their search loops, lease renewal, request bodies: single branches or linear searches.
- UTF-8 decoding in the sanitiser: it works on rune sequences. Names use years 0 to 9999 only.
- 64-bit wrap-around of the counters.
- FaultInjector.MockProvider.Wrap: the rest of the program may Block, Unblock and serve other requests meanwhile, but not set the rates; latency injection is a delay between two steps.
