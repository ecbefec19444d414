# firebase-auth-service, modelled in Dafny

This project models the decision logic of a gRPC service that verifies
Firebase ID tokens, together with the interceptor that other gRPC servers
put in front of their handlers to call it. It covers three parts.

- **The public-key cache** (`pubKeys`), in `cache_control.dfy` and `key_cache.dfy`.
  The cache maps key IDs to PEM strings and remembers the last announced
  `max-age` and the time of its last refresh. `get` refreshes first when
  the cache's age in whole seconds exceeds `max-age`. `refresh` merges the
  decoded keys into the map, takes `max-age` from the first `Cache-Control`
  value that matches `max-age=(\d+)`, and stamps the completion time.
  The `PubKeys` class updates its fields in place. Its `Refresh` and `Get`
  methods are proved against the value-level functions `RefreshOutcome`
  and `GetOutcome`, and the lemmas are stated about those functions.
  `Refresh` keeps the loop over the header values, with its early `break`.
- **`APIServer.Verify`**, in `api_server.dfy`. The JWT library is abstract.
  A token string parses either to `Malformed` or to four things: its
  signing-method family, its optional `kid`, its subject, and the library's
  verdict on signature and claims under a given key. PEM parsing is an
  abstract partial function. The model keeps the order of the checks, the
  lookup through the cache, and the single success path. That path sets
  `UserId` to the subject and returns the same token object.
- **The interceptor**, in `interceptors.dfy`. It is pure functions over the
  incoming metadata, a dial outcome and a remote-Verify outcome. The dial
  outcome is a function of the address dialled. The remote-Verify outcome
  is a function of the token sent.

Time is an integer count of nanoseconds since Go's zero `time.Time`, so
the initial `refreshedAt` is 0. Wherever the code calls `time.Now()`, the
model takes the time as a parameter: `now` for the staleness test in
`get`, and `completedAt` for the stamp in `refresh`. The HTTP GET and the
JSON decode together are one `Fetch` value: `FetchFailed`, `DecodeFailed`,
or `Fetched(keys, cacheControl)`.

Behaviour of the code worth noting:

- A key ID missing from the cache reads as the empty string with a nil
  error. It is not a not-found error.
- `get` discards the error of the refresh it triggers and answers from the
  map as it is after that refresh. It does not propagate the fetch error.
  So the `err != nil` branch after the lookup in `Verify` is never taken
  (`KeyUnavailableNeverReported`).
- `refresh` merges the decoded entries into the existing map. It does not
  replace the map.
- A `max-age` whose digits overflow `strconv.Atoi` is an error. In that
  case `refresh` returns after the merge and does not update `refreshedAt`.
- `Verify` returns the JWT library's own error for a malformed token or a
  failed signature or claims check. It is not a status error. The key
  function's rejections come back as Unauthenticated status errors,
  wrapped by the library.
- The interceptor maps an error returned by the dial to `Internal`, and
  any error of the remote `Verify` to `Unauthenticated`.

## Model

| member | source | states |
|---|---|---|
| `CacheControl.DigitRun` | pkg/service/api_server.go:26 | the greedy `\d+`: the run it consumes is all ASCII digits, stays in the value, and stops at a non-digit or at the end |
| `CacheControl.FirstMatchFrom` | pkg/service/api_server.go:26 | the position returned is a match of `max-age=` followed by a digit, and no earlier position from the start is one; None means no position matches |
| `CacheControl.Capture` | pkg/service/api_server.go:166 | the capture group of a match is non-empty, all digits, the text right after `max-age=`, and maximal |
| `CacheControl.FindMaxAge` | pkg/service/api_server.go:166 | a capture found by `FindStringSubmatch` is a non-empty digit string, so `Atoi` sees digits only |
| `CacheControl.NoCaptureIffNoMatch` | pkg/service/api_server.go:166-167 | `FindStringSubmatch` returns nil exactly when the pattern matches at no position of the value |
| `CacheControl.LeftmostMatchWins` | pkg/service/api_server.go:26 | the capture is taken at the leftmost match, whatever matches follow it |
| `CacheControl.Atoi` | pkg/service/api_server.go:168 | `strconv.Atoi` on the digit capture: the value, or a range error above the largest 64-bit int; bounds in `DecimalValueBound` and `ShortMaxAgeFits` |
| `CacheControl.ScanMaxAge` | pkg/service/api_server.go:165-175 | the outcome of the header loop: no hint exactly when no value matches, otherwise the Atoi result of the first matching value, never above the largest Go int; see also `LaterValuesIgnored`, `UnmatchedValuesSkipped` |
| `CacheControl.DecimalValueBound` | pkg/service/api_server.go:168 | a digit string of length n denotes a number below 10^n |
| `CacheControl.ShortMaxAgeFits` | pkg/service/api_server.go:168-171 | `Atoi` accepts every capture of at most 18 digits; only longer ones can fail with a range error |
| `CacheControl.FirstDirective` | pkg/service/api_server.go:165-167 | the index returned is of a `Cache-Control` value that matches, and no earlier value matches; None means no value matches |
| `CacheControl.FirstDirectiveAt` | pkg/service/api_server.go:165-173 | the loop stops at value i when i matches and no earlier value does |
| `CacheControl.LaterValuesIgnored` | pkg/service/api_server.go:165-174 | once a value matches, appending further values changes neither the chosen value nor the outcome of the scan (the `break`) |
| `CacheControl.UnmatchedValuesSkipped` | pkg/service/api_server.go:165-167 | values without a match, placed first, shift the chosen index and leave the scan's outcome unchanged |
| `KeyCache.AgeSeconds` | pkg/service/api_server.go:139 | the age is the elapsed time in whole seconds, truncated toward zero, for forward and backward clocks alike |
| `KeyCache.IsStale` | pkg/service/api_server.go:140 | the staleness test `keysAge > k.maxAge`; its meaning in elapsed nanoseconds is `StaleIffMaxAgeExceeded` |
| `KeyCache.Lookup` | pkg/service/api_server.go:144 | `k.keys[ID]`: the cached PEM, or the empty string for an absent ID |
| `KeyCache.RefreshOutcome` | pkg/service/api_server.go:147-182 | refresh on values; its contract is carried by `FailedFetchKeepsState`, `RefreshMergesKeys`, `RefreshTakesFirstMaxAge`, `MaxAgeOverflowKeepsTimestamp`, `RefreshSucceedsIff`, `RefreshKeepsValid` |
| `KeyCache.GetOutcome` | pkg/service/api_server.go:138-145 | get on values; its contract is carried by `FreshGetKeepsCache`, `StaleGetRefreshesFirst`, `MissingIdAnswersEmpty`, `GetsWithinTtlNeverRefresh` |
| `KeyCache.StaleIffMaxAgeExceeded` | pkg/service/api_server.go:139-140 | with max-age >= 0, the cache is stale iff at least max-age + 1 full seconds have elapsed; an age equal to max-age is fresh |
| `KeyCache.FreshGetKeepsCache` | pkg/service/api_server.go:138-145 | a lookup in a fresh cache changes no field and answers from the map, whatever a fetch would return |
| `KeyCache.StaleGetRefreshesFirst` | pkg/service/api_server.go:140-144 | a lookup in a stale cache refreshes first, ignores the refresh's error, and answers from the map as refreshed |
| `KeyCache.MissingIdAnswersEmpty` | pkg/service/api_server.go:144 | an ID absent from the map answers the empty string |
| `KeyCache.FailedFetchKeepsState` | pkg/service/api_server.go:150-160 | a failed GET or decode returns an error and leaves keys, maxAge and refreshedAt as they were |
| `KeyCache.RefreshMergesKeys` | pkg/service/api_server.go:156-157 | after the decode, IDs in the response take the response's PEM, IDs absent from it keep theirs, and no other ID appears |
| `KeyCache.RefreshTakesFirstMaxAge` | pkg/service/api_server.go:161-175 | maxAge becomes the value of the first matching `Cache-Control` value; with no match it keeps its previous value and the refresh succeeds |
| `KeyCache.MaxAgeOverflowKeepsTimestamp` | pkg/service/api_server.go:168-171 | an Atoi range error fails the refresh after the merge, with maxAge and refreshedAt unchanged |
| `KeyCache.RefreshSucceedsIff` | pkg/service/api_server.go:147-182 | refresh succeeds iff the fetch succeeded and max-age did not overflow; success stamps the completion time, failure keeps maxAge and refreshedAt |
| `KeyCache.RefreshKeepsValid` | pkg/service/api_server.go:165-175 | refresh keeps maxAge between 0 and the largest Go int |
| `KeyCache.RefreshOpensFreshWindow` | pkg/service/api_server.go:139-176 | after a successful refresh completed at t, every lookup before t + (maxAge + 1) s finds the cache fresh |
| `KeyCache.FirstRefreshDecidesStartup` | pkg/service/api_server.go:122-136 | from the empty cache, the first refresh succeeds iff the fetch succeeds without an overflowing max-age; the cache then holds exactly the fetched keys, and maxAge is the announced value or 0 |
| `KeyCache.OneHourScenario` | pkg/service/api_server.go:138-182 | after a fetch of {key1: A} with `max-age=3600`, lookups within the hour answer A for key1 and the empty string for key2, and neither refreshes |
| `KeyCache.GetsWithinTtlNeverRefresh` | pkg/service/api_server.go:138-145 | any number of lookups made while the cache is fresh never refresh it; every answer comes from the unchanged map |
| `KeyCache.PubKeys.constructor` | pkg/service/api_server.go:123-129 | a new cache has an empty map, maxAge 0 and the zero time |
| `KeyCache.PubKeys.Refresh` | pkg/service/api_server.go:147-182 | the loop with its early `break` leaves the fields and returns the error exactly as `RefreshOutcome` says, and keeps the maxAge range |
| `KeyCache.PubKeys.Get` | pkg/service/api_server.go:138-145 | never returns an error; new fields and answer are those of `GetOutcome` |
| `KeyCache.GrabPubKeys` | pkg/service/api_server.go:122-136 | returns a fresh cache iff the first refresh succeeds, else no cache and that refresh's error |
| `AuthServer.CheckHeader` | pkg/service/api_server.go:68-74 | the key function's checks before the lookup: a non-RSA method is rejected first, then a missing kid, otherwise the kid to look up |
| `AuthServer.ResolveKey` | pkg/service/api_server.go:77-86 | the rest of the key function: a lookup error is rejected, then a PEM that does not parse, otherwise the RSA key |
| `AuthServer.VerifyOutcome` | pkg/service/api_server.go:62-102 | Verify on values; its contract is carried by `NonRsaRejectedFirst`, `MissingKidRejectedBeforeLookup`, `PemParseFaultRejected`, `VerifySucceedsIff`, `KeyUnavailableNeverReported` |
| `AuthServer.Token.constructor` | pkg/service/api_server.go:93 | a Token message carries its bearer string and no user ID until Verify sets one |
| `AuthServer.NonRsaRejectedFirst` | pkg/service/api_server.go:68-70 | a non-RSA signing method is rejected before anything else, whatever the kid and signature, with the cache untouched |
| `AuthServer.MissingKidRejectedBeforeLookup` | pkg/service/api_server.go:71-74 | an RSA token without kid is rejected before the lookup, with the cache untouched |
| `AuthServer.PemParseFaultRejected` | pkg/service/api_server.go:81-84 | a looked-up PEM that does not parse is rejected as a key-parse fault for that kid |
| `AuthServer.KeyUnavailableNeverReported` | pkg/service/api_server.go:77-80 | since the lookup never fails, Verify never rejects a token because the key is unavailable |
| `AuthServer.VerifySucceedsIff` | pkg/service/api_server.go:62-102 | Verify succeeds iff the token is well formed, RSA, has a kid whose looked-up PEM parses, and verifies under that key; the answer is then the subject |
| `AuthServer.UnknownKidInFreshCacheRejected` | pkg/service/api_server.go:77-84 | a kid unknown to a fresh cache is rejected without forcing a refresh |
| `AuthServer.FreshKeySignedTokenVerifies` | pkg/service/api_server.go:67-99 | a token signed with a key held by a fresh cache verifies to its subject, and the cache is left as it was |
| `AuthServer.APIServer.constructor` | pkg/service/api_server.go:59 | the server holds the cache it was built with |
| `AuthServer.APIServer.Verify` | pkg/service/api_server.go:62-102 | the result and the cache follow `VerifyOutcome`; on success UserId is set to the subject and the same token is returned; on failure the token is left unannotated |
| `AuthServer.NewAPIServer` | pkg/service/api_server.go:54-60 | a server exists iff the first key refresh succeeded; otherwise no server and that error |
| `Interceptors.NewAuthInterceptor` | pkg/service/interceptors.go:36-44 | `GetFirebaseAuthServiceAddr` returns exactly the address given to the constructor |
| `Interceptors.Authorization` | pkg/service/interceptors.go:77-78 | `md["authorization"]`: the authorization values, empty when the context has no metadata or no such entry |
| `Interceptors.Interceptor.GetFirebaseAuthServiceAddr` | pkg/service/interceptors.go:42-44 | the configured address; see `NewAuthInterceptor` |
| `Interceptors.Interceptor.Authenticate` | pkg/service/interceptors.go:76-99 | authenticate; its contract is carried by `AuthenticateSucceedsIff`, `NoTokenRejectedWithoutDial`, `DialFailureIsInternal`, `VerifyFailureIsUnauthenticated`, `OnlyFirstTokenSent`, `RejectionCodes` |
| `Interceptors.Interceptor.AuthUnaryInterceptor` | pkg/service/interceptors.go:47-59 | the unary interceptor; its contract is `UnaryCallsHandlerIffAuthenticated` |
| `Interceptors.Interceptor.AuthStreamInterceptor` | pkg/service/interceptors.go:62-74 | the stream interceptor; its contract is `StreamCallsHandlerIffAuthenticated` |
| `Interceptors.AuthenticateSucceedsIff` | pkg/service/interceptors.go:76-99 | authenticate returns nil iff there is a token, the dial to the configured address succeeds, and the remote Verify accepts the first token |
| `Interceptors.NoTokenRejectedWithoutDial` | pkg/service/interceptors.go:77-80 | no metadata or an empty authorization list gives Unauthenticated, the same whatever the network would do, so nothing is dialled |
| `Interceptors.DialFailureIsInternal` | pkg/service/interceptors.go:82-88 | a failed dial gives Internal |
| `Interceptors.VerifyFailureIsUnauthenticated` | pkg/service/interceptors.go:93-96 | any remote Verify failure gives Unauthenticated |
| `Interceptors.OnlyFirstTokenSent` | pkg/service/interceptors.go:93 | the outcome depends only on the first authorization value |
| `Interceptors.RejectionCodes` | pkg/service/interceptors.go:76-99 | every rejection is Unauthenticated or Internal, and Internal exactly for a failed dial |
| `Interceptors.UnaryCallsHandlerIffAuthenticated` | pkg/service/interceptors.go:47-59 | the unary interceptor returns handler(ctx, req) unchanged iff authenticate is nil; otherwise (nil, err), whatever the handler |
| `Interceptors.StreamCallsHandlerIffAuthenticated` | pkg/service/interceptors.go:62-74 | the stream interceptor authenticates with the stream's context and returns handler(srv, stream) iff that succeeds; otherwise the authentication error, whatever the handler |
| `Interceptors.BackgroundContextRejected` | pkg/service/interceptors_test.go:14-21 | a unary call on a background context without metadata fails |

## Left out

- The HTTP client, its 5-second timeout and the JSON decoder are one abstract `Fetch` outcome.
- On a decode error the model keeps the map as it was. The real decoder may already have stored some entries before it failed.
- A JSON `null` body is not a decode error: `Decode` succeeds and sets the map to nil, and `refresh` then stamps the time and returns nil, so the cache is emptied. A `Fetched` outcome is always merged into the map, so the model cannot express this emptying.
- The JWT library is abstract: token parsing, RSA signature checking, claim checking (expiry, not-before), and PEM-to-RSA conversion.
- The success check at api_server.go:92-101 relies on the library's contract that a nil error means a valid token. So the "Invalid token" error there cannot be reached and is not modelled.
- The model does not say which gRPC status code the library's own errors become on the wire. The model keeps them distinct (`TokenRejected`).
- The `kid` header is taken to be a string. A non-string `kid` makes the type assertion at api_server.go:76 panic.
- Concurrency is out of scope and the model is single-threaded: the mutex, the unsynchronised reads in `get`, and racing refreshes.
- The age calculation is modelled exactly in integers. Go converts it through a float (`Duration.Seconds`), and that float rounding is not modelled. Nor is the saturation of `time.Sub` at about 292 years.
- `strconv.Atoi` assumes a 64-bit `int`.
- gRPC transport is out of scope: the server, `Start`, the listener, the dial options, the client stub, contexts and the 5-second Verify timeout. The dial and the remote Verify are opaque outcomes.
- The blocking dial has no deadline. For an unreachable address it does not return, so the call blocks. `dialSucceeds = false` stands only for errors Dial returns.
- The "Wrong metadata" status message leaves out the formatted metadata that the source appends.
- Logging, `init`, `ConfigKey` and `cmd/service/main.go` have no logic to model.
