# Rate limiting, caching and the cart, verified in Dafny

This project models the request path of an e-commerce server written in Go,
plus two pure parts of its Next.js client, and proves properties of that model:

- the Redis-backed rate limiter (`server/middleware/rate_limiter.go`):
  - the sliding-window and token-bucket Lua scripts;
  - the fail-open checks;
  - the client identifier;
  - the 429 middleware;
- the Redis cache (`server/cache/cache.go`):
  - Set, Get, Delete, pattern and tag invalidation, statistics;
  - the typed wrappers for users, sessions, API responses and queries;
- the response cache middleware (`server/middleware/cache.go`):
  - the capturing writer;
  - the cache key;
  - hit replay and miss capture;
- the access-token middleware (`server/middleware/auth.go`);
- the client address helpers (`server/utils/client.go`, `server/utils/jwt.go`);
- the route table and its middleware order (`server/routes/user_routes.go`);
- the cart reducer (`client/src/contexts/cartContext.tsx`);
- the zod form schemas (`client/src/types.tsx`).

Files, one module each:

| file | module | what it holds |
|---|---|---|
| `wrappers.dfy` | `Wrappers` | `Option`, `Result` |
| `text.dfy` | `Text` | prefixes, `strings.Split`/`Join`, `strings.TrimSpace`, decimal and hex rendering, the SHA-256 type |
| `http.dfy` | `Http` | headers, requests, writer calls, `Handler`/`Middleware`, `utils.WriteError`, `http.Error` |
| `client_ip.dfy` | `ClientIp` | `utils.GetClientIP`, `utils.GetClientInfo` |
| `rate_limiter.dfy` | `RateLimit` | the two scripts as step functions, the `RateLimiter` store class, the checks and the middleware |
| `cache.dfy` | `Cache` | the Redis keyspace, the cache operations as step functions, the `Cache` class and its wrappers |
| `response_cache.dfy` | `ResponseCache` | the `ResponseWriter` class, the cache key, `APICacheMiddleware` |
| `auth.dfy` | `Auth` | `AuthMiddleware` |
| `routes.dfy` | `Routes` | `methodGuard`, `applyMiddleware`, `SetupRoutes` |
| `cart.dfy` | `Cart` | the cart operations and totals |
| `forms.dfy` | `Forms` | the four schemas as issue lists |

How the model is built:

- **Redis state.** Each store keeps its Redis data in a class:
  - `RateLimiter` holds its sorted sets and bucket hashes;
  - `Cache` holds the whole keyspace as a map from key to value.
- **Methods and step functions.** Each command sequence is a method. Its
  `ensures` ties the reply and the new state to a pure step function of the
  old state. The lemmas are proved about the step functions.
- **Unreachable store.** A connection failure is a `storeDown` flag. The
  call then returns the source's error or fail-open result and the state
  stays as it was.
- **HTTP.** A handler maps a request and the response header map to an
  `Outcome`, which holds:
  - the final header map;
  - the writer calls made;
  - a trace of the store operations (`Step`).

  A middleware maps handlers to handlers. "The wrapped handler never runs"
  is stated as: the outcome is the same whichever handler is wrapped.

Three behaviours of the code a reader may not expect:

- **Store errors in `Cache.Get`.** A store error other than a miss is
  returned as an error (`Failed(StoreError)`), not turned into a miss
  (`server/cache/cache.go:134`). `APICacheMiddleware` then treats any error
  as a miss (`server/middleware/cache.go:58`).
- **Hit replay.** A hit does not replay the stored headers verbatim. Each
  stored value is added after the headers already set, so a stored
  `X-Cache: MISS` follows the new `HIT` (`HitRepeatsStoredMarker`).
- **Middleware order.** The comment above `applyMiddleware`
  (`server/routes/user_routes.go:65`) says the first middleware wraps the
  innermost. The loop in fact makes the first listed
  middleware the outermost, the first to run (`Routes.ChainOrder`).

## Model

| member | source | states |
|---|---|---|
| ClientIp.FirstForwarded | server/utils/client.go:11-21 | the first comma-separated X-Forwarded-For entry, trimmed: it holds no comma and neither starts nor ends with a space |
| ClientIp.GetClientIP | server/utils/client.go:9-36 | a parseable first X-Forwarded-For entry wins, then a parseable X-Real-IP, then the host part of RemoteAddr, then RemoteAddr unchanged; the result is always one of these four |
| ClientIp.ClientIpFromHeaderParses | server/utils/client.go:11-27 | an address taken from a header always parses as an IP |
| ClientIp.GetClientInfo | server/utils/jwt.go:95-112 | the device string is never empty |
| ClientIp.ClientInfoAgreesOnSingleAddress | server/utils/jwt.go:97-103 | with a single trimmed, parseable X-Forwarded-For address, GetClientInfo and GetClientIP give the same address |
| ClientIp.ClientInfoKeepsWholeForwardedList | server/utils/jwt.go:97-103 | with a comma in X-Forwarded-For, GetClientInfo keeps the whole list, so it differs from GetClientIP whenever the header is used |
| Http.WriteError | server/utils/response.go:22-28 | JSON content type, the status, then one error object {error: status text, message} |
| Http.HttpError | server/routes/user_routes.go:58 | http.Error: text/plain content type, nosniff, the status, then the message and a newline |
| RateLimit.GoDiv | server/middleware/rate_limiter.go:238-241 | Go's integer division truncates toward zero, for either sign of the dividend |
| RateLimit.FloorDiv | server/middleware/rate_limiter.go:102 | Lua's math.floor of a quotient: q·b ≤ a < q·b + b for positive divisors (and the mirror bound for negative ones) |
| RateLimit.Pruned | server/middleware/rate_limiter.go:68 | ZREMRANGEBYSCORE 0 cutoff: keeps exactly the scores outside [0, cutoff] and never grows the set |
| RateLimit.MinScore | server/middleware/rate_limiter.go:79-83 | the oldest score: a member of the set, no larger than any other |
| RateLimit.Above | server/middleware/rate_limiter.go:68 | the scores above a cutoff, as a reference for pruning |
| RateLimit.PrunedIsAbove | server/middleware/rate_limiter.go:68 | on timestamps, pruning to a cutoff keeps exactly the scores above it |
| RateLimit.AboveAbove | server/middleware/rate_limiter.go:68 | filtering above a, then above c ≥ a, is filtering above c |
| RateLimit.AboveAppend | server/middleware/rate_limiter.go:68-74 | adding a score and then filtering adds it only when it is above the cutoff |
| RateLimit.PrunedAppend | server/middleware/rate_limiter.go:68-74 | pruning after adding a score is pruning first, then adding it unless it falls in [0, cutoff] |
| RateLimit.PrunedIdempotent | server/middleware/rate_limiter.go:68 | pruning twice with the same cutoff is pruning once |
| RateLimit.PrunedMonotone | server/middleware/rate_limiter.go:68-71 | a later cutoff leaves no more scores in the window |
| RateLimit.SlidingWindowAdmits | server/middleware/rate_limiter.go:68-85 | admits iff the pruned count is below the limit; on admission remaining = limit − count − 1, reset = now + window and now joins the set; on denial remaining is 0 and the set is only pruned |
| RateLimit.SlidingWindowDenialReset | server/middleware/rate_limiter.go:78-85 | a denial's reset time (oldest score + window) lies in (now, now + window] |
| RateLimit.SlidingWindowKeepsBound | server/middleware/rate_limiter.go:68-77 | a window holding at most limit scores still holds at most limit after the script |
| RateLimit.SlidingWindowBoundLater | server/middleware/rate_limiter.go:68-71 | a window bound at one time still holds at any later time |
| RateLimit.SlidingRun | server/middleware/rate_limiter.go:61-86 | one script call per arrival, in order: one decision per arrival |
| RateLimit.AdmittedInBelowAbove | server/middleware/rate_limiter.go:61-86 | admissions inside (lo, hi] are no more than admissions above lo |
| RateLimit.SlidingRunShape | server/middleware/rate_limiter.go:61-86 | after any ordered run the set holds at most limit timestamps, none later than the last arrival |
| RateLimit.SlidingRunCounts | server/middleware/rate_limiter.go:61-86 | above any cutoff inside the last window, the set holds exactly the admitted arrivals |
| RateLimit.PrefixOrdered | server/middleware/rate_limiter.go:61-86 | a prefix of an ordered run of timestamps is an ordered run of timestamps |
| RateLimit.StepAbove | server/middleware/rate_limiter.go:68-77 | one call adds one score above a cutoff exactly when it admits a request later than that cutoff |
| RateLimit.AdmitsAtMostLimitAfterLast | server/middleware/rate_limiter.go:61-86 | a window ending at or after the last arrival holds at most limit admitted arrivals |
| RateLimit.SlidingWindowAdmitsAtMostLimit | server/middleware/rate_limiter.go:61-86 | for any arrival order and any window (hi − W, hi], at most limit requests are admitted |
| RateLimit.TokenBucketKeepsBounds | server/middleware/rate_limiter.go:89-115 | tokens stay in [0, capacity]; admits iff a token remains after the refill, spends one on admission, and stamps last_refill = now on both branches |
| RateLimit.TokenBucketFreshKey | server/middleware/rate_limiter.go:96-99 | a fresh key starts full: it admits iff the capacity is at least one and leaves capacity − 1 tokens |
| RateLimit.TokenBucketClockSkew | server/middleware/rate_limiter.go:101-103 | a last_refill later than now refills negatively: 0 tokens, capacity 3 and 5 s of skew give −5 tokens |
| RateLimit.RateLimiter.constructor | server/middleware/rate_limiter.go:118-122 | a limiter over an empty store |
| RateLimit.RateLimiter.PutScores | server/middleware/rate_limiter.go:68-77 | writes one sorted set (an empty set deletes the key) and nothing else |
| RateLimit.RateLimiter.SlidingWindowScript | server/middleware/rate_limiter.go:61-86 | the script's reply and new set are SlidingWindowStep of the old set; other keys and all hashes are unchanged |
| RateLimit.RateLimiter.TokenBucketScript | server/middleware/rate_limiter.go:89-115 | the reply and new hash are TokenBucketStep of the old hash; only that key changes |
| RateLimit.RateLimiter.SlidingWindowCheck | server/middleware/rate_limiter.go:129-160 | store down: fail open, allowing with limit − 1 remaining and the store unchanged; otherwise the script's result under prefix:id:sliding |
| RateLimit.RateLimiter.CheckRateLimit | server/middleware/rate_limiter.go:124-127 | always the sliding-window check |
| RateLimit.RateLimiter.TokenBucketCheck | server/middleware/rate_limiter.go:162-192 | store down: fail open with burst − 1; otherwise the bucket script under prefix:id:bucket with interval 60 / requestsPerMinute |
| RateLimit.ResultFromReply | server/middleware/rate_limiter.go:148-159 | the result's reset time falls in the reply's reset second, and Retry-After is reset − now |
| RateLimit.SlidingFailOpen | server/middleware/rate_limiter.go:137-146 | fail-open result: allowed, limit − 1 remaining, reset one window ahead, no retry |
| RateLimit.BucketFailOpen | server/middleware/rate_limiter.go:170-178 | fail-open result: allowed, burst − 1 remaining, reset one refill interval ahead |
| RateLimit.LimitIgnoresHourAndDay | server/middleware/rate_limiter.go:23-58 | the hourly and daily limits change neither the result nor the key: only the per-minute limit is enforced |
| RateLimit.GetClientIdentifier | server/middleware/rate_limiter.go:194-211 | user:<id> when authenticated, else ip:<address>:ua:<fingerprint> when there is a User-Agent, else ip:<address> |
| RateLimit.UserAgentFingerprint | server/middleware/rate_limiter.go:204-207 | the first 16 hex digits of the User-Agent's SHA-256 |
| RateLimit.IdentifiersSeparateUsers | server/middleware/rate_limiter.go:194-211 | an authenticated user never shares a bucket with an anonymous client, nor with another user |
| RateLimit.RateLimited | server/middleware/rate_limiter.go:214-248 | the X-RateLimit-* headers are set before the decision; a denial is answered by Denied, an admission runs next once after the check |
| RateLimit.Denied | server/middleware/rate_limiter.go:237-243 | 429 with Retry-After in whole seconds and the "Try again in N seconds" JSON error; all other headers except Content-Type are unchanged |
| RateLimit.RateLimitDenial | server/middleware/rate_limiter.go:237-243 | a denied request gets 429, Retry-After and X-RateLimit-Remaining, and the wrapped handler never runs |
| RateLimit.RateLimitAdmission | server/middleware/rate_limiter.go:233-245 | an admitted request runs the handler once, with the rate-limit headers already set |
| RateLimit.RateLimitCheckedFirst | server/middleware/rate_limiter.go:222-223 | admitted or not, a request's first store operation is its rate-limit check |
| Cache.Incr | server/cache/cache.go:112 | INCR: adds one to an absent or integer key and fails with nothing changed on any other type |
| Cache.HIncrBy | server/cache/cache.go:113 | HINCRBY: adds d to one field of an absent or hash key and leaves the other fields; fails with nothing changed on other types |
| Cache.SetWritesItem | server/cache/cache.go:94-122 | the item (expiring at now + ttl, version 1, no tags) is written under prefix:key; the sets counter and the prefix's size field rise by one; the pipeline's error is the first wrong-type error; nothing else changes |
| Cache.SetMarshalFailure | server/cache/cache.go:103-106 | when the value cannot be encoded, Set fails before touching the store |
| Cache.GetAbsentIsMiss | server/cache/cache.go:127-133 | an absent key is a miss that counts one miss and changes nothing else |
| Cache.GetExpiredIsMiss | server/cache/cache.go:142-147 | an expired item is deleted, its size field drops by one, and one miss is counted |
| Cache.GetAtExpiryIsHit | server/cache/cache.go:143 | an item read exactly at its expiry time is still a hit |
| Cache.GetDecodeFailure | server/cache/cache.go:137-157 | a value that is not an item, or an item that does not fit the destination, is an error and changes nothing |
| Cache.SetThenGet | server/cache/cache.go:94-162 | a value set is read back as a hit within its TTL, counting one hit and no miss |
| Cache.DeleteTwice | server/cache/cache.go:164-173 | deleting twice removes the key but decrements the size field twice |
| Cache.InvalidateByPatternExact | server/cache/cache.go:175-185 | deletes exactly the keys matching the pattern |
| Cache.InvalidateByTagExact | server/cache/cache.go:187-201 | a wrong type is an error with nothing changed; an empty or absent tag changes nothing; otherwise exactly the members and the tag key are deleted |
| Cache.SetRecordsNoTags | server/cache/cache.go:94-122 | Set never records tags, so invalidating by a tag nobody wrote changes nothing, even just after a Set |
| Cache.HitRate | server/cache/cache.go:220-223 | 0 when there is no lookup; otherwise hits / (hits + misses), which lies within [0, 1] |
| Cache.MemoryUsageFirstMatch | server/cache/cache.go:294-302 | the value of the first used_memory_human: line, or "Unknown" when there is none |
| Cache.ExtractMemoryUsage | server/cache/cache.go:294-302 | the loop over the CRLF-separated lines returns MemoryUsage of those lines |
| Cache.GenerateQueryKey | server/cache/cache.go:285-292 | the first 16 hex digits of the SHA-256 of the query followed by each argument's %v text |
| Cache.QueryKeysCollide | server/cache/cache.go:285-292 | arguments are joined without separators, so ("a", ["b"]) and ("ab", []) share a key |
| Cache.UserIdKeyShape | server/cache/cache.go:238-247 | a user's key is user:id: followed by the decimal id |
| Cache.SessionIdKeyShape | server/cache/cache.go:248-256 | a session's key starts with session: |
| Cache.IdKeysSeparate | server/cache/cache.go:238-256 | distinct user ids get distinct keys, and a user key never equals a session key |
| Cache.APIResponseKeysCollide | server/cache/cache.go:258-271 | ("/a", "b") and ("/ab", "") share one API-response key, because nothing separates the endpoint from the params |
| Cache.APIResponseKey | server/cache/cache.go:258-271 | the key is the 64 hex digits of the SHA-256 of the endpoint directly followed by the params, with no separator |
| Cache.Cache.constructor | server/cache/cache.go:87-91 | a cache over the given keyspace |
| Cache.Cache.Set | server/cache/cache.go:94-122 | store down: an error and nothing written (after the marshal check); otherwise SetStep |
| Cache.Cache.Delete | server/cache/cache.go:164-173 | store down: an error, nothing changed; otherwise DeleteStep |
| Cache.Cache.Get | server/cache/cache.go:124-162 | store down: an error, not a miss; otherwise GetStep |
| Cache.Cache.InvalidateByPattern | server/cache/cache.go:175-185 | store down: an error; otherwise the matching keys are deleted |
| Cache.Cache.InvalidateByTag | server/cache/cache.go:187-201 | store down: an error; otherwise InvalidateByTagStep |
| Cache.Cache.GetStats | server/cache/cache.go:203-235 | the first pipeline error (a missing hits or misses counter included), else the counters, the hit rate, the number of size fields and the memory line; nothing changes |
| Cache.Cache.CacheUser | server/cache/cache.go:238-241 | Set under user:id:<id> with the 30-minute user config |
| Cache.Cache.GetCachedUser | server/cache/cache.go:243-246 | Get under user:id:<id> |
| Cache.Cache.CacheSession | server/cache/cache.go:248-251 | Set under session:id:<id> with the 24-hour session config |
| Cache.Cache.GetCachedSession | server/cache/cache.go:253-256 | Get under session:id:<id> |
| Cache.Cache.CacheAPIResponse | server/cache/cache.go:258-264 | Set under the key hashed from the endpoint directly followed by the params, with the 5-minute config |
| Cache.Cache.GetCachedAPIResponse | server/cache/cache.go:266-271 | Get under the same key |
| Cache.Cache.CacheQuery | server/cache/cache.go:274-277 | Set under the query key with the 15-minute config |
| Cache.Cache.GetCachedQuery | server/cache/cache.go:279-282 | Get under the query key |
| ResponseCache.CapturedStatusIsLastCode | server/middleware/cache.go:33-36 | the captured status is 200 without WriteHeader, else the last code written |
| ResponseCache.CapturedBodyAppend | server/middleware/cache.go:28-31 | the captured body of two call runs is the concatenation of their bodies |
| ResponseCache.ResponseWriter.constructor | server/middleware/cache.go:78-82 | starts at status 200 with an empty body and nothing forwarded |
| ResponseCache.ResponseWriter.Write | server/middleware/cache.go:28-31 | appends the bytes to the body and forwards the write |
| ResponseCache.ResponseWriter.WriteHeader | server/middleware/cache.go:33-36 | records the code and forwards it |
| ResponseCache.ResponseWriter.WriteJson | server/utils/response.go:13-20 | a JSON write through the capturing writer appends its encoding and forwards it |
| ResponseCache.ResponseWriter.Serve | server/middleware/cache.go:84-85 | after a handler's calls the writer holds the last status, the whole body, and forwarded every call in order |
| ResponseCache.Capture | server/middleware/cache.go:78-85 | a fresh writer ends with CapturedStatus and CapturedBody of the handler's calls |
| ResponseCache.CacheKey | server/middleware/cache.go:111-125 | 16 hex digits |
| ResponseCache.KeyHeaders | server/middleware/cache.go:116-121 | the header loop yields Name:value for each of the three key headers that is present, in order |
| ResponseCache.GenerateCacheKey | server/middleware/cache.go:111-125 | the loop builds path, query and the three negotiation headers and returns CacheKey |
| ResponseCache.CacheKeyIgnoresOtherHeaders | server/middleware/cache.go:111-125 | requests that agree on path, query, Accept, Accept-Language and Accept-Encoding share a key |
| ResponseCache.WithStoredHeaders | server/middleware/cache.go:66-70 | every stored value is added after the values already set |
| ResponseCache.AddValues | server/middleware/cache.go:67-69 | the inner loop appends every value under one name, in order, and touches no other name |
| ResponseCache.AddStoredHeaders | server/middleware/cache.go:66-70 | the nested loops over the stored headers produce WithStoredHeaders |
| ResponseCache.ServeHit | server/middleware/cache.go:60-74 | a hit writes the stored status and body, adds the stored headers, and puts HIT and the RFC 3339 date first |
| ResponseCache.ToStore | server/middleware/cache.go:88-105 | a write is scheduled iff the captured status is 2xx, holding status, headers, body and time |
| ResponseCache.CacheBypass | server/middleware/cache.go:42-51 | non-GET requests and requests with an Authorization header go straight to the handler |
| ResponseCache.CacheHitSkipsHandler | server/middleware/cache.go:60-74 | on a hit the handler never runs, and the stored response is replayed with X-Cache HIT |
| ResponseCache.CacheMissRunsHandler | server/middleware/cache.go:78-105 | on a miss the handler runs once with X-Cache MISS; its response passes through, and one store is scheduled iff it is 2xx |
| ResponseCache.CacheReadFirst | server/middleware/cache.go:53-58 | a cacheable request's first step, hit or miss, is the lookup under its key |
| ResponseCache.HitRepeatsStoredMarker | server/middleware/cache.go:60-74 | replaying a stored miss yields X-Cache: HIT, MISS |
| Auth.RawToken | server/middleware/auth.go:13-21 | a non-empty Authorization header, else the access_token cookie, else none |
| Auth.Accepted | server/middleware/auth.go:24-31 | accepted iff there is a token, it validates, and its type is access |
| Auth.BearerStrippedOnce | server/middleware/auth.go:24 | "Bearer " is removed once; a header without it is validated verbatim |
| Auth.DoubledBearerKeepsOne | server/middleware/auth.go:24 | "Bearer Bearer x" is validated as "Bearer x" |
| Auth.AuthRejects | server/middleware/auth.go:16-31 | a rejected request gets 401 with "Access token required" or "Invalid access token", and the handler never runs |
| Auth.AuthAccepts | server/middleware/auth.go:33-37 | an accepted request runs the handler once, with user id, email and session id in its context |
| Auth.HeaderBeforeCookie | server/middleware/auth.go:13-18 | with a non-empty header the cookie is never consulted |
| Routes.MethodGuardDecides | server/routes/user_routes.go:55-63 | a wrong method gets 405 from http.Error without running the handler; the right method runs it unchanged |
| Routes.ApplyMiddleware | server/routes/user_routes.go:66-71 | the loop from the last middleware to the first yields Chain, with the first listed outermost |
| Routes.ChainAppend | server/routes/user_routes.go:66-71 | wrapping with a concatenation is wrapping with the second list, then the first |
| Routes.ChainOrder | server/routes/user_routes.go:65-71 | the first middleware listed runs first |
| Routes.ProductsRoute | server/routes/user_routes.go:36-41 | /products is served by the GET guard around the API limiter, then the cache, then the endpoint |
| Routes.ProductsChainAdmits | server/routes/user_routes.go:37-40 | inside that chain an admitted anonymous GET is checked first, then looked up |
| Routes.ProductsDenialSkipsCache | server/routes/user_routes.go:36-41 | on /products a denied request never reaches the cache lookup |
| Routes.ProductsAdmittedReachesCache | server/routes/user_routes.go:36-41 | on /products an admitted anonymous GET is checked, then looked up in the cache |
| Routes.ProtectedShape | server/routes/user_routes.go:28-48 | /logout and /me run the method guard, then AuthMiddleware, then the auth limiter |
| Routes.ProtectedRejectedUncounted | server/routes/user_routes.go:28-48 | on /logout and /me an unauthenticated request gets 401 and is never counted |
| Routes.ProtectedAcceptedCountedPerUser | server/routes/user_routes.go:28-48 | on /logout and /me an authenticated request is counted under user:<id> |
| Routes.WrongMethodStopsAtGuard | server/routes/user_routes.go:15-48 | on every route a method other than GET and POST gets 405 before any middleware |
| Cart.FindLine | client/src/contexts/cartContext.tsx:97-102 | findIndex on the (id, size, colour) triple: the first matching line, or none when no line matches |
| Cart.ClearCart | client/src/contexts/cartContext.tsx:137-139 | the empty cart |
| Cart.Total | client/src/contexts/cartContext.tsx:154-168 | subtotal − 10 + 10 equals the subtotal |
| Cart.AddExistingLine | client/src/contexts/cartContext.tsx:97-111 | merging adds the product's quantity to its line; the length, the position and every other line are unchanged |
| Cart.AddNewLine | client/src/contexts/cartContext.tsx:113 | a new triple is appended at the end |
| Cart.AddKeepsLinesDistinct | client/src/contexts/cartContext.tsx:97-113 | no two lines share a triple, before and after adding |
| Cart.ItemsCountAppend | client/src/contexts/cartContext.tsx:170-173 | appending a line adds its quantity to the count |
| Cart.ItemsCountUpdate | client/src/contexts/cartContext.tsx:104-111 | changing one line's quantity by d changes the count by d |
| Cart.AddRaisesCount | client/src/contexts/cartContext.tsx:91-115 | adding raises the item count by exactly the product's quantity |
| Cart.SubtotalUpdate | client/src/contexts/cartContext.tsx:149-152 | changing one line's quantity by d changes the subtotal by its price times d |
| Cart.SubtotalAppend | client/src/contexts/cartContext.tsx:149-152 | appending a line adds its price times its quantity to the subtotal |
| Cart.AddSubtotalMerged | client/src/contexts/cartContext.tsx:104-111 | a merged product is charged at the price already on its line, not at its own |
| Cart.AddSubtotalNew | client/src/contexts/cartContext.tsx:113 | a product on a new line is charged at its own price times its quantity |
| Cart.RemoveDropsKey | client/src/contexts/cartContext.tsx:124-131 | no line of the removed triple survives, and the cart does not grow |
| Cart.RemoveTakesFromCart | client/src/contexts/cartContext.tsx:124-131 | every surviving line, counted with multiplicity, was in the cart |
| Cart.RemoveKeepsEach | client/src/contexts/cartContext.tsx:124-131 | every line of another triple survives |
| Cart.RemoveKeepsKeyAbsent | client/src/contexts/cartContext.tsx:124-131 | a triple absent from the cart is absent after any removal |
| Cart.RemoveKeepsOthers | client/src/contexts/cartContext.tsx:124-131 | no line of the triple survives; every other line does, and nothing new appears |
| Cart.RemoveAbsent | client/src/contexts/cartContext.tsx:124-131 | removing an absent triple leaves the cart unchanged |
| Cart.RemoveTwice | client/src/contexts/cartContext.tsx:124-131 | removing twice is removing once |
| Cart.RemoveKeepsLinesDistinct | client/src/contexts/cartContext.tsx:124-131 | removal keeps the triples distinct |
| Cart.AddThenRemove | client/src/contexts/cartContext.tsx:113-131 | adding a new line and removing its triple restores the cart |
| Cart.RemoveAppend | client/src/contexts/cartContext.tsx:124-131 | the filter distributes over concatenation, keeping order |
| Forms.Utf16Length | client/src/types.tsx:24-81 | a string's length in UTF-16 code units lies between its character count and twice that count |
| Forms.ShippingAccepts | client/src/types.tsx:23-33 | no issue iff name, email, address and city are non-empty and the phone is 7 to 10 code units long |
| Forms.ShippingPhoneUnchecked | client/src/types.tsx:26-30 | the phone's characters are not checked: seven letters pass |
| Forms.ExpirationIsMonthSlashYear | client/src/types.tsx:43-45 | the regex accepts exactly two digits forming a month 01 to 12, a slash, then two digits |
| Forms.PaymentAccepts | client/src/types.tsx:37-47 | no issue iff the holder is non-empty, the card number is 16 code units long, the date is MM/YY and the CVV is 3 code units long |
| Forms.CardNumberReportedOnce | client/src/types.tsx:39-42 | a card number of the wrong length is reported once |
| Forms.ExpirationExamples | client/src/types.tsx:45 | 13/25 and 1/25 are refused; 12/99 is accepted |
| Forms.LoginAccepts | client/src/types.tsx:62-68 | no issue iff the email is valid and the password is 6 to 20 code units long |
| Forms.RegisterAccepts | client/src/types.tsx:72-82 | no issue iff the name is 2 to 100 code units long, the email is valid and the password is 6 to 20 code units long |
| Forms.RegisterPasswordLogsIn | client/src/types.tsx:64-81 | a form that registers passes the login schema with the same email and password |
| Forms.Utf16LengthBasic | client/src/types.tsx:24-81 | without supplementary-plane characters the length is the character count |
| Forms.EmojiPhone | client/src/types.tsx:26-29 | four emoji are 8 code units and pass the phone check |

## Left out

- **Redis and Lua.**
  - The network connection is a `storeDown` flag. Timeouts, retries and
    the 500 ms context deadline are not modelled.
  - Redis's own key expiry (the TTL given to SET and EXPIRE) is not
    modelled; the sets and buckets keep their keys.
  - Atomicity of EVAL is taken as given: each script is one method call.
  - RateLimit.SlidingWindowStep: every admission is assumed to add a new
    sorted-set member. The script's member is the whole Unix second
    followed by `math.random()` (`server/middleware/rate_limiter.go:75`,
    `:131`); two admissions in one second that draw the same suffix would
    make ZADD update one member, so the set would not grow. The quota
    bounds of `RateLimit.SlidingWindowAdmitsAtMostLimit`,
    `RateLimit.SlidingWindowKeepsBound`, `RateLimit.SlidingRunCounts` and
    `RateLimit.SlidingRunShape` hold only under that assumption.
- **Foreign functions are parameters.** SHA-256, `net.ParseIP`,
  `net.SplitHostPort`, the KEYS glob matcher, `json.Unmarshal` into the
  destination (the `fits` predicate), `json.Marshal` of an error object,
  `utils.ValidateToken` (JWT signature and expiry) and RFC 3339 time
  formatting.
  - Cache item data is kept as already-encoded text, so the JSON round trip
    of `item.Data` is taken to be the identity.
- **Lookup oracle.** In `ResponseCache`, a lookup stands for
  `cache.DefaultCache.Get` with the API-response configuration. The
  asynchronous store of a 2xx response is a scheduled step in the trace; its
  goroutine, its 5-second timeout and its logging are not modelled.
- **Header canonicalisation.** Header names are used as written;
  `http.CanonicalHeaderKey` is not modelled. Path cleaning and pattern
  matching in `ServeMux` are reduced to exact path equality. The CORS
  wrapper (`middleware.EnableCORS`) is not part of this model.
- **Floating point.** The hit rate is a real number, not a float64. Cart
  prices are reals and quantities integers, where JavaScript uses doubles.
  So the subtotal is exact, and `Cart.Total` equals it exactly, which double
  arithmetic only approximates.
- **Token bucket interval.** `RateLimit.RateLimiter.TokenBucketCheck` requires
  `requestsPerMinute != 0`. Go's integer division by zero would panic, and
  an interval of 0 would make the Lua division by zero produce an infinite
  refill. Neither configuration exists in the source.
- **CheckRateLimit error branch.** The `err != nil` branch of
  `RateLimitMiddleware` (`server/middleware/rate_limiter.go:225-230`) is unreachable, because
  the check fails open rather than returning an error. The model has no such
  branch.
- **Per-hour and per-day limits.** These fields are carried but never
  enforced, as in the source.
- **One auth quota.** `/register`, `/login`, `/logout` and `/me` share one
  `AuthRateLimit` quota per identifier, since their keys do not include
  the path. The model states this only through the shared key.
- **GetStats on a fresh store.** `Cache.Cache.GetStats` fails with the nil
  reply while the hits or misses counter does not exist yet. This is how
  go-redis's pipeline `Exec` behaves; the model keeps it.
- **Device identifiers.** `GenerateDeviceID` and the rest of
  `server/utils/jwt.go` (token generation and validation) are not part of
  this model.
- **`z.email`.** Its address grammar is a parameter of the login and
  register validators.
- **Zod's other results.** The zod parse result beyond the issue list (parsed
  values, issue codes) is not modelled.
- **Client storage and React.** The cart's localStorage load and save
  effects, the non-array fallbacks of the state setters and the React
  context plumbing are not modelled. The cart is always a sequence.
- **Handlers, models and configuration.** The endpoint handlers in
  `server/handlers`, the database models and the Redis and database
  connection setup are given as parameters or not part of this model.
