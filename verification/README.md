# Verification of the gateway's core

This project models the stateful and arithmetic core of a model gateway written in Go: the cache of
initialised Genkit instances, the two rate limiters, the retrying and streaming generation path, the request
validator and converter, the parsers of two configuration lists, the error classifier and the status-recording
response writer. `dafny verify dfyconfig.toml` checks everything.

## How it is laid out

| files | subject | form |
|---|---|---|
| `CacheRegions`, `GenkitCache` | the critical sections of the instance cache | relations over its state, and a class over a map of heap entries whose methods are proved to take those relations |
| `CacheSystem`, `CacheInvariant`, `CacheSafety`, `CacheBounds`, `CacheUse`, `CacheOutcomes`, `CacheLiveness`, `CacheRuns`, `CacheLeak`, `CacheStaleHit`, `CacheOverflow` | every interleaving of any number of callers, the janitor and `Close` | one atomic step per critical section and per action between two of them; theorems over whole runs, and runs that show their conditions are needed |
| `FixedWindow`, `ForgetfulCounter`, `MemLimiter`, `RedisLimiter`, `RateKeys` | rate limiting | a reference counter; two limiters as functions and as classes; run-level exactness and simulation |
| `Backoff`, `Retry` | retry delays and the retry loop | int64 arithmetic, loops |
| `EventStream`, `Stream`, `ServeStream`, `StreamEnds` | server-sent events | frames against the parser of section 9.2.6 of the WHATWG HTML Living Standard; the wire as a function of generator, network and context; the handler as a class |
| `Requests`, `Messages` | validation and conversion of a request | nested loops against declarative predicates |
| `EntryLists`, `ModelLimits`, `Secrets` | comma-separated settings | loops against relations, with printers |
| `Errors`, `Router` | error chains, provider routing, the cache key | functions |
| `StatusWriters` | stacked response writers and panic recovery | a linked stack of writer objects |
| `GoStrings`, `Prelude` | the parts of Go's `strings` and `strconv` that are used | functions and inverse laws |

Three kinds of nondeterminism are arguments everywhere: what foreign code answers (a generator's items and
outcomes, the result of initialising an instance, the network's fate for each write), what the clock reads, and
which step comes next.

## Where the code differs from what is said about it

* **A cached instance can be leaked.** The comment on `removeLocked` (`internal/proxy/cache.go:160-163`) says that
  in-flight entries are never removed there; the expiry branch of `get` (lines 99-101) does not test readiness and
  does remove them. The accounting theorem therefore carries an exact condition: an instance is lost if and only
  if such a lookup met its entry unpublished. `LeakIsReachable` gives a whole run, up to the end of `Close`, for
  every positive TTL; `NoTtlNoLeak` shows that there is none without a TTL. Single flight fails
  in exactly the runs that have such a lookup (`SingleFlightFailsIffOrphaned`).
* **The limiters are interchangeable only for windows of whole milliseconds.** `InterchangeableIffWholeMillis`
  proves the "if and only if"; in the last, partial millisecond of any other window the expiry sent to Redis is
  already past and every count is discarded at once.
* **The in-memory limiter can forget.** The clock is read before the lock is taken, so a full map may be cleared by
  a call of a later window before an earlier window's last calls arrive. `ExactIffNotForgotten` says for every run,
  with no assumption on the clock, exactly when a call is decided by the true count; `LateCallIsForgotten` is a whole
  run in which it is not. Clock-ordered runs never forget (`OrderedIsNotForgotten`).
* **The size cap can be exceeded by any amount.** The comment on `NewGenkitCache` (`internal/proxy/cache.go:55-57`)
  says that maxSize caps the number of live entries; eviction spares builds in flight, so the cap is exceeded exactly
  when more than maxSize builds overlap (`CapExceededIffOverlap`), and they can (`CapCanBeExceeded`).
* **A returned instance need not be live.** A hit waits outside the lock, and by the time it returns another caller
  may have evicted the entry (`HitCanReturnCancelled`); `ReturnedInstanceIsLiveIff` is exact.
* **Rate-limit namespaces are independent only between tokens that do not extend one another at a colon.** The
  comment on `rateLimitKey` (`internal/proxy/proxy.go:258-260`) claims it without condition; `TokensShareIff` is the
  exact condition for arbitrary tags, `GatewayTokensShareIff` the one for the tags the gateway uses.
* **The backoff product precedes its cap.** `SafeIffLastFits` gives the exact bound under which `retryDelay` cannot
  panic.
* **Stacked writers can report a status the client did not get**, after an informational header or an early
  flush (`MisledExamples`): `LayersAgreeIff` is exact. The streaming handler never does this (`StreamStatusIsReported`).
* `docs/error-handling.md` lists neither the gateway's own authentication errors nor the 500 category; the model
  follows `internal/proxy/errors.go:58-68`.

## Model

| member | source | states |
|---|---|---|
| `CacheSafety.InstancesAreAccountedFor` | internal/proxy/cache.go:83-238 | In every state of every interleaving a published instance is in the map with its context live, or out of it and cancelled exactly once, or leaked; and it is leaked if and only if an earlier lookup's expiry branch removed its entry before publication |
| `CacheSafety.CloseReleasesEverything` | internal/proxy/cache.go:221-238 | Once `Close` has returned the map is empty, no build is under way, and every instance ever published has been cancelled exactly once, save the orphans of the expiry branch |
| `CacheSafety.OrphansAreExpired` | internal/proxy/cache.go:95-101 | The only step that orphans a build is a lookup, with a positive TTL, that finds its entry in flight and past that TTL |
| `CacheSafety.NoTtlNoLeak` | internal/proxy/cache.go:156-169 | With a TTL of zero or less: in the map and never cancelled, or out of it and cancelled once, without exception |
| `CacheLeak.LeakIsReachable` | internal/proxy/cache.go:99-101 | For every positive TTL there is a run in which two overlapping requests for one key leave an instance that is never cancelled, even after `Close` has returned |
| `CacheSafety.OneBuildPerEntry` | internal/proxy/cache.go:103-130 | `initApp` runs at most once for an entry; its channel is closed exactly once, when the outcome is recorded and before the builder returns, and the entry then holds what the builder returns |
| `CacheSafety.WaitersAgreeWithBuilder` | internal/proxy/cache.go:133-140 | A waiter not released by its own context has exactly the instance or error that its entry's builder announced and returns, even while the builder has still to return |
| `CacheSafety.FailSparesReplacement` | internal/proxy/cache.go:144-152 | A failing builder unlinks its own entry only: any other entry keeps its place and its contents |
| `CacheSafety.OneFlightPerKey` | internal/proxy/cache.go:90-107 | Two unfinished builds for one key exist only if a lookup orphaned one of them |
| `CacheSafety.OrphanStartsSecondFlight` | internal/proxy/cache.go:99-107 | Every orphaning lookup leaves the orphan's build and its own unfinished for the same key |
| `CacheSafety.SingleFlightFailsIffOrphaned` | internal/proxy/cache.go:90-107 | A run has two unfinished builds for one key at some time if and only if some lookup of it orphans a build |
| `CacheSafety.SameKeySamePlugin` | internal/proxy/cache.go:266-269 | Requests with equal cache keys would build equal plugins, given an injective hash |
| `CacheSafety.CachingIsTransparent` | internal/proxy/generator.go:61-76 | Whatever instance `get` returns, as builder, waiter or hitter, was built from the plugin that `freshApp` would build for that very model and credential: the one that the model's literal prefix names, with that credential bound into it |
| `CacheLiveness.LiveIffNotReleased` | internal/proxy/cache.go:90-238 | In every state of every run a published instance is live if and only if no lookup, sweep or end of `Close` has taken its entry out of the map since it was published |
| `CacheLiveness.ReturnedInstanceIsLiveIff` | internal/proxy/cache.go:83-140 | The instance a call of `get` has returned is live, at its return and after, if and only if no lookup, sweep or end of `Close` has removed its entry since it was published |
| `CacheStaleHit.HitCanReturnCancelled` | internal/proxy/cache.go:95-106 | With a cache of one entry there is a run in which a hit's wait ends by returning an instance that another caller's insertion has evicted and cancelled |
| `CacheSafety.DroppedIffOrphaned` | internal/proxy/cache.go:164-169 | `removeLocked` has met an entry without a cancel function in a run exactly when some lookup's expiry branch did |
| `CacheInvariant.StepKeepsInv` | internal/proxy/cache.go:83-238 | Every atomic step keeps the invariant that ties each entry to its builder's progress, its cancellations to its membership, and the build counter to the builders at work |
| `CacheInvariant.RunKeepsInv` | internal/proxy/cache.go:60-74 | Every state reachable from a new cache has that invariant |
| `CacheInvariant.EvictionIsRemoval` | internal/proxy/cache.go:174-191 | An eviction removes nothing, or exactly one ready least-recently-used key and only above the cap |
| `CacheBounds.SizeIsBounded` | internal/proxy/cache.go:103-107 | In every reachable state the map holds at most maxSize entries or at most as many as were in flight at some earlier moment |
| `CacheBounds.CapExceededIffOverlap` | internal/proxy/cache.go:55-59 | The map holds more than maxSize entries at some time of a run if and only if more than maxSize keys are in flight at some time of it |
| `CacheOverflow.CapCanBeExceeded` | internal/proxy/cache.go:171-191 | For any number of routable requests with different keys, whatever the cap, there is a run in which the map holds an entry for each |
| `CacheBounds.InFlightIsBuilding` | internal/proxy/cache.go:171-191 | The keys in flight are no more than the builds that `Close` would wait for |
| `CacheBounds.NoOverlapKeepsCap` | internal/proxy/cache.go:174-191 | When builds never overlap the size never exceeds maxSize |
| `CacheUse.DisplacedIsLeastRecentlyUsed` | internal/proxy/cache.go:174-191 | A key displaced by another key's lookup was ready, the cap was exceeded, the last use of nothing ready that stays is earlier than its own, and its instance is now cancelled once |
| `CacheUse.StampIsLastUse` | internal/proxy/cache.go:95-104 | In every state of every run each entry's timestamp is the time of its last use: of the latest lookup that hit it or inserted it |
| `CacheUse.LookupAnswers` | internal/proxy/cache.go:83-107 | In every run a lookup is refused exactly once `Close` has begun, hits only its key's entry and only if last used within the TTL, and inserts only if its key has no entry or one idle for longer; the call then waits, builds or is turned away accordingly |
| `CacheUse.FailedIsNotServed` | internal/proxy/cache.go:142-152 | No entry in the map has failed, and a ready one has its instance, so a failure is never cached |
| `CacheOutcomes.ReturnedIsTheBuilds` | internal/proxy/cache.go:109-140 | Whatever a call returns, as builder or waiter, instance or error, is what its entry's builder got in this run from building for its own request: the error of a request without a plugin, or what `initApp` made of the plugin |
| `CacheOutcomes.TurnedAwayWhy` | internal/proxy/cache.go:84-94 | A call is turned away only with its model's routing error or, once `Close` has begun, with the error of a closed cache |
| `CacheUse.SweepTakesIdle` | internal/proxy/cache.go:211-219 | A sweep leaves no ready entry last used more than a TTL before it began, and takes none last used within a TTL of its end |
| `CacheUse.IdleEntryIsGone` | internal/proxy/cache.go:194-219 | With a sweep at every multiple of the TTL an entry last used at u, whose build was over at w, is out of the map from max(u + ttl, w) + ttl on, so from u + 2*ttl on unless the build itself lasted beyond u + ttl |
| `CacheUse.RecentlyUsedIsKept` | internal/proxy/cache.go:95-101 | An entry used within the TTL leaves the map only by the failure of its own build, by `Close`, or, when ready, by the size cap on another key's lookup |
| `GenkitCache.GenkitCache.LookupLocked` | internal/proxy/cache.go:90-107 | The first critical section of `get`: refusal, hit with a fresh timestamp, or expiry, insertion and eviction, as the lookup step demands |
| `GenkitCache.GenkitCache.FindLocked` | internal/proxy/cache.go:95-101 | A live entry is returned with its timestamp renewed; an expired one is removed; nothing else changes |
| `GenkitCache.GenkitCache.InsertLocked` | internal/proxy/cache.go:103-106 | The new entry is in the map under its key and the size cap has been enforced |
| `GenkitCache.GenkitCache.EvictLocked` | internal/proxy/cache.go:174-191 | The loop over the map removes a ready entry with minimal `lastUsed`, exactly when the cap is exceeded and something is ready |
| `GenkitCache.GenkitCache.RemoveLocked` | internal/proxy/cache.go:164-169 | Exactly the given key leaves the map, its cancel called once if there is one |
| `GenkitCache.GenkitCache.ExpiredLocked` | internal/proxy/cache.go:156-158 | True exactly when there is a TTL and the entry has been idle longer |
| `GenkitCache.GenkitCache.Sweep` | internal/proxy/cache.go:211-219 | The loop removes every ready entry expired at its start, none in flight and none unexpired at its end, each cancelled once |
| `GenkitCache.GenkitCache.PublishLocked` | internal/proxy/cache.go:124-127 | Instance and cancel function are recorded on the entry and nothing else changes |
| `GenkitCache.GenkitCache.FailLocked` | internal/proxy/cache.go:145-150 | The error is recorded and the key removed only if it still holds this entry |
| `GenkitCache.GenkitCache.CloseReady` | internal/proxy/cache.go:128-151 | The entry's channel is closed once more and nothing else changes |
| `GenkitCache.GenkitCache.Build` | internal/proxy/cache.go:111-129 | The builder's part without interleaving: plugin error, initialisation error or instance, recorded on the entry, with the failed entry unlinked only if it is still its key's, and the channel closed once |
| `GenkitCache.GenkitCache.AwaitEntry` | internal/proxy/cache.go:133-140 | The recorded outcome if the channel is closed, else the context's error |
| `GenkitCache.GenkitCache.Get` | internal/proxy/cache.go:83-130 | Without interleaving: routing error, refusal once closed, the outcome of the entry hit, or a lookup step followed by exactly one build; recorded outcomes stay known |
| `GenkitCache.GenkitCache.BeginClose` | internal/proxy/cache.go:225-227 | The cache is marked closed and nothing else changes |
| `GenkitCache.GenkitCache.EmptyLocked` | internal/proxy/cache.go:233-237 | The loop removes every key and cancels every entry of the map exactly once |
| `Router.CacheKeyDecodes` | internal/proxy/cache.go:263-269 | Two requests share a cache key if and only if they agree on provider and credential, whatever characters the credential holds |
| `ForgetfulCounter.KeptIsTotalUnlessLost` | internal/ratelimit/memory.go:50-64 | A counter that is now and then cleared never runs ahead of the events, and falls behind if and only if a counted event was followed by a clearing |
| `Router.PluginDependsOnProvider` | internal/proxy/router.go:24-64 | The plugin depends on the model only through its provider, and there is one exactly when the provider is valid |
| `Router.RoutingTable` | internal/proxy/router.go:44-64 | Every non-blank name behind googleai/, openai/, anthropic/ or vertexai/ gets that provider's plugin, with the credential bound into it but for Vertex AI |
| `Router.UnroutableNames` | internal/proxy/router.go:24-38 | There is a plugin if and only if the name has one of the four prefixes and something visible behind it; otherwise a missing model is a validation error, and everything else an unsupported provider, each in its own words |
| `Router.PluginByPrefix` | internal/proxy/router.go:44-64 | Conversely, the prefix of any accepted name says which plugin it got |
| `Errors.ClassifyIgnoresPlainLayers` | internal/proxy/errors.go:55-105 | Plain wrapping layers anywhere in a chain change neither category, status nor retry decision |
| `Errors.ClassifyIgnoresWrapping` | internal/proxy/errors.go:55-105 | Any number of wrapping layers around any error leaves its category and status, and outside status 400 its client message, unchanged |
| `Errors.RetryableIffRetryStatus` | internal/proxy/proxy.go:161-180 | An error is retried if and only if its status is 429 or 502 |
| `Errors.SafeMessageHidesText` | internal/proxy/errors.go:128-153 | Outside status 400 the client message is one of nine constants and the same for any two errors that differ in their texts alone |
| `Errors.ClaimedStatus` | internal/proxy/errors.go:55-72 | A chain that holds, at any depth, one of the gateway's own or the context's errors has the status of the first that applies in the order validation or unsupported provider 400, unknown tenant 401, no secret 403, secret unavailable 500, deadline or cancellation 504 |
| `Errors.GenkitErrorDecides` | internal/proxy/errors.go:74-90 | Otherwise the outermost Genkit error decides, whatever else the chain holds: its own five statuses give 401, 403, 429, 504 and 404, any other that of its HTTP code |
| `Errors.CodeDecides` | internal/proxy/errors.go:92-105 | Then the outermost GenAI error's code, then the outermost OpenAI error's, and without any of them the status is 502 |
| `Errors.ProviderCodeTable` | internal/proxy/errors.go:107-123 | Through any stack of wrappers and whichever SDK reports them, 401, 403, 404 and 429 keep their status, 408 and 504 give 504, and every other code 502 |
| `Errors.MessageTable` | internal/proxy/errors.go:128-153 | The literal message of every error: the three auth failures by name, the error's own text at 400, and otherwise one fixed message for each status |
| `FixedWindow.FullKeyInjective` | internal/ratelimit/memory.go:35 | Bucket names collide only for equal keys and equal window starts, whatever the key holds |
| `FixedWindow.BurstBound` | internal/ratelimit/memory.go:33-54 | Over any run, in any half-open interval of length len > 0, at most limit * (ceil(len / window) + 1) calls of one key are admitted |
| `FixedWindow.BurstInOneSpan` | internal/ratelimit/memory.go:33-54 | At most twice the limit in any span as long as the window |
| `MemLimiter.ExactIffNotForgotten` | internal/ratelimit/memory.go:32-64 | For every run, whatever the order of the clock readings: the limiter decides a call as the reference counter does under every limit if and only if no call of the same key and window was counted and then evicted by a call past that window |
| `MemLimiter.NeverTooStrict` | internal/ratelimit/memory.go:32-64 | On every run no call is refused that the reference counter admits |
| `MemLimiter.BucketsHoldKept` | internal/ratelimit/memory.go:32-64 | On every run each bucket holds exactly the calls counted since it was last evicted, and there is no bucket for none |
| `MemLimiter.OrderedIsNotForgotten` | internal/ratelimit/memory.go:57-64 | Along clock-ordered runs eviction never removes a bucket whose window contains now |
| `MemLimiter.AdmissionIsExact` | internal/ratelimit/memory.go:32-64 | Along any clock-ordered run, eviction notwithstanding, a call passes if and only if it is within its limit among the calls of its key in its aligned window; a refusal reports the time left in that window |
| `MemLimiter.PassedIsAdmitted` | internal/ratelimit/memory.go:32-64 | On every run and in any interval the limiter lets through all that the reference counter admits, and beyond that at most the calls whose window had been forgotten |
| `MemLimiter.LimiterBurstBound` | internal/ratelimit/memory.go:32-64 | The burst bound for the limiter as it is, on every run, plus the calls whose window had been forgotten; without that excess when the clock readings are in order |
| `MemLimiter.LimiterBurstInOneSpan` | internal/ratelimit/memory.go:32-64 | At most twice the limit in any span as long as the window, plus the forgotten calls, of which a clock-ordered run has none |
| `MemLimiter.LateCallIsForgotten` | internal/ratelimit/memory.go:41-64 | A whole run for every window: 10,000 keys, a later window's call that evicts, and then the first key's second call with an earlier clock reading, which passes under a limit of one though the reference counter refuses it |
| `MemLimiter.Limiter.Allow` | internal/ratelimit/memory.go:32-55 | The method's new buckets and its answer are those of the specification, from any valid state |
| `MemLimiter.Limiter.Open` | internal/ratelimit/memory.go:41-49 | The bucket of the window is found, or made after a full map has been cleared of expired buckets |
| `MemLimiter.Limiter.EvictExpired` | internal/ratelimit/memory.go:58-64 | The loop removes exactly the buckets whose reset time is past |
| `RedisLimiter.AdmissionIsExact` | internal/ratelimit/redis.go:44-62 | With a whole-millisecond window the script admits exactly by the reference count, and a refusal reports the time left in whole milliseconds |
| `RedisLimiter.RefusalWait` | internal/ratelimit/redis.go:54-60 | Whatever the store holds, a refused caller waits until the key expires, and for a whole window if the key is gone, due now or without an expiry; never for no time |
| `RedisLimiter.LimitersSimulateEachOther` | internal/ratelimit/redis.go:19-62 | On every clock-ordered call sequence with a whole-millisecond window both limiters give the same answer, and retry-after values less than 1 ms apart |
| `RedisLimiter.InterchangeableIffWholeMillis` | internal/ratelimit/redis.go:48 | The two limiters agree on every run if and only if the window is a whole number of milliseconds |
| `RedisLimiter.PartialMillisecondOveradmits` | internal/ratelimit/redis.go:19-24 | For any other window, two calls in its last partial millisecond pass Redis under a limit of one, and not the in-memory limiter |
| `RedisLimiter.Server.Eval` | internal/ratelimit/redis.go:19-24 | The script, command by command, leaves the specified store and reply |
| `RedisLimiter.Limiter.Allow` | internal/ratelimit/redis.go:44-62 | The answer is the reading of the script's reply, the window length if it reports no time left; an unreachable backend lets the call through |
| `RateKeys.TagsAreIndependent` | internal/proxy/proxy.go:258-266 | For one token, every tag and the absence of a tag has a key of its own |
| `RateKeys.ColonFreeTokensAreIndependent` | internal/proxy/proxy.go:261-266 | Tokens without colons share a key only if token and tag are equal |
| `RateKeys.TokensShareIff` | internal/proxy/proxy.go:258-266 | Two different tokens have a key in common under some tags if and only if one is the other followed by a colon and anything |
| `RateKeys.GatewayTokensShareIff` | cmd/app/config.go:227-243 | Under the tags the gateway uses: if and only if one is the other, a colon, and stream, a provider's tag, or anything without a comma that begins as the tag of a provider's models |
| `RateKeys.ModelIsConfigurableIff` | cmd/app/config.go:187-209 | An accepted model can be given a limit of its own by some setting if and only if its name holds no comma, which is why those are the tags |
| `RateKeys.StreamNamespaceIsShared` | internal/proxy/proxy.go:261-266 | The concrete case: a token ending in :stream, untagged, has the key of the shorter token's stream namespace |
| `Backoff.RetryDelay` | internal/proxy/retry.go:118-127 | Fails exactly when the wrapped and capped product is not positive, and otherwise returns a value in range; every value in range can be drawn |
| `Backoff.DelayInRange` | internal/proxy/retry.go:116-127 | Every delay that is drawn is in [0, min(base * 2^attempt, 10s)), wrapped products included |
| `Backoff.FitsMeansExact` | internal/proxy/retry.go:122-125 | While base * 2^attempt fits int64 the delay's bound is exactly its minimum with ten seconds, and positive |
| `Backoff.FirstOverflowPanics` | internal/proxy/retry.go:122-126 | The first product beyond int64 wraps to something not positive, so the draw panics |
| `Backoff.SafeIffLastFits` | internal/proxy/retry.go:122-126 | All of the first w delays can be drawn if and only if base * 2^(w-1) fits int64 |
| `Backoff.TotalBackoff` | internal/proxy/retry.go:116-127 | The first w delays add up to at most min(base * (2^w - 1), w * 10s), and to nothing with a base of zero or less |
| `Retry.LastAttemptExists` | internal/proxy/retry.go:31-55 | For any inner generator there is exactly one last attempt, within maxAttempts |
| `Retry.RetriesAreBounded` | internal/proxy/retry.go:29-62 | With products that fit, or no backoff at all, a call never panics, makes at most maxAttempts attempts and waits no longer than the bound |
| `Retry.RetryingGenerator.Generate` | internal/proxy/retry.go:29-62 | Every inner call but the last failed retryably and was waited out; the result of the last is returned as it is, unless it failed retryably with attempts to spare: then the backoff panicked, if it cannot be drawn, or else the context ended during the wait and its error is returned |
| `EventStream.FramesParseBack` | internal/proxy/stream.go:171-179 | A client that follows the standard reads back exactly the sequence of named, line-break-free events that was written |
| `EventStream.InterpretFrames` | internal/proxy/stream.go:171-179 | The same from any event boundary, an empty name being read as "message" |
| `Stream.ItemsSendPrefix` | internal/proxy/generator.go:150-164 | An attempt puts on the wire its own non-empty deltas in order and without gaps, up to the first that cannot be delivered, and then stops with that error |
| `Stream.StreamTranscript` | internal/proxy/stream.go:100-155 | Whatever generator, context and network do: one error status and one JSON body, or 200 and the last attempt's deltas in order and one closing event, or nothing at all before a panic; no earlier attempt put anything on the wire |
| `Stream.RequestTranscript` | internal/proxy/stream.go:20-156 | Every request, refused or served: one JSON error (always when a check fails), or 200, chunks and one closing event, or, only if the backoff panicked after every check had passed, nothing |
| `ServeStream.StreamResponse.GenkitRunStream` | internal/proxy/generator.go:143-165 | The loop sends and returns what the specification of an attempt says, and the chunk gate is set exactly when something was put on the wire |
| `ServeStream.StreamResponse.GenerateStream` | internal/proxy/generator.go:104-126 | An attempt's result is the final response, the error wrapped with the model, or an unsupported-provider error as it is |
| `ServeStream.StreamResponse.RetryGenerateStream` | internal/proxy/retry.go:65-103 | All attempts but the last failed retryably without a chunk; wire and outcome are the last attempt's |
| `ServeStream.StreamResponse.Serve` | internal/proxy/stream.go:20-156 | The handler answers with the first failing check's status and message, or leaves on the wire what the whole-run specification says; `Stream.RequestTranscript` is about every such response |
| `ServeStream.ClientReadsLastAttempt` | internal/proxy/stream.go:100-179 | End to end, on a connection that delivers: once anything was streamed the client reads one chunk event per delta of the last attempt, in order, and then exactly one done or error event |
| `StreamEnds.DeltasAreTheTexts` | internal/proxy/generator.go:158-159 | The deltas of a stream are its non-empty texts before the first item that is no text, each once and in order |
| `StreamEnds.DeliveredEnds` | internal/proxy/generator.go:150-164 | If all its chunks are delivered, a stream's result is decided by its first item that is no text: the error, the final response, or neither |
| `StreamEnds.UndeliveredEnds` | internal/proxy/generator.go:158-162 | Otherwise it is the error of the first chunk that could not be delivered |
| `StreamEnds.AnswerOf` | internal/proxy/generator.go:104-126 | An attempt's answer field by field: model, finish reason, tool calls and usage of the final response, empty ones without it; or the error, named after the model unless the provider is unsupported |
| `StreamEnds.ReportedLooksTheSame` | internal/proxy/errors.go:55-153 | Naming an error after the model changes neither status nor retry decision nor, outside 400, the message |
| `StreamEnds.OutcomeOfLast` | internal/proxy/retry.go:65-103 | Every attempt before the last said nothing, failed retryably and was waited out; the last one's result is the outcome, unless it too said nothing and failed retryably with attempts to spare: then a panic of the backoff or the error the context ended with |
| `StreamEnds.FinishedStream` | internal/proxy/stream.go:100-155 | On a connection that delivers, a last attempt ending in a final response, or just ending, leaves 200, its texts, and done with exactly that response's fields, or with empty ones |
| `StreamEnds.FailedStream` | internal/proxy/stream.go:118-144 | On a connection that delivers, one that fails leaves 200, its texts and error with the safe message, or, having said nothing, one JSON error with the failure's status and message, or those of the error the context ended with, or nothing after a panic |
| `StreamEnds.BrokenStream` | internal/proxy/stream.go:107-144 | On a connection that fails at chunk j: 200, the chunks up to it, and error with the message of that delivery's error |
| `StreamEnds.ClientReadsFinish` | internal/proxy/stream.go:100-179 | End to end, from the items: the client reads one chunk event per text and then done with the final response's finish reason, tool calls and usage |
| `StreamEnds.ClientReadsFailure` | internal/proxy/stream.go:100-179 | End to end: after any text a failing last attempt is read as its texts and one error event with the safe message |
| `StreamEnds.RefusalTable` | internal/proxy/stream.go:21-92 | Each of the eight checks, failing after those before it passed, is answered with its own status and message and nothing else; a limiter that does not answer lets the request through; with none failing the request is served |
| `Requests.Validate` | internal/proxy/request.go:171-230 | No error if and only if the request is well-formed; otherwise the first problem in the order of checks, with the least index |
| `Requests.ValidatePart` | internal/proxy/request.go:233-268 | No error if and only if exactly one alternative is set and its required fields are not blank; otherwise that part's defect |
| `Requests.ValidateMessage` | internal/proxy/request.go:215-227 | No error if and only if role, shape and every part are in order; otherwise the message's defect, in its least offending part |
| `Requests.ValidateTools` | internal/proxy/request.go:204-213 | No error if and only if every tool has a non-blank name no earlier tool has; otherwise the least offending tool |
| `Requests.ValidateSubject` | internal/proxy/request.go:172-180 | The first failing check on model name, provider and user message, or none |
| `Requests.ValidateSampling` | internal/proxy/request.go:181-192 | The first failing check from the temperature to topK, or none |
| `Requests.ValidateFormat` | internal/proxy/request.go:193-203 | The first failing check from the response format to the tool choice, or none |
| `Requests.ScalarsOkIffPass` | internal/proxy/request.go:172-203 | The ordered checks reject exactly the requests whose scalar fields are not as described |
| `Requests.ProblemTable` | internal/proxy/request.go:171-203 | The first problem in words: the ten checks on scalar fields in their order, each with its field and its reason, and only then tools and messages |
| `Requests.ToolTable` | internal/proxy/request.go:204-213 | A tool problem in words: a blank name, or a name that an earlier tool has |
| `Requests.MessageTable` | internal/proxy/request.go:214-228 | A message problem in words and order: its role, its shape, then its parts |
| `Requests.PartTable` | internal/proxy/request.go:233-268 | A part problem in words and order: not exactly one alternative, or the blank field of the one that is set |
| `Requests.FirstProblemIsUnique` | internal/proxy/request.go:169-230 | A request has at most one first problem, so the answer is determined |
| `Requests.ProblemIffIllFormed` | internal/proxy/request.go:169-230 | A request has a first problem if and only if it is not well-formed, so with its uniqueness the specification gives every request exactly one answer |
| `Requests.WellFormedToolsAreDistinct` | internal/proxy/request.go:204-213 | Acceptance includes pairwise distinct tool names |
| `Messages.MessagesFrom` | internal/proxy/generator.go:259-276 | nil exactly when there is no history; otherwise one message per turn, in order, each converted |
| `Messages.HistorySurvives` | internal/proxy/generator.go:256-299 | For an accepted request length, order and roles are kept, every field of every part is where it belongs, and every turn can be recovered in its normal form |
| `Messages.MessageSurvives` | internal/proxy/generator.go:256-299 | An accepted message comes back in normal form, losing white-space text only; the normal form is accepted and converts alike |
| `Messages.SameToTheModelIff` | internal/proxy/generator.go:259-299 | Two accepted messages look the same to the model if and only if their normal forms are equal |
| `Messages.ModelSeesExactlySound` | internal/proxy/generator.go:278-299 | A Genkit message comes from some accepted message if and only if its role is known, it has a part, and no part has a blank text, media field or tool name |
| `Messages.ConversionKeepsPartIff` | internal/proxy/generator.go:278-299 | A part loses nothing but white-space text in conversion if and only if it sets one alternative, or nothing at all |
| `ModelLimits.ParseModelLimits` | cmd/app/config.go:187-209 | nil for the empty string, the first unreadable entry's error, or the map in which the last entry of each model wins |
| `ModelLimits.ReadEntryIff` | cmd/app/config.go:197-206 | An entry is accepted if and only if it is a model, a colon and a colon-free positive 64-bit decimal |
| `ModelLimits.ReadEntryRefusals` | cmd/app/config.go:197-205 | An entry is refused for a missing limit if and only if it has no colon, and for its number if and only if it has a colon and is not acceptable |
| `ModelLimits.PositiveNumbers` | cmd/app/config.go:202-205 | The numbers accepted are the positive ones of 64 bits, written as their decimal digits after any zeros and, before those, possibly a plus sign |
| `ModelLimits.RoundTrip` | cmd/app/config.go:184-209 | Printing any non-empty map of printable limits in any order and parsing gives the map |
| `ModelLimits.PrintedListReadsBack` | cmd/app/config.go:187-209 | Parsing a printed list reads back the list, repeated models included |
| `ModelLimits.ParsedLimitsArePrintable` | cmd/app/config.go:187-209 | Every limit a parse yields is printable, so the round trip covers the parser's whole range |
| `ModelLimits.ReparsingIsIdentity` | cmd/app/config.go:187-209 | Printing a parse result and parsing again changes nothing |
| `ModelLimits.AnswerIsDetermined` | cmd/app/config.go:187-209 | The specification allows one answer for each setting |
| `Secrets.ParseStaticSecrets` | internal/auth/source.go:48-66 | The map of exactly the listed secrets if every entry has a reference and no two the same; otherwise the first offending entry and why |
| `Secrets.ReadEntryIff` | internal/auth/source.go:55-59 | An entry is accepted if and only if it is a non-blank reference free of '=', a '=' and any value |
| `Secrets.AnswerIsDetermined` | internal/auth/source.go:48-66 | The specification allows one answer for each setting |
| `Secrets.RoundTrip` | internal/auth/source.go:43-66 | Printing any map of printable secrets in any order, the empty one included, and parsing gives the map |
| `Secrets.RepeatIsRefused` | internal/auth/source.go:60-62 | A printed list parses if and only if its references are distinct, and otherwise the error names a repeated one |
| `Secrets.ParsedSecretsArePrintable` | internal/auth/source.go:48-66 | Every secret a parse yields is printable, so the round trip covers the parser's whole range |
| `EntryLists.JoinedEntriesReadBack` | internal/auth/source.go:50-54 | Trimmed, non-empty, comma-free entries joined with commas are read back as they are |
| `EntryLists.EntriesOfListAreTrimmed` | cmd/app/config.go:192-196 | Whatever the setting, its entries are trimmed, non-empty and comma-free |
| `StatusWriters.StatusWriter.WriteHeader` | internal/proxy/middleware.go:127-133 | Through a stack of any depth: every layer records the first status, and the connection gets the call once, or nothing changes |
| `StatusWriters.StatusWriter.Write` | internal/proxy/middleware.go:135-138 | Through a stack of any depth: every layer is marked as written and the connection gets the data |
| `StatusWriters.StatusWriter.Handle` | internal/proxy/middleware.go:121-144 | Any sequence of operations on the top leaves every layer and the connection as the specification says |
| `StatusWriters.LayersAgreeIff` | internal/proxy/middleware.go:86-89 | For any depth and any operations every layer reports the status the client got, if and only if the first operation it saw was not a non-200 header that was informational or came after a flush |
| `StatusWriters.MisledExamples` | internal/proxy/middleware.go:86-89 | Two handlers the layers get wrong: a flush before a 500, and a 103 before a 404; both clients get 200 |
| `StatusWriters.FinalStatusesAgree` | internal/proxy/middleware.go:118-138 | With final statuses only and no flush first they always agree |
| `StatusWriters.OneHeaderReachesWire` | internal/proxy/middleware.go:127-133 | At most one header call reaches the connection, and one does exactly when the first operation the layers see is one |
| `StatusWriters.LayersAreTransparentIff` | internal/proxy/middleware.go:118-144 | Body and status are what the handler would have sent without any layer, the status unless an informational first header is followed by a final status other than 200 |
| `StatusWriters.Recover` | internal/proxy/middleware.go:40-59 | The handler's panic becomes a 500 through Recover's own layer exactly when that layer saw no write; an abort is passed on |
| `StatusWriters.RecoverChangesStatusIff` | internal/proxy/middleware.go:35-58 | Recovering changes the status if and only if nothing at all was sent, and then sends a clean 500; it changes the response if and only if no layer saw a write |
| `StatusWriters.PanickedStreamGets500` | internal/proxy/middleware.go:40-59 | A panic in the backoff of a streaming request comes before anything was written, so its client gets a clean 500 |
| `StatusWriters.StreamStatusIsReported` | internal/proxy/stream.go:100-155 | A streaming response is logged and counted with the very status its client received |

## Left out

- Genkit, the provider SDKs, OpenTelemetry, Prometheus, slog, UUIDs and the HTTP server are foreign: a generator is an arbitrary sequence of items and an outcome, initialising an instance is a free result, and the connection's writer is modelled by its documented meaning only (first final status stands; 1xx is not final; a flush or a write commits 200). Status codes outside 100..999, on which that writer panics, and responses that may not have a body are not modelled.
- The Redis client and server: only INCR, PEXPIREAT, PTTL and key expiry, on one clock shared with the gateway; a backend failure is the fail-open outcome. `RedisLimiter.Limiter.Allow` takes whether the backend answered as an argument.
- SHA-256 and hex are one injective function; nothing about its output is assumed.
- JSON encoding and decoding: a marshalled payload is assumed to hold no line break; a payload that cannot be marshalled, and the decoding of raw tool inputs and outputs for Genkit (`rawToAny`), are not modelled, so `Messages` carries them raw.
- Goroutine scheduling is arbitrary interleaving of atomic steps; the ticker is a hypothesis (`CacheUse.IdleEntryIsGone` asks that every multiple of the TTL has been swept on time). `Close` is called at most once, as its comment demands. Reads of the clock do not run backwards, and `time.Time` subtraction does not saturate.
- GenkitCache.GenkitCache.Get: composes the critical sections for one caller alone; callers that interleave between them, and the wait of `Close` for builds and janitor, are steps of `CacheSystem`.
- MemLimiter.AdmissionIsExact: holds for clock-ordered runs with a window of zero or more; `MemLimiter.ExactIffNotForgotten` is the exact condition on all runs.
- Limiter windows below zero have no clock-ordered corollary, and the burst bounds and the Redis theorems are about positive windows; int64 overflow of counters, of instants outside the range of `UnixNano` and of Lua's doubles is not modelled.
- RateLimit as a middleware, `bearerToken`, CORS, request IDs, metrics labels, log lines, the `Retry-After` header and environment reading: plumbing around the modelled parts. The order of checks in `ServeHTTP` is that of `ServeStream` and adds nothing.
- `internal/proxy/policy.go`, `internal/auth/resolver.go`, `internal/proxy/credentials.go`, `limitFor`, `handlerRateLimitConfig`, `configFor`, `toolOptions`, `outputAndData`, `usageFrom` and the accessors of `StaticSecretSource`: lookups and one-branch mappings that would only add easy members.
- `Errors` models single-parent chains: `errors.Join`, several `%w` in one format and errors with an `Is` or `As` method of their own are left out, since the gateway makes none; `%q` puts quotes around a text but escapes nothing in it.
- `Requests` names an offending field by a datatype with its indices instead of the printed path; temperature and topP are reals, so a NaN, which JSON cannot carry, is left out.
- Strings are sequences of characters: invalid UTF-8 is not modelled. `strconv.Atoi` is the 64-bit one.
- `Stream` draws no line between a delta the model sent and the chunk it came in: an item is the text of one chunk, and `ServeStream.ClientReadsLastAttempt` speaks of connections that deliver every write; what a failing connection carries is `StreamEnds.BrokenStream`.
- `Retry.RetryingGenerator.constructor` covers more than one attempt; with one attempt or fewer the source returns the inner generator itself.
