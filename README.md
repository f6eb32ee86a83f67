# fastify-response-caching, modelled in Dafny

The plugin puts a single-flight response cache in front of a Fastify
server. Only GET requests take part. Each request gets a key: the md5 hash
of its URL together with the values of a configured list of headers.

Two hooks do the work:

- **onRequest** looks for the in-flight marker `key + "__requested"`.
  - If there is no marker, the request is the first one. The hook writes
    the marker with the configured `ttl`, tags the reply `x-response-cache:
    miss` and lets the route handler run.
  - If there is a marker, the hook polls the store every 200 ms until the
    first request's result appears or the time waited exceeds `ttl`. If a
    result appears, it replays the stored status code and payload, tagged
    `hit`. Otherwise the request falls through, tagged `miss`.
- **onSend** stores `{statusCode, payload}` under `key` with the same
  `ttl`. It does this for every GET.

The project has seven modules:

| file | module | what it models |
|---|---|---|
| wrappers.dfy | `Wrappers` | `Option`, for `undefined` |
| ttl_store.dfy | `TtlStore` | the shared Keyv store: a class with `entries: map<string, Entry>` and an integer clock `now` |
| cache_key.dfy | `CacheKey` | `isCacheableRequest`, `buildCacheKey`, the marker key |
| serial.dfy | `Serial` | a stand-in for `JSON.stringify`/`JSON.parse` of `{statusCode, payload}` |
| polling.dfy | `Polling` | `waitForCacheFulfilled`: a loop method proved against the pure function `Poll` |
| plugin.dfy | `ResponseCaching` | the options and their defaults, the reply object, and both hooks as methods of a class that shares one `Keyv`; each hook is proved against a pure effect function |
| plugin_properties.dfy | `PluginProperties` | the admission decisions, the scenarios of `index.test.js`, and a store invariant |

Modelling choices:

- **Hash.** md5 is the parameter `digest: string -> string`. The model only
  knows `IsDigestFunction(digest)`: every output is 32 lowercase hex
  characters.
- **Expiry.** An entry is live while `now <= expiresAt`, where
  `expiresAt = time of set + ttl`. This follows Keyv's test
  `Date.now() > expires`.
- **Other requests.** While a request waits, other requests may write to
  the store. That is the input `others: nat -> Option<Landing>`.
  `others(n)` is the write that lands during the n-th delay, just before
  the read that ends that delay.
- **Truthiness.** JavaScript treats `undefined` and `""` alike as "no
  value". `Truthy` models this.
- **Parse failures.** If a stored string does not parse, `JSON.parse` would
  throw. That is the outcome `Rejected`, and no header is set.

The pre-hash key string is not an injective encoding of the header values.
A header value that contains `__<name>:` can move text into the next
segment, so two different header combinations can share one key.
`CacheKey.KeyDataCollides` exhibits such a pair. What does hold is
`CacheKey.ConfiguredHeaderSeparates`: two requests whose values differ in
exactly one configured header get different strings.

Notable behaviour of the code, which the model keeps:

- Waiters poll the store every 200 ms; nothing wakes them earlier.
- A waiter gives up after the first delay that brings the time waited above
  `ttl`. That is `MaxDelays(ttl)` delays, so it waits up to 200 ms longer
  than `ttl` (exactly 200 ms for the default 1000: six delays, 1200 ms).
- Replies served as hits go through onSend too, so they store the result
  again and renew its ttl.
- An unparsable stored result makes the hook throw; the request is not
  served as a miss.

## Model

| member | source | states |
|---|---|---|
| TtlStore.Lookup | index.js:33 | what `cache.get` resolves to: a value exactly while the key holds an entry with `now <= expiresAt`, and then that entry's value; `LookupAfterPut`, `LookupOtherKey` and `AbsentStaysAbsent` relate it to writes and time |
| TtlStore.Put | index.js:73 | the entries after `cache.set(key, value, ttl)`: the old keys plus `key`, which now holds `(value, now + ttl)` whatever it held before; other keys keep their reads by `LookupOtherKey` |
| TtlStore.Keyv.Get | index.js:59 | `cache.get(key)` on the current store and clock: a value exactly while `key` has an unexpired entry, and then that entry's value |
| TtlStore.Keyv.constructor | index.js:8 | a new store is empty, with the clock at the given time |
| TtlStore.Keyv.Set | index.js:73 | the entries become the old ones with `key` set to `(value, now + ttl)`; the clock does not move; the key reads back `value` exactly when `ttl >= 0` |
| TtlStore.Keyv.Advance | index.js:37 | a delay moves the clock forward by its length and leaves the entries unchanged |
| TtlStore.LookupAfterPut | index.js:89-96 | a written value reads back at every later time up to `now + ttl`, and not after |
| TtlStore.LookupOtherKey | index.js:58 | a write under one key does not change what any other key reads |
| TtlStore.AbsentStaysAbsent | index.js:59 | a key that reads as absent stays absent as time passes, until it is written |
| CacheKey.IsCacheableRequest | index.js:16-18 | a request is cacheable if and only if its method is exactly `GET` |
| CacheKey.HeaderValue | index.js:23 | `requestHeaders[name] \|\| ''`: the header's value when present, "" when missing |
| CacheKey.Reduce | index.js:22-24 | the `reduce` callback applied left to right: the result starts with the seed and grows by at least three characters (`__` and `:`) per header; `ReduceAppendsSegments` states it is the seed followed by `Segments` |
| CacheKey.AdditionalCondition | index.js:22-24 | "" when no headers are configured, otherwise a string that starts with `__<first header>:` |
| CacheKey.KeyData | index.js:25 | the pre-hash string starts with the URL followed by `__`; dependence on headers by `UnconfiguredHeadersIgnored`, `ConfiguredHeaderSeparates`, `KeyDataCollides` |
| CacheKey.BuildCacheKey | index.js:20-30 | with an md5-like digest the key is 32 lowercase hexadecimal characters (`digest('hex')`); never a marker key by `MarkerKeyNeverCacheKey` |
| CacheKey.RequestedKey | index.js:58 | the marker key is the cache key followed by `__requested` |
| CacheKey.ReduceAppendsSegments | index.js:22-24 | the `reduce` from seed `acc` yields `acc` followed by one `__name:value` segment per configured header, in list order |
| CacheKey.KeyDataLayout | index.js:20-25 | the string that is hashed is the URL, then `__`, then the header segments in configured order |
| CacheKey.UnconfiguredHeadersIgnored | index.js:22-24 | requests with the same URL and the same values for every configured header get the same string and the same key, whatever their other headers |
| CacheKey.MissingHeaderIsEmpty | index.js:23 | a missing header and a header with an empty value give the same key |
| CacheKey.SegmentsSeparate | index.js:22-24 | header maps that differ in exactly one configured header give different segment strings |
| CacheKey.ConfiguredHeaderSeparates | index.js:20-25 | requests with the same URL that differ in exactly one configured header get different pre-hash strings |
| CacheKey.KeyDataCollides | index.js:22-25 | there are two requests that differ in a configured header value but share one pre-hash string |
| CacheKey.MarkerKeyNeverCacheKey | index.js:58 | for any two requests, the first one's marker key (`key + "__requested"`) is never the second one's cache key |
| Serial.Stringify | index.js:91-94 | the stored form of `{statusCode, payload}` holds the separator and ends with the payload; `ParseStringify` inverts it |
| Serial.Parse | index.js:65 | None for a string without the separator (where `JSON.parse` would throw); a parsed payload is a proper suffix of the input; `ParseStringify` states the round trip |
| Serial.ParseStringify | index.js:65 | parsing the stored string of a `{statusCode, payload}` gives back the same status code and payload |
| Serial.StringifyNotEmpty | index.js:36 | a stored response is never the falsy empty string |
| Polling.Truthy | index.js:36 | JavaScript truthiness of a read: `undefined` and "" are falsy; used for the tests at index.js:36, 41, 61 and 64 |
| Polling.Poll | index.js:32-47 | the loop's outcome: a value only if it is truthy and is what the read after that many delays saw; nothing only after at least one delay with the time waited above the timeout |
| Polling.PollFrom | index.js:36-44 | the loop from its k-th read on: at least k delays, a truthy value that the last read saw, or nothing once the time waited exceeds the timeout |
| Polling.MaxDelaysOvershoot | index.js:40-43 | a wait that gives up has slept past the timeout by 1 to 200 ms, exactly 200 ms when the timeout is a multiple of 200; with ttl 1000 that is 6 delays, 1200 ms |
| Polling.MaxDelays | index.js:40-43 | the give-up point: the first delay count whose waited time exceeds the timeout |
| Polling.PollWithinBound | index.js:32-47 | the wait ends for every integer timeout, after at most `timeout / 200 + 1` delays, or 1 when the timeout is negative |
| Polling.PollReturnsFirstTruthyRead | index.js:33-46 | the wait yields a value if and only if one of its reads saw one; the value is that of its last read, and every earlier read was falsy; with no value it has waited exactly `MaxDelays(timeout)` delays, beyond the timeout; a successful first read means no delay |
| Polling.PollFindsValueInTime | index.js:36-44 | a value first seen by the m-th read, before the wait could give up, is returned after exactly m delays |
| Polling.PollGivesUp | index.js:40-43 | if no read up to the last one the timeout allows sees a value, the wait yields nothing after `MaxDelays(timeout)` delays |
| Polling.SleepThenGet | index.js:37-38 | one round of the loop: the clock moves 200 ms on, another request's write (if any) lands, and the read returns `Observed(...)(k + 1)`, the value the loop's specification assigns to read k+1 |
| Polling.WaitForCacheFulfilled | index.js:32-47 | the loop returns what `Poll` gives for the reads it actually made, advances the clock by 200 ms per delay, and leaves the store as the landed writes made it |
| ResponseCaching.Reply.Header | index.js:66 | `res.header` sets one header and leaves the status code and sent payload alone |
| ResponseCaching.Reply.CodeAndSend | index.js:68 | `res.code(c).send(p)` sets the status code and the sent payload |
| ResponseCaching.ResponseCachingPlugin.constructor | index.js:99-105 | `ttl` defaults to 1000 and the header list defaults to empty |
| ResponseCaching.ResponseCachingPlugin.OnRequest | index.js:49-76 | the store, clock and outcome are those of `OnRequestEffect`; `x-response-cache` is `miss` or `hit` by outcome and is untouched otherwise; a hit sends the cached status and payload |
| ResponseCaching.ResponseCachingPlugin.OnSend | index.js:78-97 | the store becomes `OnSendEffect` of the old one, with the reply's status code; the clock does not move |
| ResponseCaching.OnRequestEffect | index.js:49-76 | onRequest: `NotCacheable` exactly for non-GET requests, which leave store and clock as they were; the clock moves forward by whole 200 ms intervals; a hit (or a throw) only for a request that found a live marker |
| ResponseCaching.OnSendEffect | index.js:78-97 | onSend: the store is unchanged for non-GET requests, and otherwise only the request's cache key is written; `OnSendStoresResponse` states what reads back |
| PluginProperties.OtherMethodsBypassCache | index.js:53-55 | for a non-GET request, neither hook changes the store and no cache header is set |
| PluginProperties.FirstRequestSetsMarker | index.js:72-75 | with no live marker, onRequest writes `"cached"` under the marker key with the configured ttl, answers `miss` and does not wait |
| PluginProperties.FollowerWaits | index.js:61-71 | with a live marker, onRequest waits at most `MaxDelays(ttl)` intervals; it is a hit with exactly the parsed status and payload if the wait yields a value, and a miss otherwise |
| PluginProperties.OnSendStoresResponse | index.js:87-96 | after onSend the key reads back a string that parses to the reply's status and payload, until `ttl` has elapsed and not after |
| PluginProperties.PublishThenRequestIsHit | index.js:59-68 | a request arriving right after a result was stored, while the marker is live, replays that result at once and changes nothing |
| PluginProperties.ConcurrentRequestIsHit | index.test.js:147-171 | of two simultaneous GETs on a fresh key, the first misses; the second is a hit with the first's response once that lands within the ttl |
| PluginProperties.SlowFirstRequestTimesOut | index.test.js:173-197 | if the first response has not landed by the time the ttl is exceeded, the second request misses after `MaxDelays(ttl)` delays (6 for the default ttl) |
| PluginProperties.ExpiredEpisodeStartsAfresh | index.test.js:74-102 | once ttl has passed since the result was stored, marker and result read as absent, and the next GET writes a new marker and misses |
| PluginProperties.OnSendKeepsResultsParse | index.js:89-96 | onSend keeps the invariant that every entry under a digest-shaped key parses |
| PluginProperties.OnRequestKeepsResultsParse | index.js:57-75 | onRequest keeps the same invariant, because a marker key is never digest-shaped |
| PluginProperties.WellFormedStoreNeverRejects | index.js:64-68 | under that invariant, a waiting request never hits the `JSON.parse` failure |

## Left out

- Plugin registration, the `fastify-plugin` wrapper and the hook wiring
  (index.js:107-116) are framework plumbing. Only the option defaults are
  kept, as constructor parameters.
- md5 and hex encoding are not reimplemented. The digest is a parameter,
  and nothing about collision resistance is assumed.
- CacheKey.ConfiguredHeaderSeparates states that the pre-hash strings are
  different, not the md5 keys. md5's collision resistance is outside the
  model.
- JSON is not modelled. The stored form is the decimal status code, `:`,
  then the payload. Payloads are strings; Buffers, streams and objects are
  left out.
- Keyv deletes expired entries lazily on `get`. That cannot be observed
  through `get`, so it is not modelled.
- Keyv reads a ttl of 0 as "never expires". That convention is not
  modelled: here an entry written with ttl 0 is live only at the instant it
  was written.
- Real timers and `bluebird` delays become an integer clock. Another
  request's write lands at the end of a 200 ms delay, not at any instant
  within it.
- True concurrency is not modelled:
  - the check-then-set race between reading and writing the marker
    (index.js:59-73);
  - the suspension between reading the marker and the first read of the
    key.
  Other requests act only through the writes that land during a wait.
- Failures of the store's `get` and `set` are not modelled.
- What Fastify sends after a hook throws (the `Rejected` outcome) is not
  modelled.
- Request header values are single strings. Node's array values for
  repeated headers are left out.
- The test at index.test.js:14-22 expects a `responseCache` decoration.
  index.js does not provide one, so nothing models it.
