/**
 * What the two hooks promise, stated over their specification functions:
 * the three admission decisions, what onSend stores, the scenarios the
 * plugin's tests describe, and an invariant of the store's contents.
 */
module PluginProperties {
  import opened Wrappers
  import opened TtlStore
  import opened CacheKey
  import opened Serial
  import opened Polling
  import opened ResponseCaching

  /** Only GET is cached: for any other method neither hook touches the store
      and no `x-response-cache` header is set. */
  lemma OtherMethodsBypassCache(entries: Entries, now: int, ttl: int, headers: seq<string>, digest: string -> string,
                                req: Request, others: nat -> Option<Landing>, statusCode: nat, payload: string)
    requires req.verb != "GET"
    ensures OnRequestEffect(entries, now, ttl, headers, digest, req, others) == Effect(entries, now, NotCacheable)
    ensures CacheHeader(OnRequestEffect(entries, now, ttl, headers, digest, req, others).outcome) == None
    ensures OnSendEffect(entries, now, ttl, headers, digest, req, statusCode, payload) == entries
  {
  }

  /** With no live marker, onRequest writes the marker "cached" with the configured
      ttl, answers "miss" and lets the request through without waiting. */
  lemma FirstRequestSetsMarker(entries: Entries, now: int, ttl: int, headers: seq<string>, digest: string -> string,
                               req: Request, others: nat -> Option<Landing>)
    requires req.verb == "GET"
    requires !Truthy(Lookup(entries, now, RequestedKey(BuildCacheKey(digest, req, headers))))
    ensures var marker := RequestedKey(BuildCacheKey(digest, req, headers));
            OnRequestEffect(entries, now, ttl, headers, digest, req, others)
              == Effect(Put(entries, now, marker, "cached", ttl), now, Miss)
    ensures CacheHeader(Miss) == Some("miss")
  {
  }

  /**
   * With a live marker, onRequest waits; if the wait yields a value it replies
   * with exactly the status code and payload parsed from it ("hit"), otherwise
   * the request falls through ("miss"). Either way it waits at most
   * MaxDelays(ttl) intervals.
   */
  lemma FollowerWaits(entries: Entries, now: int, ttl: int, headers: seq<string>, digest: string -> string,
                      req: Request, others: nat -> Option<Landing>)
    requires req.verb == "GET"
    requires Truthy(Lookup(entries, now, RequestedKey(BuildCacheKey(digest, req, headers))))
    ensures var key := BuildCacheKey(digest, req, headers);
            var w := Poll(Observed(entries, now, key, others), ttl);
            var e := OnRequestEffect(entries, now, ttl, headers, digest, req, others);
            && e.entries == EntriesAfter(entries, now, key, others, w.delays)
            && e.now == now + INTERVAL * w.delays
            && now <= e.now <= now + INTERVAL * MaxDelays(ttl)
            && (Truthy(w.cached) && Parse(w.cached.value).Some? ==> e.outcome == Hit(Parse(w.cached.value).value))
            && (Truthy(w.cached) && Parse(w.cached.value).None? ==> e.outcome == Rejected)
            && (!Truthy(w.cached) ==> e.outcome == Miss)
  {
    var key := BuildCacheKey(digest, req, headers);
    PollWithinBound(Observed(entries, now, key, others), ttl);
  }

  /** onSend stores the response so that it reads back, and parses back to the same
      status code and payload, until ttl has elapsed and not afterwards. */
  lemma OnSendStoresResponse(entries: Entries, now: int, ttl: int, headers: seq<string>, digest: string -> string,
                             req: Request, statusCode: nat, payload: string, later: int)
    requires req.verb == "GET"
    ensures var stored := OnSendEffect(entries, now, ttl, headers, digest, req, statusCode, payload);
            var got := Lookup(stored, later, BuildCacheKey(digest, req, headers));
            && (got.Some? <==> later <= now + ttl)
            && (got.Some? ==> Truthy(got) && Parse(got.value) == Some(CachedResponse(statusCode, payload)))
  {
    ParseStringify(CachedResponse(statusCode, payload));
    StringifyNotEmpty(CachedResponse(statusCode, payload));
  }

  /** Publishing a result and then admitting a request for the same key while its
      marker is live replays that result at once, without waiting. */
  lemma PublishThenRequestIsHit(entries: Entries, now: int, ttl: int, headers: seq<string>, digest: string -> string,
                                req: Request, statusCode: nat, payload: string, others: nat -> Option<Landing>)
    requires IsDigestFunction(digest)
    requires req.verb == "GET" && ttl >= 0
    requires Truthy(Lookup(entries, now, RequestedKey(BuildCacheKey(digest, req, headers))))
    ensures var published := OnSendEffect(entries, now, ttl, headers, digest, req, statusCode, payload);
            OnRequestEffect(published, now, ttl, headers, digest, req, others)
              == Effect(published, now, Hit(CachedResponse(statusCode, payload)))
  {
    var key := BuildCacheKey(digest, req, headers);
    var published := OnSendEffect(entries, now, ttl, headers, digest, req, statusCode, payload);
    MarkerKeyNeverCacheKey(digest, req, headers, req, headers);
    LookupOtherKey(entries, now, key, Stringify(CachedResponse(statusCode, payload)), ttl, RequestedKey(key), now);
    OnSendStoresResponse(entries, now, ttl, headers, digest, req, statusCode, payload, now);
    var seen := Observed(published, now, key, others);
    ObservedAt(published, now, key, others, 0);
    PollFindsValueInTime(seen, ttl, 0);
  }

  /** Before anything lands, a key that was absent at the start of a wait reads as absent. */
  lemma QuietReadsAbsent(entries: Entries, start: int, key: string, others: nat -> Option<Landing>, j: nat)
    requires Lookup(entries, start, key) == None
    requires forall i :: 1 <= i <= j ==> others(i).None?
    ensures Observed(entries, start, key, others)(j) == None
  {
    EntriesAfterQuiet(entries, start, key, others, j);
    ObservedAt(entries, start, key, others, j);
    AbsentStaysAbsent(entries, start, start + INTERVAL * j, key);
  }

  /**
   * Two identical GETs arrive together on a fresh key: the first is admitted
   * ("miss"); the second waits, and when the first one's result lands during
   * its n-th delay, within the ttl, it replies with that result ("hit").
   */
  lemma ConcurrentRequestIsHit(entries: Entries, now: int, ttl: int, headers: seq<string>, digest: string -> string,
                               req: Request, response: CachedResponse, others: nat -> Option<Landing>, n: nat)
    requires IsDigestFunction(digest)
    requires req.verb == "GET" && ttl >= 0
    requires Lookup(entries, now, BuildCacheKey(digest, req, headers)) == None
    requires Lookup(entries, now, RequestedKey(BuildCacheKey(digest, req, headers))) == None
    requires 1 <= n && INTERVAL * (n - 1) <= ttl
    requires forall j :: 1 <= j < n ==> others(j).None?
    requires others(n) == Some(Landing(Stringify(response), ttl))
    ensures var first := OnRequestEffect(entries, now, ttl, headers, digest, req, others);
            var second := OnRequestEffect(first.entries, first.now, ttl, headers, digest, req, others);
            && first.outcome == Miss && first.now == now
            && second.outcome == Hit(response)
            && second.now == now + INTERVAL * n
  {
    var key := BuildCacheKey(digest, req, headers);
    var marker := RequestedKey(key);
    FirstRequestSetsMarker(entries, now, ttl, headers, digest, req, others);
    var admitted := Put(entries, now, marker, MARKER_VALUE, ttl);
    MarkerKeyNeverCacheKey(digest, req, headers, req, headers);
    LookupOtherKey(entries, now, marker, MARKER_VALUE, ttl, key, now);
    var seen := Observed(admitted, now, key, others);
    forall j | 0 <= j < n ensures !Truthy(seen(j)) {
      QuietReadsAbsent(admitted, now, key, others, j);
    }
    ObservedAt(admitted, now, key, others, n);
    StringifyNotEmpty(response);
    assert Truthy(seen(n));
    PollFindsValueInTime(seen, ttl, n);
    ParseStringify(response);
  }

  /**
   * The same arrival, but the first request's result has not landed by the
   * time the second has waited longer than the ttl: the second gives up after
   * MaxDelays(ttl) delays (six with the default ttl of 1000) and falls through.
   */
  lemma SlowFirstRequestTimesOut(entries: Entries, now: int, ttl: int, headers: seq<string>, digest: string -> string,
                                 req: Request, others: nat -> Option<Landing>)
    requires IsDigestFunction(digest)
    requires req.verb == "GET" && ttl >= 0
    requires Lookup(entries, now, BuildCacheKey(digest, req, headers)) == None
    requires Lookup(entries, now, RequestedKey(BuildCacheKey(digest, req, headers))) == None
    requires forall j :: 1 <= j <= MaxDelays(ttl) ==> others(j).None?
    ensures var first := OnRequestEffect(entries, now, ttl, headers, digest, req, others);
            var second := OnRequestEffect(first.entries, first.now, ttl, headers, digest, req, others);
            && first.outcome == Miss
            && second == Effect(first.entries, now + INTERVAL * MaxDelays(ttl), Miss)
    ensures ttl == DEFAULT_TTL ==> MaxDelays(ttl) == 6
  {
    var key := BuildCacheKey(digest, req, headers);
    var marker := RequestedKey(key);
    FirstRequestSetsMarker(entries, now, ttl, headers, digest, req, others);
    var admitted := Put(entries, now, marker, MARKER_VALUE, ttl);
    MarkerKeyNeverCacheKey(digest, req, headers, req, headers);
    LookupOtherKey(entries, now, marker, MARKER_VALUE, ttl, key, now);
    var seen := Observed(admitted, now, key, others);
    forall j | 0 <= j <= MaxDelays(ttl) ensures !Truthy(seen(j)) {
      QuietReadsAbsent(admitted, now, key, others, j);
    }
    PollGivesUp(seen, ttl);
    EntriesAfterQuiet(admitted, now, key, others, MaxDelays(ttl));
  }

  /**
   * Once ttl has passed since the result was stored, both the marker and the
   * result read as absent, so the next identical GET starts a new episode:
   * it writes a fresh marker and misses, without waiting.
   */
  lemma ExpiredEpisodeStartsAfresh(entries: Entries, t0: int, t1: int, t2: int, ttl: int, headers: seq<string>,
                                   digest: string -> string, req: Request, statusCode: nat, payload: string,
                                   others: nat -> Option<Landing>)
    requires IsDigestFunction(digest)
    requires req.verb == "GET"
    requires !Truthy(Lookup(entries, t0, RequestedKey(BuildCacheKey(digest, req, headers))))
    requires t0 <= t1 && t1 + ttl < t2
    ensures var key := BuildCacheKey(digest, req, headers);
            var first := OnRequestEffect(entries, t0, ttl, headers, digest, req, others);
            var sent := OnSendEffect(first.entries, t1, ttl, headers, digest, req, statusCode, payload);
            && Lookup(sent, t2, key) == None
            && Lookup(sent, t2, RequestedKey(key)) == None
            && OnRequestEffect(sent, t2, ttl, headers, digest, req, others)
                 == Effect(Put(sent, t2, RequestedKey(key), MARKER_VALUE, ttl), t2, Miss)
  {
  }

  /** Every entry under a digest-shaped key, live or expired, holds a parsable response. */
  ghost predicate ResultsParse(entries: Entries)
  {
    forall k :: k in entries && IsMd5Hex(k) ==> Parse(entries[k].value).Some?
  }

  /** Every write that lands while a request waits is a stringified response. */
  ghost predicate LandingsParse(others: nat -> Option<Landing>)
  {
    forall n :: others(n).Some? ==> Parse(others(n).value.value).Some?
  }

  lemma {:induction false} EntriesAfterKeepsResultsParse(entries: Entries, start: int, key: string, others: nat -> Option<Landing>, k: nat)
    requires ResultsParse(entries) && LandingsParse(others)
    ensures ResultsParse(EntriesAfter(entries, start, key, others, k))
  {
    if k > 0 {
      EntriesAfterKeepsResultsParse(entries, start, key, others, k - 1);
    }
  }

  /** onSend keeps every stored result parsable. */
  lemma OnSendKeepsResultsParse(entries: Entries, now: int, ttl: int, headers: seq<string>, digest: string -> string,
                                req: Request, statusCode: nat, payload: string)
    requires ResultsParse(entries)
    ensures ResultsParse(OnSendEffect(entries, now, ttl, headers, digest, req, statusCode, payload))
  {
    ParseStringify(CachedResponse(statusCode, payload));
  }

  /** onRequest keeps every stored result parsable: a marker key is never digest-shaped. */
  lemma OnRequestKeepsResultsParse(entries: Entries, now: int, ttl: int, headers: seq<string>, digest: string -> string,
                                   req: Request, others: nat -> Option<Landing>)
    requires IsDigestFunction(digest)
    requires ResultsParse(entries) && LandingsParse(others)
    ensures ResultsParse(OnRequestEffect(entries, now, ttl, headers, digest, req, others).entries)
  {
    if IsCacheableRequest(req) {
      var key := BuildCacheKey(digest, req, headers);
      EntriesAfterKeepsResultsParse(entries, now, key, others, Poll(Observed(entries, now, key, others), ttl).delays);
      assert !IsMd5Hex(RequestedKey(key));
    }
  }

  /** On a store whose results all parse, and with only responses landing,
      a waiting request never hits the JSON.parse failure. */
  lemma WellFormedStoreNeverRejects(entries: Entries, now: int, ttl: int, headers: seq<string>, digest: string -> string,
                                    req: Request, others: nat -> Option<Landing>)
    requires IsDigestFunction(digest)
    requires ResultsParse(entries) && LandingsParse(others)
    ensures OnRequestEffect(entries, now, ttl, headers, digest, req, others).outcome != Rejected
  {
    if IsCacheableRequest(req) {
      var key := BuildCacheKey(digest, req, headers);
      var seen := Observed(entries, now, key, others);
      var w := Poll(seen, ttl);
      PollReturnsFirstTruthyRead(seen, ttl);
      if Truthy(w.cached) {
        ObservedAt(entries, now, key, others, w.delays);
        EntriesAfterKeepsResultsParse(entries, now, key, others, w.delays);
        assert IsMd5Hex(key);
      }
    }
  }
}
