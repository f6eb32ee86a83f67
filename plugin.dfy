/**
 * The two Fastify hooks of the plugin (index.js:49-97) and its option
 * defaults (index.js:99-105). onRequest admits the first request for a key
 * (it writes the in-flight marker) and makes later ones wait for the first
 * one's result; onSend stores every GET's status code and payload.
 */
module ResponseCaching {
  import opened Wrappers
  import opened TtlStore
  import opened CacheKey
  import opened Serial
  import opened Polling

  const DEFAULT_TTL: int := 1000
  const X_RESPONSE_CACHE: string := "x-response-cache"
  const X_RESPONSE_CACHE_HIT: string := "hit"
  const X_RESPONSE_CACHE_MISS: string := "miss"

  /** The value stored under a marker key. */
  const MARKER_VALUE: string := "cached"

  /** How onRequest ended for one request. */
  datatype Outcome =
    | NotCacheable                    // not a GET: the hook returned at once
    | Miss                            // header "miss"; the route handler runs
    | Hit(response: CachedResponse)   // header "hit"; replied with the cached status and payload
    | Rejected                        // the stored string did not parse: JSON.parse throws

  /** The store after onRequest, the clock after its waiting, and how it ended. */
  datatype Effect = Effect(entries: Entries, now: int, outcome: Outcome)

  /** The value onRequest gives the `x-response-cache` header, if any. */
  function CacheHeader(outcome: Outcome): Option<string>
  {
    match outcome
    case NotCacheable => None
    case Rejected => None
    case Miss => Some(X_RESPONSE_CACHE_MISS)
    case Hit(_) => Some(X_RESPONSE_CACHE_HIT)
  }

  /** The specification of onRequest on a store holding `entries` at time `now`. */
  function OnRequestEffect(entries: Entries, now: int, ttl: int, headers: seq<string>, digest: string -> string,
                           req: Request, others: nat -> Option<Landing>): (e: Effect)
    ensures e.outcome.NotCacheable? <==> req.verb != "GET"
    ensures e.outcome.NotCacheable? ==> e.entries == entries && e.now == now
    ensures e.now >= now && (e.now - now) % INTERVAL == 0
    ensures e.outcome.Hit? || e.outcome.Rejected? ==>
              Truthy(Lookup(entries, now, RequestedKey(BuildCacheKey(digest, req, headers))))
  {
    if !IsCacheableRequest(req) then Effect(entries, now, NotCacheable)
    else
      var key := BuildCacheKey(digest, req, headers);
      var requestKey := RequestedKey(key);
      if Truthy(Lookup(entries, now, requestKey)) then
        var w := Poll(Observed(entries, now, key, others), ttl);
        var after := EntriesAfter(entries, now, key, others, w.delays);
        var later := now + INTERVAL * w.delays;
        if Truthy(w.cached) then
          match Parse(w.cached.value)
          case Some(cached) => Effect(after, later, Hit(cached))
          case None => Effect(after, later, Rejected)
        else Effect(after, later, Miss)
      else Effect(Put(entries, now, requestKey, MARKER_VALUE, ttl), now, Miss)
  }

  /** The specification of onSend: the entries after it stored the response. */
  function OnSendEffect(entries: Entries, now: int, ttl: int, headers: seq<string>, digest: string -> string,
                        req: Request, statusCode: nat, payload: string): (r: Entries)
    ensures req.verb != "GET" ==> r == entries
    ensures r.Keys <= entries.Keys + {BuildCacheKey(digest, req, headers)}
    ensures forall k :: k in entries && k != BuildCacheKey(digest, req, headers) ==> k in r && r[k] == entries[k]
  {
    if !IsCacheableRequest(req) then entries
    else Put(entries, now, BuildCacheKey(digest, req, headers), Stringify(CachedResponse(statusCode, payload)), ttl)
  }

  /** Fastify's reply object, reduced to what the hooks touch. */
  class Reply {
    var headers: map<string, string>
    var statusCode: nat
    var sent: Option<string>

    constructor ()
      ensures headers == map[] && statusCode == 200 && sent == None
    {
      headers := map[];
      statusCode := 200;
      sent := None;
    }

    /** `res.header(name, value)`. */
    method Header(name: string, value: string)
      modifies this
      ensures headers == old(headers)[name := value]
      ensures statusCode == old(statusCode) && sent == old(sent)
    {
      headers := headers[name := value];
    }

    /** `res.code(statusCode).send(payload)`. */
    method CodeAndSend(code: nat, payload: string)
      modifies this
      ensures statusCode == code && sent == Some(payload)
      ensures headers == old(headers)
    {
      statusCode := code;
      sent := Some(payload);
    }
  }

  /** One registration of the plugin: its options and the Keyv store it shares. */
  class ResponseCachingPlugin {
    const cache: Keyv
    const digest: string -> string
    const ttl: int
    const headers: seq<string>

    /** `responseCachingPlugin(instance, {ttl, additionalCondition})`: absent options take their defaults. */
    constructor (cache: Keyv, digest: string -> string, ttl: Option<int>, headers: Option<seq<string>>)
      ensures this.cache == cache && this.digest == digest
      ensures this.ttl == (if ttl.Some? then ttl.value else DEFAULT_TTL)
      ensures this.headers == (if headers.Some? then headers.value else [])
    {
      this.cache := cache;
      this.digest := digest;
      this.ttl := if ttl.Some? then ttl.value else DEFAULT_TTL;
      this.headers := if headers.Some? then headers.value else [];
    }

    /** The onRequest hook; `others` are the writes that land while it waits. */
    method OnRequest(req: Request, res: Reply, others: nat -> Option<Landing>) returns (outcome: Outcome)
      modifies cache, res
      ensures Effect(cache.entries, cache.now, outcome)
           == OnRequestEffect(old(cache.entries), old(cache.now), ttl, headers, digest, req, others)
      ensures res.headers == match CacheHeader(outcome)
                             case Some(value) => old(res.headers)[X_RESPONSE_CACHE := value]
                             case None => old(res.headers)
      ensures outcome.Hit? ==> res.statusCode == outcome.response.statusCode && res.sent == Some(outcome.response.payload)
      ensures !outcome.Hit? ==> res.statusCode == old(res.statusCode) && res.sent == old(res.sent)
    {
      if !IsCacheableRequest(req) {
        return NotCacheable;
      }
      var key := BuildCacheKey(digest, req, headers);
      var requestKey := RequestedKey(key);
      var isRequestExisted := cache.Get(requestKey);
      if Truthy(isRequestExisted) {
        var cachedString, delays := WaitForCacheFulfilled(cache, key, ttl, others);
        if Truthy(cachedString) {
          match Parse(cachedString.value) {
            case None =>
              outcome := Rejected;
            case Some(cached) =>
              res.Header(X_RESPONSE_CACHE, X_RESPONSE_CACHE_HIT);
              res.CodeAndSend(cached.statusCode, cached.payload);
              outcome := Hit(cached);
          }
        } else {
          res.Header(X_RESPONSE_CACHE, X_RESPONSE_CACHE_MISS);
          outcome := Miss;
        }
      } else {
        cache.Set(requestKey, MARKER_VALUE, ttl);
        res.Header(X_RESPONSE_CACHE, X_RESPONSE_CACHE_MISS);
        outcome := Miss;
      }
    }

    /** The onSend hook: stores the reply's status code and the payload under the request's key. */
    method OnSend(req: Request, res: Reply, payload: string)
      modifies cache
      ensures cache.entries == OnSendEffect(old(cache.entries), old(cache.now), ttl, headers, digest, req, res.statusCode, payload)
      ensures cache.now == old(cache.now)
    {
      if !IsCacheableRequest(req) {
        return;
      }
      var key := BuildCacheKey(digest, req, headers);
      cache.Set(key, Stringify(CachedResponse(res.statusCode, payload)), ttl);
    }
  }
}
