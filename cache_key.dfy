/**
 * Request classification and cache-key construction (index.js:10, 16-30).
 * The md5 digest is not reimplemented: it is the parameter `digest`, of
 * which the model only knows that it yields 32 lowercase hexadecimal
 * characters (IsDigestFunction).
 */
module CacheKey {

  /** The methods whose responses are cached. */
  const CACHEABLE_METHODS: seq<string> := ["GET"]

  /** Appended to a cache key to name its in-flight marker. */
  const REQUESTED_SUFFIX: string := "__requested"

  /** The parts of an incoming request the plugin looks at. */
  datatype Request = Request(verb: string, url: string, headers: map<string, string>)

  predicate IsCacheableRequest(req: Request)
    ensures IsCacheableRequest(req) <==> req.verb == "GET"
  {
    req.verb in CACHEABLE_METHODS
  }

  /** `requestHeaders[name] || ''`: a missing header and an empty one both give "". */
  function HeaderValue(requestHeaders: map<string, string>, name: string): (v: string)
    ensures name !in requestHeaders ==> v == ""
    ensures name in requestHeaders ==> v == requestHeaders[name]
  {
    if name in requestHeaders then requestHeaders[name] else ""
  }

  /** The `reduce` callback's step, applied left to right from `acc`. */
  function Reduce(acc: string, headers: seq<string>, requestHeaders: map<string, string>): (r: string)
    ensures acc <= r
    ensures |r| >= |acc| + 3 * |headers|
    decreases |headers|
  {
    if headers == [] then acc
    else Reduce(acc + "__" + headers[0] + ":" + HeaderValue(requestHeaders, headers[0]), headers[1..], requestHeaders)
  }

  function AdditionalCondition(headers: seq<string>, requestHeaders: map<string, string>): (r: string)
    ensures headers == [] ==> r == ""
    ensures headers != [] ==> "__" + headers[0] + ":" <= r
  {
    Reduce("", headers, requestHeaders)
  }

  /** The string that is hashed: the URL, "__", then the header segments. */
  function KeyData(req: Request, headers: seq<string>): (data: string)
    ensures req.url + "__" <= data
    ensures |data| >= |req.url| + 2 + 3 * |headers|
  {
    req.url + "__" + AdditionalCondition(headers, req.headers)
  }

  /** The cache key: with an md5-like digest, 32 lowercase hexadecimal characters. */
  function BuildCacheKey(digest: string -> string, req: Request, headers: seq<string>): (key: string)
    ensures IsDigestFunction(digest) ==> IsMd5Hex(key)
  {
    digest(KeyData(req, headers))
  }

  /** The key of the in-flight marker that belongs to cache key `key`. */
  function RequestedKey(key: string): (r: string)
    ensures key <= r && |r| == |key| + |REQUESTED_SUFFIX|
    ensures r[|key|..] == REQUESTED_SUFFIX
  {
    key + REQUESTED_SUFFIX
  }

  predicate IsHexDigit(c: char)
  {
    '0' <= c <= '9' || 'a' <= c <= 'f'
  }

  /** The shape of `digest('hex')` for an md5 hash. */
  ghost predicate IsMd5Hex(h: string)
  {
    |h| == 32 && forall i :: 0 <= i < |h| ==> IsHexDigit(h[i])
  }

  ghost predicate IsDigestFunction(digest: string -> string)
  {
    forall data :: IsMd5Hex(digest(data))
  }

  /** Reference definition: one "__name:value" segment per configured header, in list order. */
  function Segments(headers: seq<string>, requestHeaders: map<string, string>): string
  {
    if headers == [] then ""
    else "__" + headers[0] + ":" + HeaderValue(requestHeaders, headers[0]) + Segments(headers[1..], requestHeaders)
  }

  /** The left fold appends exactly the reference segments to its seed. */
  lemma {:induction false} ReduceAppendsSegments(acc: string, headers: seq<string>, requestHeaders: map<string, string>)
    ensures Reduce(acc, headers, requestHeaders) == acc + Segments(headers, requestHeaders)
    decreases |headers|
  {
    if headers != [] {
      var segment := "__" + headers[0] + ":" + HeaderValue(requestHeaders, headers[0]);
      assert acc + "__" + headers[0] + ":" + HeaderValue(requestHeaders, headers[0]) == acc + segment;
      ReduceAppendsSegments(acc + segment, headers[1..], requestHeaders);
      assert acc + segment + Segments(headers[1..], requestHeaders)
          == acc + (segment + Segments(headers[1..], requestHeaders));
    }
  }

  /** The pre-hash string is the URL, "__", and the configured headers' segments in order. */
  lemma KeyDataLayout(req: Request, headers: seq<string>)
    ensures KeyData(req, headers) == req.url + "__" + Segments(headers, req.headers)
  {
    ReduceAppendsSegments("", headers, req.headers);
  }

  lemma {:induction false} SegmentsOnlyReadConfigured(headers: seq<string>, rh1: map<string, string>, rh2: map<string, string>)
    requires forall h :: h in headers ==> HeaderValue(rh1, h) == HeaderValue(rh2, h)
    ensures Segments(headers, rh1) == Segments(headers, rh2)
    decreases |headers|
  {
    if headers != [] {
      assert headers[0] in headers;
      SegmentsOnlyReadConfigured(headers[1..], rh1, rh2);
    }
  }

  /** Headers that are not configured never affect the key. */
  lemma UnconfiguredHeadersIgnored(digest: string -> string, req1: Request, req2: Request, headers: seq<string>)
    requires req1.url == req2.url
    requires forall h :: h in headers ==> HeaderValue(req1.headers, h) == HeaderValue(req2.headers, h)
    ensures KeyData(req1, headers) == KeyData(req2, headers)
    ensures BuildCacheKey(digest, req1, headers) == BuildCacheKey(digest, req2, headers)
  {
    KeyDataLayout(req1, headers);
    KeyDataLayout(req2, headers);
    SegmentsOnlyReadConfigured(headers, req1.headers, req2.headers);
  }

  /** A missing header and a header sent with an empty value give the same key. */
  lemma MissingHeaderIsEmpty(digest: string -> string, req: Request, headers: seq<string>, name: string)
    requires name !in req.headers
    ensures BuildCacheKey(digest, req, headers)
         == BuildCacheKey(digest, req.(headers := req.headers[name := ""]), headers)
  {
    UnconfiguredHeadersIgnored(digest, req, req.(headers := req.headers[name := ""]), headers);
  }

  lemma {:induction false} SegmentsAppend(a: seq<string>, b: seq<string>, requestHeaders: map<string, string>)
    ensures Segments(a + b, requestHeaders) == Segments(a, requestHeaders) + Segments(b, requestHeaders)
    decreases |a|
  {
    if a == [] {
      assert a + b == b;
    } else {
      assert (a + b)[0] == a[0];
      assert (a + b)[1..] == a[1..] + b;
      SegmentsAppend(a[1..], b, requestHeaders);
    }
  }

  lemma SegmentsSplit(headers: seq<string>, requestHeaders: map<string, string>, i: nat)
    requires i < |headers|
    ensures Segments(headers, requestHeaders)
         == Segments(headers[..i], requestHeaders)
            + ("__" + headers[i] + ":" + HeaderValue(requestHeaders, headers[i]))
            + Segments(headers[i + 1..], requestHeaders)
  {
    assert headers == headers[..i] + [headers[i]] + headers[i + 1..];
    SegmentsAppend(headers[..i] + [headers[i]], headers[i + 1..], requestHeaders);
    SegmentsAppend(headers[..i], [headers[i]], requestHeaders);
    assert Segments([headers[i]], requestHeaders) == "__" + headers[i] + ":" + HeaderValue(requestHeaders, headers[i]);
  }

  /** When two requests differ only in header `name`, the longer value gives the
      longer segment string, and values of equal length give equal lengths. */
  lemma {:induction false} SegmentsLength(headers: seq<string>, rh1: map<string, string>, rh2: map<string, string>, name: string)
    requires forall h :: h in headers && h != name ==> HeaderValue(rh1, h) == HeaderValue(rh2, h)
    ensures |HeaderValue(rh1, name)| == |HeaderValue(rh2, name)| ==> |Segments(headers, rh1)| == |Segments(headers, rh2)|
    ensures |HeaderValue(rh1, name)| < |HeaderValue(rh2, name)| && name in headers ==> |Segments(headers, rh1)| < |Segments(headers, rh2)|
    ensures |HeaderValue(rh1, name)| <= |HeaderValue(rh2, name)| ==> |Segments(headers, rh1)| <= |Segments(headers, rh2)|
    decreases |headers|
  {
    if headers != [] {
      assert headers[0] in headers;
      SegmentsLength(headers[1..], rh1, rh2, name);
      assert name in headers ==> headers[0] == name || name in headers[1..];
    }
  }

  /** The position of the first configured occurrence of `name`. */
  lemma {:induction false} FirstOccurrence(headers: seq<string>, name: string) returns (i: nat)
    requires name in headers
    ensures i < |headers| && headers[i] == name && name !in headers[..i]
  {
    if headers[0] == name {
      i := 0;
    } else {
      var j := FirstOccurrence(headers[1..], name);
      i := j + 1;
      assert headers[..i] == [headers[0]] + headers[1..][..j];
    }
  }

  /** Equal strings of the same layout hold the same text in a hole of one width. */
  lemma SameHole(prefix: string, tag: string, x: string, y: string, rest1: string, rest2: string)
    requires |x| == |y|
    requires prefix + (tag + x) + rest1 == prefix + (tag + y) + rest2
    ensures x == y
  {
    var lo := |prefix| + |tag|;
    assert (prefix + (tag + x) + rest1)[lo..lo + |x|] == x;
    assert (prefix + (tag + y) + rest2)[lo..lo + |y|] == y;
  }


  /** Segment strings of two header maps that differ in exactly one configured header differ. */
  lemma SegmentsSeparate(headers: seq<string>, rh1: map<string, string>, rh2: map<string, string>, name: string)
    requires name in headers
    requires HeaderValue(rh1, name) != HeaderValue(rh2, name)
    requires forall h :: h in headers && h != name ==> HeaderValue(rh1, h) == HeaderValue(rh2, h)
    ensures Segments(headers, rh1) != Segments(headers, rh2)
  {
    if |HeaderValue(rh1, name)| != |HeaderValue(rh2, name)| {
      SegmentsLength(headers, rh1, rh2, name);
      SegmentsLength(headers, rh2, rh1, name);
    } else {
      var i := FirstOccurrence(headers, name);
      forall h | h in headers[..i] ensures HeaderValue(rh1, h) == HeaderValue(rh2, h) {
        assert h in headers;
      }
      SegmentsSeparateAt(headers, rh1, rh2, i);
    }
  }

  /** Requests that agree on the headers before position i and hold different
      values of one width at i give different segment strings. */
  lemma SegmentsSeparateAt(headers: seq<string>, rh1: map<string, string>, rh2: map<string, string>, i: nat)
    requires i < |headers|
    requires forall h :: h in headers[..i] ==> HeaderValue(rh1, h) == HeaderValue(rh2, h)
    requires |HeaderValue(rh1, headers[i])| == |HeaderValue(rh2, headers[i])|
    requires HeaderValue(rh1, headers[i]) != HeaderValue(rh2, headers[i])
    ensures Segments(headers, rh1) != Segments(headers, rh2)
  {
    SegmentsSplit(headers, rh1, i);
    SegmentsSplit(headers, rh2, i);
    SegmentsOnlyReadConfigured(headers[..i], rh1, rh2);
    if Segments(headers, rh1) == Segments(headers, rh2) {
      SameHole(Segments(headers[..i], rh1), "__" + headers[i] + ":",
               HeaderValue(rh1, headers[i]), HeaderValue(rh2, headers[i]),
               Segments(headers[i + 1..], rh1), Segments(headers[i + 1..], rh2));
    }
  }



  /** Two requests for the same URL whose values differ in exactly one configured
      header get different pre-hash strings. */
  lemma ConfiguredHeaderSeparates(req1: Request, req2: Request, headers: seq<string>, name: string)
    requires req1.url == req2.url
    requires name in headers
    requires HeaderValue(req1.headers, name) != HeaderValue(req2.headers, name)
    requires forall h :: h in headers && h != name ==> HeaderValue(req1.headers, h) == HeaderValue(req2.headers, h)
    ensures KeyData(req1, headers) != KeyData(req2, headers)
  {
    KeyDataLayout(req1, headers);
    KeyDataLayout(req2, headers);
    SegmentsSeparate(headers, req1.headers, req2.headers, name);
    var lead := req1.url + "__";
    assert KeyData(req1, headers)[|lead|..] == Segments(headers, req1.headers);
    assert KeyData(req2, headers)[|lead|..] == Segments(headers, req2.headers);
  }

  /** The key string is not an injective encoding of the configured header
      values: a value that itself contains "__name:" can shift text into the
      next segment, so two different header combinations share one key. */
  lemma KeyDataCollides()
    ensures var headers := ["x-a", "x-b"];
            var req1 := Request("GET", "/p", map["x-a" := "1__x-b:2"]);
            var req2 := Request("GET", "/p", map["x-a" := "1", "x-b" := "2__x-b:"]);
            HeaderValue(req1.headers, "x-a") != HeaderValue(req2.headers, "x-a")
            && KeyData(req1, headers) == KeyData(req2, headers)
  {
  }

  /** No marker key is ever a cache key, whatever the two requests are. */
  lemma MarkerKeyNeverCacheKey(digest: string -> string, req1: Request, headers1: seq<string>, req2: Request, headers2: seq<string>)
    requires IsDigestFunction(digest)
    ensures RequestedKey(BuildCacheKey(digest, req1, headers1)) != BuildCacheKey(digest, req2, headers2)
  {
  }
}
