/**
 * The serialised form of a cached response. The source writes
 * `JSON.stringify({statusCode, payload})` and reads it back with
 * `JSON.parse` (index.js:65, 91-94). JSON itself is not modelled: this
 * module stands in a small text format, the decimal status code, a ':' and
 * the payload, whose round trip is proved rather than assumed.
 */
module Serial {
  import opened Wrappers

  /** The `{statusCode, payload}` record that onSend stores and onRequest replays. */
  datatype CachedResponse = CachedResponse(statusCode: nat, payload: string)

  const SEPARATOR: char := ':'

  predicate IsDigit(c: char)
  {
    '0' <= c <= '9'
  }

  predicate AllDigits(s: string)
  {
    forall i :: 0 <= i < |s| ==> IsDigit(s[i])
  }

  /** The decimal numeral of `n`, most significant digit first. */
  function Decimal(n: nat): (s: string)
    ensures |s| > 0 && AllDigits(s)
    decreases n
  {
    if n < 10 then [('0' as int + n) as char]
    else Decimal(n / 10) + [('0' as int + n % 10) as char]
  }

  /** The number a string of digits denotes. */
  function DecimalValue(s: string): nat
    requires AllDigits(s)
    decreases |s|
  {
    if s == [] then 0
    else DecimalValue(s[..|s| - 1]) * 10 + (s[|s| - 1] as int - '0' as int)
  }

  lemma {:induction false} DecimalRoundTrip(n: nat)
    ensures DecimalValue(Decimal(n)) == n
    decreases n
  {
    if n >= 10 {
      DecimalRoundTrip(n / 10);
      var s := Decimal(n);
      assert s[..|s| - 1] == Decimal(n / 10);
    }
  }

  /** The index of the first `c` in `s`, or |s| when there is none. */
  function Find(s: string, c: char): (i: nat)
    ensures i <= |s|
    ensures i < |s| ==> s[i] == c
    ensures forall j :: 0 <= j < i ==> s[j] != c
    decreases |s|
  {
    if s == [] then 0
    else if s[0] == c then 0
    else 1 + Find(s[1..], c)
  }

  /** Stand-in for `JSON.stringify({statusCode, payload})`. */
  function Stringify(r: CachedResponse): (s: string)
    ensures |s| > |r.payload| && s[|s| - |r.payload|..] == r.payload
    ensures SEPARATOR in s
  {
    Decimal(r.statusCode) + [SEPARATOR] + r.payload
  }

  /** Counterpart of `JSON.parse`: None where the stand-in format does not parse,
      the counterpart of `JSON.parse` throwing. */
  function Parse(s: string): (r: Option<CachedResponse>)
    ensures SEPARATOR !in s ==> r.None?
    ensures r.Some? ==> |r.value.payload| < |s| && s[|s| - |r.value.payload|..] == r.value.payload
  {
    var i := Find(s, SEPARATOR);
    if i == |s| || i == 0 || !AllDigits(s[..i]) then None
    else Some(CachedResponse(DecimalValue(s[..i]), s[i + 1..]))
  }

  /** Parsing what was stringified gives back the same status code and payload. */
  lemma ParseStringify(r: CachedResponse)
    ensures Parse(Stringify(r)) == Some(r)
  {
    var digits := Decimal(r.statusCode);
    var s := Stringify(r);
    assert s[|digits|] == SEPARATOR;
    var i := Find(s, SEPARATOR);
    assert i == |digits|;
    assert s[..i] == digits;
    assert s[i + 1..] == r.payload;
    DecimalRoundTrip(r.statusCode);
  }

  /** A stored response is never the empty string, which JavaScript would read as "no value". */
  lemma StringifyNotEmpty(r: CachedResponse)
    ensures Stringify(r) != ""
  {
    assert |Stringify(r)| >= 1;
  }
}
