/**
 * The bounded polling wait `waitForCacheFulfilled` (index.js:11, 32-47).
 * The store is read once; then, until a read yields a value, the loop
 * sleeps INTERVAL milliseconds, reads again and adds INTERVAL to the time
 * waited, giving up once that time exceeds the timeout.
 *
 * What other requests write under the same key while a request waits is
 * an input: `others(n)` is the write (if any) that lands during the n-th
 * delay, applied just before the read that ends that delay.
 */
module Polling {
  import opened Wrappers
  import opened TtlStore

  const INTERVAL: nat := 200

  /** A write another request makes while this one sleeps. */
  datatype Landing = Landing(value: string, ttl: int)

  /** What the wait resolved to, and how many delays it slept through. */
  datatype Waited = Waited(cached: Option<string>, delays: nat)

  /** JavaScript truthiness of what `cache.get` resolved to: `undefined` and "" are falsy. */
  predicate Truthy(o: Option<string>)
    ensures o == None || o == Some("") ==> !Truthy(o)
    ensures Truthy(o) ==> |o.value| > 0
  {
    o.Some? && o.value != ""
  }

  /** The most delays a wait with this timeout can take: it gives up after the
      first delay that brings the time waited above the timeout. */
  function MaxDelays(timeout: int): (n: nat)
    ensures n >= 1 && INTERVAL * n > timeout
    ensures n > 1 ==> INTERVAL * (n - 1) <= timeout
  {
    if timeout >= 0 then timeout / INTERVAL + 1 else 1
  }

  /** A wait that gives up has slept past the timeout by at least 1 and at most
      INTERVAL milliseconds; with the default ttl of 1000 it sleeps six delays, 1200 ms. */
  lemma MaxDelaysOvershoot(timeout: int)
    ensures timeout >= 0 ==> 0 < INTERVAL * MaxDelays(timeout) - timeout <= INTERVAL
    ensures timeout % INTERVAL == 0 && timeout >= 0 ==> INTERVAL * MaxDelays(timeout) - timeout == INTERVAL
    ensures MaxDelays(1000) == 6 && INTERVAL * MaxDelays(1000) == 1200
  {
  }

  /** A delay count whose waited time is within the timeout is below the bound. */
  lemma BelowMaxDelays(timeout: int, d: nat)
    requires INTERVAL * d <= timeout
    ensures d < MaxDelays(timeout)
  {
  }

  /**
   * The specification of the loop: `seen(0)` is the read before the loop
   * and `seen(k)` the read after the k-th delay.
   */
  function Poll(seen: nat -> Option<string>, timeout: int): (w: Waited)
    ensures w.cached.Some? ==> Truthy(w.cached) && w.cached == seen(w.delays)
    ensures w.cached.None? ==> w.delays >= 1 && INTERVAL * w.delays > timeout
  {
    if Truthy(seen(0)) then Waited(seen(0), 0) else PollFrom(seen, timeout, 1)
  }

  /** The loop from its k-th iteration on, all earlier reads having been falsy. */
  function PollFrom(seen: nat -> Option<string>, timeout: int, k: nat): (w: Waited)
    requires k >= 1
    ensures w.delays >= k
    ensures w.cached.Some? ==> Truthy(w.cached) && w.cached == seen(w.delays)
    ensures w.cached.None? ==> INTERVAL * w.delays > timeout
    decreases if timeout + INTERVAL >= INTERVAL * k then timeout + INTERVAL - INTERVAL * k else 0
  {
    if Truthy(seen(k)) then Waited(seen(k), k)
    else if INTERVAL * k > timeout then Waited(None, k)
    else PollFrom(seen, timeout, k + 1)
  }

  /** After the k-th read the loop ends with that read's value, gives up, or
      goes round again, in which case it has not used up its delays. */
  lemma PollFromStep(seen: nat -> Option<string>, timeout: int, k: nat)
    requires k >= 1
    ensures Truthy(seen(k)) ==> PollFrom(seen, timeout, k) == Waited(seen(k), k)
    ensures !Truthy(seen(k)) && INTERVAL * k > timeout ==> PollFrom(seen, timeout, k) == Waited(None, k)
    ensures !Truthy(seen(k)) && INTERVAL * k <= timeout ==>
              PollFrom(seen, timeout, k) == PollFrom(seen, timeout, k + 1) && k < MaxDelays(timeout)
  {
    if INTERVAL * k <= timeout {
      BelowMaxDelays(timeout, k);
    }
  }

  /** The store's entries after the writes that landed during the first k delays. */
  function EntriesAfter(entries: Entries, start: int, key: string, others: nat -> Option<Landing>, k: nat): Entries
  {
    if k == 0 then entries
    else
      var before := EntriesAfter(entries, start, key, others, k - 1);
      match others(k)
      case None => before
      case Some(w) => Put(before, start + INTERVAL * k, key, w.value, w.ttl)
  }

  /** What the read after the k-th delay sees, when the wait starts at time `start` on `entries`. */
  function ReadAt(entries: Entries, start: int, key: string, others: nat -> Option<Landing>, k: nat): Option<string>
  {
    Lookup(EntriesAfter(entries, start, key, others, k), start + INTERVAL * k, key)
  }

  /** All the reads of one wait. */
  function Observed(entries: Entries, start: int, key: string, others: nat -> Option<Landing>): nat -> Option<string>
  {
    (k: nat) => ReadAt(entries, start, key, others, k)
  }

  /** While nothing lands, the store's entries stay as they were. */
  lemma {:induction false} EntriesAfterQuiet(entries: Entries, start: int, key: string, others: nat -> Option<Landing>, k: nat)
    requires forall j :: 1 <= j <= k ==> others(j).None?
    ensures EntriesAfter(entries, start, key, others, k) == entries
  {
    if k > 0 {
      EntriesAfterQuiet(entries, start, key, others, k - 1);
    }
  }

  lemma ObservedAt(entries: Entries, start: int, key: string, others: nat -> Option<Landing>, k: nat)
    ensures Observed(entries, start, key, others)(k)
         == Lookup(EntriesAfter(entries, start, key, others, k), start + INTERVAL * k, key)
  {
  }

  lemma {:induction false} PollFromWithinBound(seen: nat -> Option<string>, timeout: int, k: nat)
    requires 1 <= k <= MaxDelays(timeout)
    ensures k <= PollFrom(seen, timeout, k).delays <= MaxDelays(timeout)
    decreases if timeout + INTERVAL >= INTERVAL * k then timeout + INTERVAL - INTERVAL * k else 0
  {
    if !Truthy(seen(k)) && INTERVAL * k <= timeout {
      PollFromWithinBound(seen, timeout, k + 1);
    }
  }

  /** The wait terminates for every timeout: at most timeout / INTERVAL + 1
      delays when the timeout is not negative, at most one otherwise. */
  lemma PollWithinBound(seen: nat -> Option<string>, timeout: int)
    ensures Poll(seen, timeout).delays <= MaxDelays(timeout)
    ensures timeout >= 0 ==> Poll(seen, timeout).delays <= timeout / INTERVAL + 1
    ensures timeout < 0 ==> Poll(seen, timeout).delays <= 1
  {
    if !Truthy(seen(0)) {
      PollFromWithinBound(seen, timeout, 1);
    }
  }

  lemma {:induction false} PollFromFirstTruthy(seen: nat -> Option<string>, timeout: int, k: nat)
    requires k >= 1
    requires forall j :: 0 <= j < k ==> !Truthy(seen(j))
    requires k == 1 || INTERVAL * (k - 1) <= timeout
    ensures var w := PollFrom(seen, timeout, k);
            && (w.cached.Some? <==> Truthy(seen(w.delays)))
            && (w.cached.Some? ==> w.cached == seen(w.delays))
            && (w.cached.None? ==> w.delays == MaxDelays(timeout))
            && (forall j :: 0 <= j < w.delays ==> !Truthy(seen(j)))
    decreases if timeout + INTERVAL >= INTERVAL * k then timeout + INTERVAL - INTERVAL * k else 0
  {
    if !Truthy(seen(k)) && INTERVAL * k <= timeout {
      PollFromFirstTruthy(seen, timeout, k + 1);
    }
  }

  /**
   * The wait yields a value exactly when one of the reads it made saw one,
   * that value is the one its last (and first successful) read saw, and it
   * yields nothing only after the time waited has exceeded the timeout.
   */
  lemma PollReturnsFirstTruthyRead(seen: nat -> Option<string>, timeout: int)
    ensures var w := Poll(seen, timeout);
            && (w.cached.Some? <==> exists k :: 0 <= k <= w.delays && Truthy(seen(k)))
            && (w.cached.Some? ==> w.cached == seen(w.delays))
            && (forall j :: 0 <= j < w.delays ==> !Truthy(seen(j)))
            && (w.cached.None? ==> w.delays == MaxDelays(timeout) && INTERVAL * w.delays > timeout)
            && (Truthy(seen(0)) ==> w.delays == 0)
  {
    if !Truthy(seen(0)) {
      PollFromFirstTruthy(seen, timeout, 1);
    }
  }

  lemma {:induction false} PollFromFinds(seen: nat -> Option<string>, timeout: int, k: nat, m: nat)
    requires 1 <= k <= m
    requires forall j :: k <= j < m ==> !Truthy(seen(j))
    requires Truthy(seen(m))
    requires INTERVAL * (m - 1) <= timeout
    ensures PollFrom(seen, timeout, k) == Waited(seen(m), m)
    decreases m - k
  {
    if k < m {
      PollFromFinds(seen, timeout, k + 1, m);
    }
  }

  /** A value that the m-th read sees, before the wait could have given up and
      after m falsy reads, is what the wait yields, after exactly m delays. */
  lemma PollFindsValueInTime(seen: nat -> Option<string>, timeout: int, m: nat)
    requires forall j :: 0 <= j < m ==> !Truthy(seen(j))
    requires Truthy(seen(m))
    requires m == 0 || INTERVAL * (m - 1) <= timeout
    ensures Poll(seen, timeout) == Waited(seen(m), m)
  {
    if m > 0 {
      PollFromFinds(seen, timeout, 1, m);
    }
  }

  lemma {:induction false} PollFromGivesUp(seen: nat -> Option<string>, timeout: int, k: nat)
    requires 1 <= k <= MaxDelays(timeout)
    requires forall j :: k <= j <= MaxDelays(timeout) ==> !Truthy(seen(j))
    ensures PollFrom(seen, timeout, k) == Waited(None, MaxDelays(timeout))
    decreases MaxDelays(timeout) - k
  {
    if k < MaxDelays(timeout) {
      PollFromGivesUp(seen, timeout, k + 1);
    }
  }

  /** When no read up to the last one the timeout allows sees a value, the wait
      yields nothing after MaxDelays(timeout) delays. */
  lemma PollGivesUp(seen: nat -> Option<string>, timeout: int)
    requires forall j :: 0 <= j <= MaxDelays(timeout) ==> !Truthy(seen(j))
    ensures Poll(seen, timeout) == Waited(None, MaxDelays(timeout))
  {
    PollFromGivesUp(seen, timeout, 1);
  }

  /** The k+1-th round of the loop's waiting, on a wait that started at `start`
      on `entries0`: `BPromise.delay(INTERVAL)`, during which another request's
      onSend may store under `key`, then `cache.get(key)`. */
  method SleepThenGet(cache: Keyv, key: string, others: nat -> Option<Landing>, ghost entries0: Entries, ghost start: int, k: nat)
    returns (r: Option<string>)
    requires cache.now == start + INTERVAL * k
    requires cache.entries == EntriesAfter(entries0, start, key, others, k)
    modifies cache
    ensures cache.now == start + INTERVAL * (k + 1)
    ensures cache.entries == EntriesAfter(entries0, start, key, others, k + 1)
    ensures r == Observed(entries0, start, key, others)(k + 1)
  {
    cache.Advance(INTERVAL);
    match others(k + 1) {
      case Some(w) => cache.Set(key, w.value, w.ttl);
      case None =>
    }
    r := cache.Get(key);
    ObservedAt(entries0, start, key, others, k + 1);
  }

  /**
   * `waitForCacheFulfilled(key, timeout)` on the store `cache`; between its
   * delays the writes of `others` land. `delays` counts the delays slept.
   */
  method WaitForCacheFulfilled(cache: Keyv, key: string, timeout: int, others: nat -> Option<Landing>)
    returns (cached: Option<string>, delays: nat)
    modifies cache
    ensures Waited(cached, delays) == Poll(Observed(old(cache.entries), old(cache.now), key, others), timeout)
    ensures cache.now == old(cache.now) + INTERVAL * delays
    ensures cache.entries == EntriesAfter(old(cache.entries), old(cache.now), key, others, delays)
  {
    ghost var entries0, start := cache.entries, cache.now;
    ghost var seen := Observed(entries0, start, key, others);
    var cachedString := cache.Get(key);
    ObservedAt(entries0, start, key, others, 0);
    var waitedFor := 0;
    delays := 0;
    while !Truthy(cachedString)
      invariant waitedFor == INTERVAL * delays
      invariant cache.now == start + INTERVAL * delays
      invariant cache.entries == EntriesAfter(entries0, start, key, others, delays)
      invariant cachedString == seen(delays)
      invariant !Truthy(cachedString) ==> Poll(seen, timeout) == PollFrom(seen, timeout, delays + 1)
      invariant !Truthy(cachedString) ==> delays < MaxDelays(timeout)
      invariant Truthy(cachedString) ==> Poll(seen, timeout) == Waited(cachedString, delays)
      decreases MaxDelays(timeout) - delays
    {
      cachedString := SleepThenGet(cache, key, others, entries0, start, delays);
      PollFromStep(seen, timeout, delays + 1);
      waitedFor := waitedFor + INTERVAL;
      delays := delays + 1;
      if !Truthy(cachedString) && waitedFor > timeout {
        return None, delays;
      }
    }
    cached := cachedString;
  }
}
