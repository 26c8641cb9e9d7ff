/** The fixed-window limiter (internal/ratelimit/limiter.go). Times are integers on one clock. */
module RateLimit {

  import opened OrderModel

  /** A missing bucket is the zero bucket of the source: its reset time is the zero time. */
  datatype Bucket = Bucket(count: nat, reset: int)

  function Charge(current: Option<Bucket>, window: int, now: int): (b: Bucket) {
    if current.None? || now >= current.value.reset then Bucket(1, now + window)
    else current.value.(count := current.value.count + 1)
  }

  predicate Passes(b: Bucket, limit: int) {
    b.count <= limit
  }

  class MemoryLimiter {
    const limit: int
    const window: int
    var buckets: map<string, Bucket>

    constructor (limit: int, window: int)
      ensures this.limit == limit && this.window == window && buckets == map[]
    {
      this.limit, this.window := limit, window;
      buckets := map[];
    }

    /** The bucket of a key. */
    function At(key: string): (b: Option<Bucket>)
      reads this
    {
      if key in buckets then Some(buckets[key]) else None
    }

    /** One call; only the key's own bucket is read or written. */
    method Allow(key: string, now: int) returns (allowed: bool)
      modifies this
      ensures At(key) == Some(Charge(old(At(key)), window, now))
      ensures forall k :: k != key ==> At(k) == old(At(k))
      ensures allowed == Passes(At(key).value, limit)
    {
      var current := Bucket(0, now);
      if key in buckets {
        current := buckets[key];
      }
      if key !in buckets || !(now < current.reset) {
        current := Bucket(0, now + window);
      }
      current := current.(count := current.count + 1);
      buckets := buckets[key := current];
      allowed := current.count <= limit;
    }
  }

  // ------------------------------------------------------------ one key, any trace

  /** The bucket after the first `n` calls. */
  function After(times: seq<int>, window: int, n: nat): (b: Option<Bucket>)
    requires n <= |times|
  {
    if n == 0 then None else Some(Charge(After(times, window, n - 1), window, times[n - 1]))
  }

  predicate Allowed(times: seq<int>, window: int, limit: int, i: nat)
    requires i < |times|
  {
    Passes(After(times, window, i + 1).value, limit)
  }

  /** How many of the first `n` calls were allowed at a time in [from, from + window). */
  function AllowedWithin(times: seq<int>, window: int, limit: int, from: int, n: nat): (c: nat)
    requires n <= |times|
  {
    if n == 0 then 0
    else
      var counts := from <= times[n - 1] < from + window && Allowed(times, window, limit, n - 1);
      AllowedWithin(times, window, limit, from, n - 1) + (if counts then 1 else 0)
  }

  ghost predicate Ordered(times: seq<int>) {
    forall i, j :: 0 <= i < j < |times| ==> times[i] <= times[j]
  }

  function Min(a: int, b: int): (r: int) {
    if a < b then a else b
  }

  /** What the first `n` calls can have passed, by where the current bucket starts. */
  ghost predicate Paid(times: seq<int>, window: int, limit: int, from: int, n: nat)
    requires n <= |times|
  {
    var passed := AllowedWithin(times, window, limit, from, n);
    match After(times, window, n)
    case None => passed == 0
    case Some(b) =>
      var start := b.reset - window;
      && b.count >= 1
      && start <= times[n - 1] < b.reset
      && (if b.reset <= from then passed == 0
          else if start < from then passed <= Min(b.count, limit) - 1 || passed == 0
          else if start < from + window then passed <= Min(b.count, limit) + (if limit > 0 then limit - 1 else 0)
          else passed <= 2 * limit - 1 || passed == 0)
  }

  lemma {:induction false} PaidHolds(times: seq<int>, window: int, limit: int, from: int, n: nat)
    requires window > 0 && limit >= 0 && Ordered(times) && n <= |times|
    ensures n > 0 ==> After(times, window, n).Some?
    ensures Paid(times, window, limit, from, n)
  {
    if n > 0 {
      PaidHolds(times, window, limit, from, n - 1);
      if n > 1 {
        assert times[n - 2] <= times[n - 1];
      }
    }
  }

  /** With a non-decreasing clock any window-long interval holds at most 2 * limit - 1 allowed calls of
      a key, and none if the limit is zero. */
  lemma IntervalBound(times: seq<int>, window: int, limit: int, from: int)
    requires window > 0 && limit >= 0 && Ordered(times)
    ensures AllowedWithin(times, window, limit, from, |times|) <= if limit == 0 then 0 else 2 * limit - 1
  {
    PaidHolds(times, window, limit, from, |times|);
  }

  /** One call opens a bucket, the rest of the limit follows just before it resets, and a whole new
      limit right after. */
  function Burst(limit: nat): (times: seq<int>)
    ensures |times| == 2 * limit
  {
    seq(2 * limit, i => if i == 0 then 0 else if i < limit then 1 else 2)
  }

  lemma {:induction false} BurstPasses(limit: nat, n: nat)
    requires 1 <= n <= 2 * limit
    ensures After(Burst(limit), 2, n) == Some(if n <= limit then Bucket(n, 2) else Bucket(n - limit, 4))
    ensures AllowedWithin(Burst(limit), 2, limit, 1, n) == n - 1
  {
    if n > 1 {
      BurstPasses(limit, n - 1);
    }
  }

  /** The bound is reached, for every positive limit. */
  lemma IntervalBoundIsReached(limit: nat)
    requires limit > 0
    ensures Ordered(Burst(limit))
    ensures AllowedWithin(Burst(limit), 2, limit, 1, 2 * limit) == 2 * limit - 1
  {
    BurstPasses(limit, 2 * limit);
  }

  // ------------------------------------------------------------ many keys

  datatype Hit = Hit(key: string, at: int)

  function Serve(buckets: map<string, Bucket>, window: int, hits: seq<Hit>): (r: map<string, Bucket>) {
    if |hits| == 0 then buckets
    else
      var before := Serve(buckets, window, hits[..|hits| - 1]);
      var hit := hits[|hits| - 1];
      before[hit.key := Charge(if hit.key in before then Some(before[hit.key]) else None, window, hit.at)]
  }

  function TimesOf(hits: seq<Hit>, key: string): (times: seq<int>) {
    if |hits| == 0 then []
    else if hits[|hits| - 1].key == key then TimesOf(hits[..|hits| - 1], key) + [hits[|hits| - 1].at]
    else TimesOf(hits[..|hits| - 1], key)
  }

  lemma {:induction false} AfterPrefix(times: seq<int>, more: seq<int>, window: int, n: nat)
    requires n <= |times|
    ensures After(times + more, window, n) == After(times, window, n)
  {
    if n > 0 {
      AfterPrefix(times, more, window, n - 1);
    }
  }

  /** Keys do not affect each other: a key's bucket is what its own calls alone make it. */
  lemma {:induction false} KeysAreIndependent(hits: seq<Hit>, window: int, key: string)
    ensures var served := Serve(map[], window, hits);
      (if key in served then Some(served[key]) else None) == After(TimesOf(hits, key), window, |TimesOf(hits, key)|)
  {
    if |hits| > 0 {
      var front, hit := hits[..|hits| - 1], hits[|hits| - 1];
      KeysAreIndependent(front, window, key);
      if hit.key == key {
        var times := TimesOf(front, key);
        AfterPrefix(times, [hit.at], window, |times|);
        assert TimesOf(hits, key) == times + [hit.at];
      }
    }
  }
}
