/** The in-memory token-bucket store: what one call does to one bucket, and the
    store object whose methods are proved against those per-bucket functions.

    Durations and instants are whole nanoseconds; float64 is idealised as `real`. */
module TokenBucket {
  import opened Common

  function Seconds(d: int): real {
    d as real / 1_000_000_000.0
  }

  datatype Limit = Limit(requests: int, window: int, burst: int) {

    function RequestsPerSecond(): real {
      if window == 0 then 0.0 else requests as real / Seconds(window)
    }

    function EffectiveBurst(): int {
      if burst > 0 then burst else requests
    }

    /** Tokens accrued over `elapsed` nanoseconds, before capping. */
    function Gain(elapsed: int): real {
      Seconds(elapsed) * RequestsPerSecond()
    }

    /** What configuration loading guarantees: nothing negative. */
    predicate Sane() {
      requests >= 0 && window >= 0
    }
  }

  /** How long to wait; `Unbounded` is the division by a zero refill rate. */
  datatype Wait = NoWait | After(nanos: int) | Unbounded

  datatype Result = Result(allowed: bool, remaining: int, resetAt: int, retryAfter: Wait, limit: Limit)

  datatype Bucket = Bucket(tokens: real, lastUpdate: int, limit: Limit)

  type Buckets = map<string, Bucket>

  function Min(a: real, b: real): real {
    if a < b then a else b
  }

  /** Conversion of a float to an integer: truncation toward zero. */
  function Trunc(x: real): int {
    if x >= 0.0 then x.Floor else -((-x).Floor)
  }

  function Find(m: Buckets, key: string): Option<Bucket> {
    if key in m then Some(m[key]) else None
  }

  function Refill(tokens: real, elapsed: int, limit: Limit): real {
    Min(limit.EffectiveBurst() as real, tokens + limit.Gain(elapsed))
  }

  /** The balance a call at `now` sees: an absent bucket counts as full. */
  function Level(b: Option<Bucket>, limit: Limit, now: int): real {
    match b
    case None => limit.EffectiveBurst() as real
    case Some(k) => Refill(k.tokens, now - k.lastUpdate, limit)
  }

  function RetryAfter(needed: real, limit: Limit): Wait {
    var rate := limit.RequestsPerSecond();
    if rate == 0.0 then Unbounded else After(Trunc(needed / rate * 1_000_000_000.0))
  }

  function TakeResult(level: real, limit: Limit, n: int, now: int): Result {
    if level >= n as real
    then Result(true, Trunc(level - n as real), now + limit.window, NoWait, limit)
    else Result(false, Trunc(level), now + limit.window, RetryAfter(n as real - level, limit), limit)
  }

  function TakeBuckets(m: Buckets, key: string, limit: Limit, n: int, now: int): (Buckets, Result) {
    var level := Level(Find(m, key), limit, now);
    var after := if level >= n as real then level - n as real else level;
    var owner := if key in m then m[key].limit else limit;
    (m[key := Bucket(after, now, owner)], TakeResult(level, limit, n, now))
  }

  function PeekResult(b: Option<Bucket>, limit: Limit, now: int): Result {
    match b
    case None => Result(true, limit.EffectiveBurst(), now + limit.window, NoWait, limit)
    case Some(_) =>
      var level := Level(b, limit, now);
      Result(level >= 1.0, Trunc(level), now + limit.window, NoWait, limit)
  }

  /** The test under which the cleanup pass forgets a bucket. */
  predicate Stale(b: Bucket, now: int, interval: int) {
    && now - b.lastUpdate > interval * 2
    && b.limit.RequestsPerSecond() > 0.0
    && b.tokens + b.limit.Gain(now - b.lastUpdate) >= b.limit.EffectiveBurst() as real
  }

  function Cleaned(m: Buckets, now: int, interval: int): Buckets {
    map k | k in m && !Stale(m[k], now, interval) :: m[k]
  }

  class MemoryStore {
    var buckets: Buckets
    const cleanupInterval: int

    constructor (interval: int)
      ensures buckets == map[] && cleanupInterval == interval
    {
      buckets := map[];
      cleanupInterval := interval;
    }

    /** `cancelled` is a context that has already ended: nothing happens and no result is given. */
    method Take(cancelled: bool, now: int, key: string, limit: Limit, n: int) returns (r: Option<Result>)
      modifies this
      ensures cancelled ==> r.None? && buckets == old(buckets)
      ensures !cancelled ==> r.Some? && (buckets, r.value) == TakeBuckets(old(buckets), key, limit, n, now)
    {
      if cancelled {
        return None;
      }
      assert limit.Gain(0) == 0.0;
      if key !in buckets {
        buckets := buckets[key := Bucket(limit.EffectiveBurst() as real, now, limit)];
      }
      var b := buckets[key];
      var newTokens := limit.Gain(now - b.lastUpdate);
      b := b.(tokens := Min(limit.EffectiveBurst() as real, b.tokens + newTokens), lastUpdate := now);
      if b.tokens >= n as real {
        b := b.(tokens := b.tokens - n as real);
        r := Some(Result(true, Trunc(b.tokens), now + limit.window, NoWait, limit));
      } else {
        r := Some(Result(false, Trunc(b.tokens), now + limit.window,
                         RetryAfter(n as real - b.tokens, limit), limit));
      }
      buckets := buckets[key := b];
      assert buckets == old(buckets)[key := b];
    }

    method Peek(cancelled: bool, now: int, key: string, limit: Limit) returns (r: Option<Result>)
      ensures cancelled ==> r.None?
      ensures !cancelled ==> r == Some(PeekResult(Find(buckets, key), limit, now))
    {
      if cancelled {
        return None;
      }
      if key !in buckets {
        return Some(Result(true, limit.EffectiveBurst(), now + limit.window, NoWait, limit));
      }
      var b := buckets[key];
      var newTokens := limit.Gain(now - b.lastUpdate);
      var current := Min(limit.EffectiveBurst() as real, b.tokens + newTokens);
      r := Some(Result(current >= 1.0, Trunc(current), now + limit.window, NoWait, limit));
    }

    method Reset(cancelled: bool, key: string)
      modifies this
      ensures buckets == if cancelled then old(buckets) else old(buckets) - {key}
    {
      if !cancelled {
        buckets := buckets - {key};
      }
    }

    /** One background pass, visiting the keys in an arbitrary order. */
    method Cleanup(now: int)
      modifies this
      ensures buckets == Cleaned(old(buckets), now, cleanupInterval)
    {
      var todo := buckets.Keys;
      while todo != {}
        invariant todo <= buckets.Keys <= old(buckets).Keys
        invariant forall k :: k in buckets ==> buckets[k] == old(buckets)[k]
        invariant forall k :: k in old(buckets) && k !in todo ==>
                                (k in buckets <==> !Stale(old(buckets)[k], now, cleanupInterval))
        decreases |todo|
      {
        var key :| key in todo;
        todo := todo - {key};
        var b := buckets[key];
        var elapsed := now - b.lastUpdate;
        if elapsed > cleanupInterval * 2 {
          if b.limit.RequestsPerSecond() > 0.0 {
            if b.tokens + b.limit.Gain(elapsed) >= b.limit.EffectiveBurst() as real {
              buckets := buckets - {key};
            }
          }
        }
      }
    }
  }
}
