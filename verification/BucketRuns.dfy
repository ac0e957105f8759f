/** Whole runs of the in-memory bucket store: the rate bound, the exactness of
    retry-after, and the fact that forgetting buckets cannot be observed. */
module BucketRuns {
  import opened Common
  import opened TokenBucket

  /** One call on the store, or one cleanup pass. `Expire` is an action of the
      Redis server; the memory store has no such action and ignores it. */
  datatype Op =
    | Take(key: string, n: int, now: int)
    | Peek(key: string, now: int)
    | Reset(key: string, now: int)
    | Cleanup(now: int)
    | Expire(key: string, now: int)

  /** One fixed limit for each storage key. */
  type Limits = string -> Limit

  /** `forgetful` says whether cleanup passes really happen. */
  function Step(m: Buckets, op: Op, limits: Limits, interval: int, forgetful: bool): (Buckets, Option<Result>) {
    match op
    case Take(key, n, now) =>
      var (m', r) := TakeBuckets(m, key, limits(key), n, now); (m', Some(r))
    case Peek(key, now) => (m, Some(PeekResult(Find(m, key), limits(key), now)))
    case Reset(key, _) => (m - {key}, None)
    case Cleanup(now) => (if forgetful then Cleaned(m, now, interval) else m, None)
    case Expire(_, _) => (m, None)
  }

  function Run(m: Buckets, ops: seq<Op>, limits: Limits, interval: int, forgetful: bool)
    : (r: (Buckets, seq<Option<Result>>))
    ensures |r.1| == |ops|
    decreases |ops|
  {
    if ops == [] then (m, [])
    else
      var (m1, out) := Step(m, ops[0], limits, interval, forgetful);
      var (m2, outs) := Run(m1, ops[1..], limits, interval, forgetful);
      (m2, [out] + outs)
  }

  /** The clock never runs backwards, starting from `t`. */
  ghost predicate Ordered(ops: seq<Op>, t: int) {
    ops == [] || (t <= ops[0].now && Ordered(ops[1..], ops[0].now))
  }

  ghost function EndTime(ops: seq<Op>, t: int): int {
    if ops == [] then t else ops[|ops| - 1].now
  }

  /** Tokens handed out to `key` by the granted takes of a run. */
  function Granted(ops: seq<Op>, outs: seq<Option<Result>>, key: string): int
    requires |outs| == |ops|
  {
    if ops == [] then 0
    else
      (if ops[0].Take? && ops[0].key == key && outs[0].Some? && outs[0].value.allowed then ops[0].n else 0)
      + Granted(ops[1..], outs[1..], key)
  }

  /** No reset of `key` and no negative request on it. */
  ghost predicate Plain(ops: seq<Op>, key: string) {
    forall i :: 0 <= i < |ops| ==>
      !(ops[i].Reset? && ops[i].key == key) && (ops[i].Take? && ops[i].key == key ==> ops[i].n >= 0)
  }

  ghost predicate SaneLimits(limits: Limits) {
    forall k :: limits(k).Sane()
  }

  /** Every stored bucket carries its key's limit, is not from the future and is not overdrawn. */
  ghost predicate WellFormed(m: Buckets, limits: Limits, t: int) {
    forall k :: k in m ==> m[k].limit == limits(k) && m[k].lastUpdate <= t && m[k].tokens >= 0.0
  }

  // ---------------------------------------------------------------- refill arithmetic

  lemma RateNonNegative(limit: Limit)
    requires limit.Sane()
    ensures limit.RequestsPerSecond() >= 0.0
    ensures limit.RequestsPerSecond() > 0.0 ==> limit.EffectiveBurst() >= 1
  {
    if limit.window != 0 {
      QuotientSign(limit.requests as real, Seconds(limit.window));
    }
  }

  lemma QuotientSign(x: real, y: real)
    requires x >= 0.0 && y > 0.0
    ensures x / y >= 0.0
    ensures x / y > 0.0 ==> x > 0.0
  {
    assert (x / y) * y == x;
  }

  lemma GainNonNegative(limit: Limit, e: int)
    requires limit.Sane() && e >= 0
    ensures limit.Gain(e) >= 0.0
  {
    RateNonNegative(limit);
    ProductSign(Seconds(e), limit.RequestsPerSecond());
  }

  lemma ProductSign(x: real, y: real)
    requires x >= 0.0 && y >= 0.0
    ensures x * y >= 0.0
  {}

  lemma GainAdds(limit: Limit, a: int, b: int)
    ensures limit.Gain(a + b) == limit.Gain(a) + limit.Gain(b)
  {
    assert Seconds(a + b) == Seconds(a) + Seconds(b);
    Distribute(Seconds(a), Seconds(b), limit.RequestsPerSecond());
  }

  lemma Distribute(x: real, y: real, r: real)
    ensures (x + y) * r == x * r + y * r
  {}

  lemma GainZero(limit: Limit)
    ensures limit.Gain(0) == 0.0
  {
    assert Seconds(0) == 0.0;
  }

  /** Capped refill composes over split intervals: looking at a bucket in between changes nothing. */
  lemma LevelAdvances(b: Option<Bucket>, limit: Limit, t: int, now: int)
    requires limit.Sane() && t <= now
    ensures Level(b, limit, now) == Refill(Level(b, limit, t), now - t, limit)
    ensures Level(b, limit, t) <= Level(b, limit, now) <= limit.EffectiveBurst() as real
  {
    GainNonNegative(limit, now - t);
    if b.Some? {
      GainAdds(limit, t - b.value.lastUpdate, now - t);
      assert now - b.value.lastUpdate == (t - b.value.lastUpdate) + (now - t);
    }
  }

  lemma LevelNonNegative(b: Option<Bucket>, limit: Limit, now: int)
    requires limit.Sane()
    requires b.Some? ==> b.value.lastUpdate <= now && b.value.tokens >= 0.0
    ensures 0.0 <= Level(b, limit, now) <= limit.EffectiveBurst() as real
  {
    if b.Some? {
      GainNonNegative(limit, now - b.value.lastUpdate);
    }
  }

  /** A bucket written at `now` has exactly the balance written, up to the cap. */
  lemma LevelWhenWritten(tokens: real, now: int, owner: Limit, limit: Limit)
    ensures Level(Some(Bucket(tokens, now, owner)), limit, now) == Min(limit.EffectiveBurst() as real, tokens)
  {
    GainZero(limit);
  }

  // ---------------------------------------------------------------- one step

  lemma StepWellFormed(m: Buckets, op: Op, limits: Limits, interval: int, forgetful: bool, t: int)
    requires SaneLimits(limits) && WellFormed(m, limits, t) && t <= op.now
    ensures WellFormed(Step(m, op, limits, interval, forgetful).0, limits, op.now)
  {
    if op.Take? {
      assert limits(op.key).Sane();
      LevelNonNegative(Find(m, op.key), limits(op.key), op.now);
    }
  }

  /** A stale bucket is already full, so dropping it leaves its balance as it was. */
  lemma CleanedLevel(m: Buckets, limits: Limits, now: int, interval: int, key: string)
    requires WellFormed(m, limits, now)
    ensures Level(Find(Cleaned(m, now, interval), key), limits(key), now) == Level(Find(m, key), limits(key), now)
  {}

  /** What a step does to the balance of one key: a grant subtracts, nothing else changes it. */
  lemma StepLevel(m: Buckets, op: Op, limits: Limits, interval: int, forgetful: bool, key: string)
    requires WellFormed(m, limits, op.now)
    requires !(op.Reset? && op.key == key) && (op.Take? && op.key == key ==> op.n >= 0)
    ensures var (m', out) := Step(m, op, limits, interval, forgetful);
            Level(Find(m', key), limits(key), op.now)
            == Level(Find(m, key), limits(key), op.now) - Granted([op], [out], key) as real
  {
    var (m', out) := Step(m, op, limits, interval, forgetful);
    assert [op][1..] == [] && [out][1..] == [];
    match op
    case Take(k, n, now) =>
      if k == key {
        var level := Level(Find(m, key), limits(key), now);
        LevelWhenWritten(m'[key].tokens, now, m'[key].limit, limits(key));
        assert level <= limits(key).EffectiveBurst() as real;
      }
    case Cleanup(now) =>
      CleanedLevel(m, limits, now, interval, key);
    case _ =>
  }

  lemma GrantedSplit(op: Op, ops: seq<Op>, out: Option<Result>, outs: seq<Option<Result>>, key: string)
    requires |outs| == |ops|
    ensures Granted([op] + ops, [out] + outs, key) == Granted([op], [out], key) + Granted(ops, outs, key)
  {
    assert ([op] + ops)[1..] == ops && ([out] + outs)[1..] == outs;
    assert [op][1..] == [] && [out][1..] == [];
  }

  // ---------------------------------------------------------------- whole runs

  /** The invariant of every reachable state. */
  lemma {:induction false} RunWellFormed(m: Buckets, ops: seq<Op>, limits: Limits, interval: int, forgetful: bool,
                                         t: int)
    requires SaneLimits(limits) && WellFormed(m, limits, t) && Ordered(ops, t)
    ensures WellFormed(Run(m, ops, limits, interval, forgetful).0, limits, EndTime(ops, t))
    ensures t <= EndTime(ops, t)
    decreases |ops|
  {
    if ops != [] {
      StepWellFormed(m, ops[0], limits, interval, forgetful, t);
      RunWellFormed(Step(m, ops[0], limits, interval, forgetful).0, ops[1..], limits, interval, forgetful, ops[0].now);
    }
  }

  /** Tokens granted plus the balance left are bounded by the balance before plus what
      time brought in; with nothing granted the balance is the capped refill exactly. */
  lemma {:induction false} RunPotential(m: Buckets, ops: seq<Op>, limits: Limits, interval: int, forgetful: bool,
                                        t: int, key: string)
    requires SaneLimits(limits) && WellFormed(m, limits, t) && Ordered(ops, t) && Plain(ops, key)
    ensures t <= EndTime(ops, t)
    ensures var (m', outs) := Run(m, ops, limits, interval, forgetful);
            var limit, tEnd := limits(key), EndTime(ops, t);
            && Granted(ops, outs, key) >= 0
            && Granted(ops, outs, key) as real + Level(Find(m', key), limit, tEnd)
               <= Level(Find(m, key), limit, t) + limit.Gain(tEnd - t)
            && (Granted(ops, outs, key) == 0 ==>
                  Level(Find(m', key), limit, tEnd) == Refill(Level(Find(m, key), limit, t), tEnd - t, limit))
    decreases |ops|
  {
    hide Level, TakeBuckets, Step;
    var limit := limits(key);
    if ops == [] {
      GainZero(limit);
      LevelAdvances(Find(m, key), limit, t, t);
    } else {
      var op, rest := ops[0], ops[1..];
      var (m1, out) := Step(m, op, limits, interval, forgetful);
      var (m2, outs) := Run(m1, rest, limits, interval, forgetful);
      assert ops == [op] + rest;
      assert Plain(rest, key);
      StepWellFormed(m, op, limits, interval, forgetful, t);
      LevelAdvances(Find(m, key), limit, t, op.now);
      StepLevel(m, op, limits, interval, forgetful, key);
      RunPotential(m1, rest, limits, interval, forgetful, op.now, key);
      GrantedSplit(op, rest, out, outs, key);
      assert [op][1..] == [] && [out][1..] == [];
      var tEnd := EndTime(ops, t);
      assert tEnd == EndTime(rest, op.now);
      GainAdds(limit, op.now - t, tEnd - op.now);
      GainNonNegative(limit, op.now - t);
      GainNonNegative(limit, tEnd - op.now);
    }
  }

  /** Tokens that a limit allows in a span of time: the configured burst (or, without one, the requests of
      a window) plus `requests` for each `window`. */
  ghost predicate WithinRate(tokens: int, limit: Limit, elapsed: int) {
    var spare := tokens - if limit.burst > 0 then limit.burst else limit.requests;
    (limit.window == 0 ==> spare <= 0) && spare * limit.window <= limit.requests * elapsed
  }

  lemma WithinRateLess(fewer: int, tokens: int, limit: Limit, elapsed: int)
    requires fewer <= tokens && WithinRate(tokens, limit, elapsed) && limit.window >= 0
    ensures WithinRate(fewer, limit, elapsed)
  {
    var cap := if limit.burst > 0 then limit.burst else limit.requests;
    assert (fewer - cap) * limit.window <= (tokens - cap) * limit.window;
  }

  /** Rate bound: from any well-formed (so any reachable) state, whatever happens on this and other
      keys, the tokens granted to a key between the first and last instant of a stretch of the run are
      at most what the limit allows for that time. */
  lemma RateBound(m: Buckets, during: seq<Op>, limits: Limits, interval: int, key: string)
    requires during != [] && Ordered(during, during[0].now) && Plain(during, key)
    requires SaneLimits(limits) && WellFormed(m, limits, during[0].now)
    ensures var outs := Run(m, during, limits, interval, true).1;
            WithinRate(Granted(during, outs, key), limits(key), during[|during| - 1].now - during[0].now)
  {
    var start := during[0].now;
    var limit := limits(key);
    assert limit.Sane();
    LevelAdvances(Find(m, key), limit, start, start);
    var granted := Granted(during, Run(m, during, limits, interval, true).1, key);
    var elapsed := during[|during| - 1].now - start;
    hide Run, Granted, Level, Refill, Ordered, Plain, WellFormed, SaneLimits;
    RunPotential(m, during, limits, interval, true, start, key);
    RunBalance(m, during, limits, interval, start, key);
    GainInWindows(limit, granted - if limit.burst > 0 then limit.burst else limit.requests, elapsed);
  }

  /** The gain in whole numbers. */
  lemma GainInWindows(limit: Limit, spare: int, elapsed: int)
    requires limit.Sane() && elapsed >= 0 && spare as real <= limit.Gain(elapsed)
    ensures limit.window == 0 ==> spare <= 0
    ensures spare * limit.window <= limit.requests * elapsed
  {
    if limit.window > 0 {
      GainTimesWindow(limit, elapsed);
      MulWeak(spare as real, limit.Gain(elapsed), limit.window as real);
    } else {
      assert limit.RequestsPerSecond() == 0.0;
      assert spare <= 0 && spare * limit.window == 0;
      NatProduct(limit.requests, elapsed);
    }
  }

  lemma NatProduct(a: int, b: int)
    requires a >= 0 && b >= 0
    ensures a * b >= 0
  {}

  lemma GainTimesWindow(limit: Limit, elapsed: int)
    requires limit.window > 0
    ensures limit.Gain(elapsed) * limit.window as real == (limit.requests * elapsed) as real
  {
    var r, w, e := limit.requests as real, limit.window as real, elapsed as real;
    var b := 1_000_000_000.0;
    assert limit.Gain(elapsed) == (e / b) * (r / (w / b));
    Cancel(e, r, w, b);
    assert (limit.requests * elapsed) as real == r * e;
  }

  lemma Cancel(e: real, r: real, w: real, b: real)
    requires w > 0.0 && b > 0.0
    ensures (e / b) * (r / (w / b)) * w == r * e
  {
    var x, y := e / b, r / (w / b);
    assert w / b > 0.0;
    assert x * b == e && (w / b) * b == w && y * (w / b) == r;
    assert x * y * w == x * (y * (w / b)) * b;
  }

  lemma MulWeak(a: real, b: real, r: real)
    requires a <= b && r >= 0.0
    ensures a * r <= b * r
  {}

  /** The balance of a key never leaves [0, burst], at any point of any run. */
  lemma RunBalance(m: Buckets, ops: seq<Op>, limits: Limits, interval: int, t: int, key: string)
    requires SaneLimits(limits) && WellFormed(m, limits, t) && Ordered(ops, t)
    ensures var m' := Run(m, ops, limits, interval, true).0;
            0.0 <= Level(Find(m', key), limits(key), EndTime(ops, t)) <= limits(key).EffectiveBurst() as real
  {
    RunWellFormed(m, ops, limits, interval, true, t);
    assert limits(key).Sane();
    LevelNonNegative(Find(Run(m, ops, limits, interval, true).0, key), limits(key), EndTime(ops, t));
  }

  // ---------------------------------------------------------------- one instant

  /** Takes on one key at one instant. */
  ghost predicate Burst(ops: seq<Op>, key: string, now: int) {
    forall i :: 0 <= i < |ops| ==> ops[i].Take? && ops[i].key == key && ops[i].now == now && ops[i].n >= 0
  }

  lemma {:induction false} BurstSpends(m: Buckets, ops: seq<Op>, limits: Limits, interval: int, key: string, now: int,
                                       i: nat)
    requires Burst(ops, key, now) && SaneLimits(limits) && WellFormed(m, limits, now) && i < |ops|
    ensures var outs := Run(m, ops, limits, interval, true).1;
            && outs[i].Some?
            && (outs[i].value.allowed <==>
                  (Granted(ops[..i], outs[..i], key) + ops[i].n) as real <= Level(Find(m, key), limits(key), now))
    decreases |ops|
  {
    hide Level, TakeResult;
    var op, rest := ops[0], ops[1..];
    var (m1, out) := Step(m, op, limits, interval, true);
    var outs := Run(m, ops, limits, interval, true).1;
    assert outs[1..] == Run(m1, rest, limits, interval, true).1;
    StepLevel(m, op, limits, interval, true, key);
    StepWellFormed(m, op, limits, interval, true, now);
    TakeDecides(m, op, limits(key));
    if i > 0 {
      BurstSpends(m1, rest, limits, interval, key, now, i - 1);
      assert ops[..i] == [op] + rest[..i - 1] && outs[..i] == [out] + outs[1..][..i - 1];
      GrantedSplit(op, rest[..i - 1], out, outs[1..][..i - 1], key);
    }
  }

  lemma TakeDecides(m: Buckets, op: Op, limit: Limit)
    requires op.Take?
    ensures TakeBuckets(m, op.key, limit, op.n, op.now).1.allowed
       <==> op.n as real <= Level(Find(m, op.key), limit, op.now)
  {}

  /** A fresh key's budget at one instant is exactly the configured burst, or without one the requests of
      a window: each take is granted exactly when it fits in what the takes before it have left. */
  lemma InstantBudget(ops: seq<Op>, limits: Limits, interval: int, key: string, now: int, i: nat)
    requires Burst(ops, key, now) && SaneLimits(limits) && i < |ops|
    ensures var outs := Run(map[], ops, limits, interval, true).1;
            var budget := if limits(key).burst > 0 then limits(key).burst else limits(key).requests;
            && outs[i].Some?
            && (outs[i].value.allowed <==> Granted(ops[..i], outs[..i], key) + ops[i].n <= budget)
  {
    hide Run, Granted;
    BurstSpends(map[], ops, limits, interval, key, now, i);
  }

  // ---------------------------------------------------------------- retry-after

  lemma WaitIsTight(level: real, n: int, limit: Limit, d: int)
    requires limit.Sane() && limit.RequestsPerSecond() > 0.0
    requires level < n as real && n <= limit.EffectiveBurst() && d >= 0
    ensures RetryAfter(n as real - level, limit).After?
    ensures var wait := RetryAfter(n as real - level, limit).nanos;
            && (d < wait ==> Refill(level, d, limit) < n as real)
            && (d >= wait + 1 ==> Refill(level, d, limit) >= n as real)
  {
    var rate, need := limit.RequestsPerSecond(), n as real - level;
    var x := need / rate * 1_000_000_000.0;
    QuotientSign(need, rate);
    var wait := x.Floor;
    assert x >= 0.0 && RetryAfter(need, limit) == After(wait);
    if d < wait {
      assert Seconds(d) < need / rate;
      GainShort(need, rate, Seconds(d));
      assert level + limit.Gain(d) < n as real;
    }
    if d >= wait + 1 {
      assert d as real > x;
      assert Seconds(d) > need / rate;
      GainEnough(need, rate, Seconds(d));
      assert level + limit.Gain(d) > n as real;
    }
  }

  lemma GainShort(need: real, rate: real, t: real)
    requires rate > 0.0 && t < need / rate
    ensures t * rate < need
  {
    assert (need / rate) * rate == need;
    MulStrict(t, need / rate, rate);
  }

  lemma GainEnough(need: real, rate: real, t: real)
    requires rate > 0.0 && t > need / rate
    ensures t * rate > need
  {
    assert (need / rate) * rate == need;
    MulStrict(need / rate, t, rate);
  }

  lemma MulStrict(a: real, b: real, r: real)
    requires a < b && r > 0.0
    ensures a * r < b * r
  {}

  /** After a refusal in any well-formed (so any reachable) state, and as long as the key is granted
      nothing, a retry strictly before `RetryAfter` is refused and any retry one nanosecond or more
      past it is granted, whatever refused takes, peeks, cleanup passes and calls on other keys come
      in between. */
  lemma RetryAfterTight(m: Buckets, key: string, n: int, t: int, between: seq<Op>, now: int,
                        limits: Limits, interval: int)
    requires SaneLimits(limits) && WellFormed(m, limits, t)
    requires limits(key).RequestsPerSecond() > 0.0 && 0 <= n <= limits(key).EffectiveBurst()
    requires Ordered(between, t) && EndTime(between, t) <= now && Plain(between, key)
    requires var (m1, first) := TakeBuckets(m, key, limits(key), n, t);
             !first.allowed && Granted(between, Run(m1, between, limits, interval, true).1, key) == 0
    ensures var (m1, first) := TakeBuckets(m, key, limits(key), n, t);
            var m2 := Run(m1, between, limits, interval, true).0;
            var retry := TakeBuckets(m2, key, limits(key), n, now).1;
            && first.retryAfter.After?
            && (now < t + first.retryAfter.nanos ==> !retry.allowed)
            && (now >= t + first.retryAfter.nanos + 1 ==> retry.allowed)
  {
    IdleAfterRefusal(m, key, n, t, between, now, limits, interval);
    assert limits(key).Sane();
    WaitIsTight(Level(Find(m, key), limits(key), t), n, limits(key), now - t);
  }

  /** A refused take, then a stretch that grants the key nothing: the balance is a plain refill. */
  lemma IdleAfterRefusal(m: Buckets, key: string, n: int, t: int, between: seq<Op>, now: int,
                         limits: Limits, interval: int)
    requires SaneLimits(limits) && WellFormed(m, limits, t) && n >= 0
    requires Ordered(between, t) && EndTime(between, t) <= now && Plain(between, key)
    requires var (m1, first) := TakeBuckets(m, key, limits(key), n, t);
             !first.allowed && Granted(between, Run(m1, between, limits, interval, true).1, key) == 0
    ensures var m1 := TakeBuckets(m, key, limits(key), n, t).0;
            var m2 := Run(m1, between, limits, interval, true).0;
            t <= now &&
            Level(Find(m2, key), limits(key), now) == Refill(Level(Find(m, key), limits(key), t), now - t, limits(key))
  {
    var limit, op := limits(key), Take(key, n, t);
    var m1 := TakeBuckets(m, key, limit, n, t).0;
    assert m1 == Step(m, op, limits, interval, true).0;
    StepWellFormed(m, op, limits, interval, true, t);
    assert Level(Find(m1, key), limit, t) == Level(Find(m, key), limit, t) by {
      StepLevel(m, op, limits, interval, true, key);
      assert [op][1..] == [];
    }
    RunPotential(m1, between, limits, interval, true, t, key);
    var tEnd := EndTime(between, t);
    assert limit.Sane();
    LevelAdvances(Find(Run(m1, between, limits, interval, true).0, key), limit, tEnd, now);
    RefillComposes(Level(Find(m, key), limit, t), tEnd - t, now - tEnd, limit);
  }

  lemma RefillComposes(tokens: real, a: int, b: int, limit: Limit)
    requires limit.Sane() && a >= 0 && b >= 0
    ensures Refill(Refill(tokens, a, limit), b, limit) == Refill(tokens, a + b, limit)
  {
    GainAdds(limit, a, b);
    GainNonNegative(limit, b);
  }

  // ---------------------------------------------------------------- forgetting is unobservable

  /** Two stores agree at `t`: same balance for every key, and a key known to only one of
      them has a burst of at least one (so an absent bucket and a full one answer a peek alike). */
  ghost predicate Agree(a: Buckets, b: Buckets, limits: Limits, t: int) {
    forall k :: && Level(Find(a, k), limits(k), t) == Level(Find(b, k), limits(k), t)
                && (k in a || k !in b || limits(k).EffectiveBurst() >= 1)
                && (k in b || k !in a || limits(k).EffectiveBurst() >= 1)
  }

  lemma AgreeLater(a: Buckets, b: Buckets, limits: Limits, t: int, now: int)
    requires SaneLimits(limits) && t <= now && Agree(a, b, limits, t)
    ensures Agree(a, b, limits, now)
  {
    forall k
      ensures Level(Find(a, k), limits(k), now) == Level(Find(b, k), limits(k), now)
    {
      assert limits(k).Sane();
      LevelAdvances(Find(a, k), limits(k), t, now);
      LevelAdvances(Find(b, k), limits(k), t, now);
    }
  }

  lemma CleanedAgrees(a: Buckets, b: Buckets, limits: Limits, interval: int, now: int)
    requires SaneLimits(limits) && WellFormed(a, limits, now) && Agree(a, b, limits, now)
    ensures Agree(Cleaned(a, now, interval), b, limits, now)
  {
    forall k
      ensures Level(Find(Cleaned(a, now, interval), k), limits(k), now) == Level(Find(b, k), limits(k), now)
      ensures k in Cleaned(a, now, interval) || k !in b || limits(k).EffectiveBurst() >= 1
    {
      assert limits(k).Sane();
      CleanedLevel(a, limits, now, interval, k);
      RateNonNegative(limits(k));
    }
  }

  /** One call on two agreeing stores gives one answer and leaves them agreeing. */
  lemma StepAgrees(a: Buckets, b: Buckets, op: Op, limits: Limits, interval: int)
    requires SaneLimits(limits) && WellFormed(a, limits, op.now) && WellFormed(b, limits, op.now)
    requires Agree(a, b, limits, op.now)
    ensures var (a', x) := Step(a, op, limits, interval, true);
            var (b', y) := Step(b, op, limits, interval, false);
            x == y && Agree(a', b', limits, op.now)
  {
    match op
    case Take(key, n, now) =>
      assert Level(Find(a, key), limits(key), now) == Level(Find(b, key), limits(key), now);
      var a' := TakeBuckets(a, key, limits(key), n, now).0;
      var b' := TakeBuckets(b, key, limits(key), n, now).0;
      assert a'[key] == b'[key];
      forall k | k != key
        ensures Find(a', k) == Find(a, k) && Find(b', k) == Find(b, k)
      {}
    case Peek(key, now) =>
      assert Level(Find(a, key), limits(key), now) == Level(Find(b, key), limits(key), now);
      TruncWhole(limits(key).EffectiveBurst());
    case Reset(key, _) =>
      forall k | k != key
        ensures Find(a - {key}, k) == Find(a, k) && Find(b - {key}, k) == Find(b, k)
      {}
    case Cleanup(now) =>
      CleanedAgrees(a, b, limits, interval, now);
    case Expire(_, _) =>
  }

  lemma TruncWhole(i: int)
    ensures Trunc(i as real) == i
  {
    if i < 0 {
      assert (-(i as real)) == (-i) as real;
    }
  }

  lemma {:induction false} RunAgrees(a: Buckets, b: Buckets, ops: seq<Op>, limits: Limits, interval: int, t: int)
    requires SaneLimits(limits) && WellFormed(a, limits, t) && WellFormed(b, limits, t)
    requires Agree(a, b, limits, t) && Ordered(ops, t)
    ensures Run(a, ops, limits, interval, true).1 == Run(b, ops, limits, interval, false).1
    decreases |ops|
  {
    if ops != [] {
      var op := ops[0];
      AgreeLater(a, b, limits, t, op.now);
      StepAgrees(a, b, op, limits, interval);
      StepWellFormed(a, op, limits, interval, true, t);
      StepWellFormed(b, op, limits, interval, false, t);
      RunAgrees(Step(a, op, limits, interval, true).0, Step(b, op, limits, interval, false).0,
                ops[1..], limits, interval, op.now);
    }
  }

  /** Forgetting buckets cannot be observed: with cleanup passes anywhere in the run, every call
      answers exactly as in a store that never forgets. */
  lemma ForgettingUnobservable(ops: seq<Op>, limits: Limits, interval: int, t: int)
    requires SaneLimits(limits) && Ordered(ops, t)
    ensures Run(map[], ops, limits, interval, true).1 == Run(map[], ops, limits, interval, false).1
  {
    RunAgrees(map[], map[], ops, limits, interval, t);
  }
}
