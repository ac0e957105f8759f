/** The Redis-backed bucket store: two Lua scripts over a hash with a time to live of twice the
    window, on a whole-millisecond clock. It is compared with the in-memory store on everything a
    caller sees except the retry-after estimate. */
module RedisBucket {
  import opened Common
  import opened TokenBucket
  import opened BucketRuns

  const NANOS_PER_MILLI: int := 1_000_000

  datatype Entry = Entry(tokens: real, lastUpdate: int, expireAt: int)

  type Entries = map<string, Entry>

  /** The fields of a result that both stores promise. */
  datatype Verdict = Verdict(allowed: bool, remaining: int, resetAt: int)

  function WindowMillis(limit: Limit): int {
    limit.window / NANOS_PER_MILLI
  }

  /** Both scripts read the balance in the same way. */
  function ScriptLevel(m: Entries, key: string, limit: Limit, nowMs: int): real {
    var burst := limit.EffectiveBurst() as real;
    var tokens := if key in m then m[key].tokens else burst;
    var lastUpdate := if key in m then m[key].lastUpdate else nowMs;
    Min(burst, tokens + (nowMs - lastUpdate) as real / 1000.0 * limit.RequestsPerSecond())
  }

  function TakeScript(m: Entries, key: string, limit: Limit, n: int, nowMs: int): (Entries, Verdict) {
    var level := ScriptLevel(m, key, limit, nowMs);
    var allowed := level >= n as real;
    var tokens := if allowed then level - n as real else level;
    (m[key := Entry(tokens, nowMs, nowMs + WindowMillis(limit) * 2)],
     Verdict(allowed, tokens.Floor, (nowMs + WindowMillis(limit)) * NANOS_PER_MILLI))
  }

  function PeekScript(m: Entries, key: string, limit: Limit, nowMs: int): Verdict {
    var level := ScriptLevel(m, key, limit, nowMs);
    Verdict(level >= 1.0, level.Floor, (nowMs + WindowMillis(limit)) * NANOS_PER_MILLI)
  }

  /** The server may drop a key at any instant from its expiry on, and never earlier. */
  function ServerStep(m: Entries, op: Op, limits: Limits): (Entries, Option<Verdict>) {
    var nowMs := op.now / NANOS_PER_MILLI;
    match op
    case Take(key, n, _) =>
      var (m', v) := TakeScript(m, key, limits(key), n, nowMs); (m', Some(v))
    case Peek(key, _) => (m, Some(PeekScript(m, key, limits(key), nowMs)))
    case Reset(key, _) => (m - {key}, None)
    case Cleanup(_) => (m, None)
    case Expire(key, _) => (if key in m && nowMs >= m[key].expireAt then m - {key} else m, None)
  }

  function ServerRun(m: Entries, ops: seq<Op>, limits: Limits): seq<Option<Verdict>>
    decreases |ops|
  {
    if ops == [] then []
    else
      var (m', v) := ServerStep(m, ops[0], limits);
      [v] + ServerRun(m', ops[1..], limits)
  }

  function Visible(r: Option<Result>): Option<Verdict> {
    if r.None? then None else Some(Verdict(r.value.allowed, r.value.remaining, r.value.resetAt))
  }

  function AllVisible(rs: seq<Option<Result>>): seq<Option<Verdict>> {
    seq(|rs|, i requires 0 <= i < |rs| => Visible(rs[i]))
  }

  ghost predicate WholeMillis(ops: seq<Op>) {
    forall i :: 0 <= i < |ops| ==> ops[i].now % NANOS_PER_MILLI == 0
  }

  /** A limit on which the two stores agree. */
  predicate Matched(limit: Limit) {
    limit.requests >= 1 && limit.EffectiveBurst() <= 2 * limit.requests
  }

  /** A positive window of whole milliseconds. */
  predicate MilliWindow(limit: Limit) {
    limit.window > 0 && limit.window % NANOS_PER_MILLI == 0
  }

  // ---------------------------------------------------------------- simulation

  function AsMemory(m: Entries, limits: Limits): Buckets {
    map k | k in m :: Bucket(m[k].tokens, m[k].lastUpdate * NANOS_PER_MILLI, limits(k))
  }

  /** Every entry is in credit, and lives for exactly two windows after its last update. */
  ghost predicate Live(m: Entries, limits: Limits, t: int) {
    forall k :: k in m ==> && m[k].tokens >= 0.0
                           && m[k].lastUpdate * NANOS_PER_MILLI <= t
                           && m[k].expireAt == m[k].lastUpdate + WindowMillis(limits(k)) * 2
  }

  ghost predicate AllMatched(limits: Limits) {
    forall k :: Matched(limits(k)) && MilliWindow(limits(k))
  }

  lemma MatchedSane(limits: Limits)
    requires AllMatched(limits)
    ensures SaneLimits(limits)
  {
    forall k ensures limits(k).Sane() { assert Matched(limits(k)) && MilliWindow(limits(k)); }
  }

  lemma SameLevel(m: Entries, key: string, limits: Limits, now: int)
    requires now % NANOS_PER_MILLI == 0
    ensures ScriptLevel(m, key, limits(key), now / NANOS_PER_MILLI)
            == Level(Find(AsMemory(m, limits), key), limits(key), now)
  {
    var nowMs := now / NANOS_PER_MILLI;
    assert now == nowMs * NANOS_PER_MILLI;
    if key in m {
      var e := nowMs - m[key].lastUpdate;
      assert now - m[key].lastUpdate * NANOS_PER_MILLI == e * NANOS_PER_MILLI;
      assert e as real / 1000.0 == Seconds(e * NANOS_PER_MILLI);
    }
  }

  lemma TakeMatches(m: Entries, key: string, n: int, limits: Limits, now: int)
    requires AllMatched(limits) && Live(m, limits, now) && now % NANOS_PER_MILLI == 0
    ensures var (m', v) := TakeScript(m, key, limits(key), n, now / NANOS_PER_MILLI);
            var (b', r) := TakeBuckets(AsMemory(m, limits), key, limits(key), n, now);
            AsMemory(m', limits) == b' && Some(v) == Visible(Some(r)) && Live(m', limits, now)
  {
    hide AllMatched, RetryAfter;
    CallFacts(m, key, limits, now);
    hide ScriptLevel, Level;
    var nowMs := now / NANOS_PER_MILLI;
    assert (nowMs + WindowMillis(limits(key))) * NANOS_PER_MILLI == now + limits(key).window;
    var m' := TakeScript(m, key, limits(key), n, nowMs).0;
    assert AsMemory(m', limits) == TakeBuckets(AsMemory(m, limits), key, limits(key), n, now).0;
  }

  lemma PeekMatches(m: Entries, key: string, limits: Limits, now: int)
    requires AllMatched(limits) && Live(m, limits, now) && now % NANOS_PER_MILLI == 0
    ensures Some(PeekScript(m, key, limits(key), now / NANOS_PER_MILLI))
         == Visible(Some(PeekResult(Find(AsMemory(m, limits), key), limits(key), now)))
  {
    hide AllMatched;
    CallFacts(m, key, limits, now);
    hide ScriptLevel;
    var nowMs := now / NANOS_PER_MILLI;
    assert (nowMs + WindowMillis(limits(key))) * NANOS_PER_MILLI == now + limits(key).window;
  }

  /** Apart from expiry, the scripts do to an entry exactly what the memory store does to the
      bucket it stands for, and report the same. */
  lemma ScriptsMatchMemory(m: Entries, op: Op, limits: Limits, interval: int)
    requires AllMatched(limits) && Live(m, limits, op.now) && op.now % NANOS_PER_MILLI == 0 && !op.Expire?
    ensures var (m', v) := ServerStep(m, op, limits);
            var (b', r) := Step(AsMemory(m, limits), op, limits, interval, false);
            AsMemory(m', limits) == b' && v == Visible(r) && Live(m', limits, op.now)
  {
    hide TakeScript, TakeBuckets, PeekScript, PeekResult, AllMatched;
    match op
    case Take(key, n, now) => TakeMatches(m, key, n, limits, now);
    case Peek(key, now) => PeekMatches(m, key, limits, now);
    case Reset(_, _) =>
    case Cleanup(_) =>
  }

  /** What a call at `now` on `key` relies on, without the nonlinear arithmetic behind it. */
  lemma CallFacts(m: Entries, key: string, limits: Limits, now: int)
    requires AllMatched(limits) && Live(m, limits, now) && now % NANOS_PER_MILLI == 0
    ensures now == now / NANOS_PER_MILLI * NANOS_PER_MILLI
    ensures limits(key).window == WindowMillis(limits(key)) * NANOS_PER_MILLI
    ensures ScriptLevel(m, key, limits(key), now / NANOS_PER_MILLI)
            == Level(Find(AsMemory(m, limits), key), limits(key), now) >= 0.0
    ensures Level(None, limits(key), now).Floor == limits(key).EffectiveBurst() >= 1
  {
    MatchedSane(limits);
    assert Matched(limits(key)) && MilliWindow(limits(key)) && limits(key).Sane();
    SameLevel(m, key, limits, now);
    LevelNonNegative(Find(AsMemory(m, limits), key), limits(key), now);
  }

  /** Two windows after an update an entry is full whatever it held. */
  lemma ExpiredIsFull(m: Entries, key: string, limits: Limits, now: int)
    requires AllMatched(limits) && Live(m, limits, now) && now % NANOS_PER_MILLI == 0
    requires key in m && now / NANOS_PER_MILLI >= m[key].expireAt
    ensures Level(Find(AsMemory(m, limits), key), limits(key), now) == limits(key).EffectiveBurst() as real
  {
    MatchedSane(limits);
    var limit := limits(key);
    assert Matched(limit) && MilliWindow(limit) && limit.Sane();
    var last := m[key].lastUpdate * NANOS_PER_MILLI;
    var rest := now - last - 2 * limit.window;
    assert limit.window == WindowMillis(limit) * NANOS_PER_MILLI;
    assert rest >= 0;
    WindowGain(limit);
    GainAdds(limit, limit.window, limit.window);
    GainAdds(limit, 2 * limit.window, rest);
    GainNonNegative(limit, rest);
    assert now - last == 2 * limit.window + rest;
  }

  /** One window brings in exactly `requests` tokens. */
  lemma WindowGain(limit: Limit)
    requires limit.window > 0
    ensures limit.Gain(limit.window) == limit.requests as real
  {
    MulDiv(Seconds(limit.window), limit.requests as real);
  }

  lemma MulDiv(x: real, y: real)
    requires x > 0.0
    ensures x * (y / x) == y
  {}

  lemma ExpiryAgrees(a: Buckets, m: Entries, op: Op, limits: Limits)
    requires AllMatched(limits) && Live(m, limits, op.now) && op.now % NANOS_PER_MILLI == 0 && op.Expire?
    requires Agree(a, AsMemory(m, limits), limits, op.now)
    ensures var m' := ServerStep(m, op, limits).0;
            Agree(a, AsMemory(m', limits), limits, op.now) && Live(m', limits, op.now)
  {
    var m' := ServerStep(m, op, limits).0;
    if m' != m {
      ExpiredIsFull(m, op.key, limits, op.now);
      forall k
        ensures Level(Find(a, k), limits(k), op.now) == Level(Find(AsMemory(m', limits), k), limits(k), op.now)
        ensures limits(k).EffectiveBurst() >= 1
      {
        assert Matched(limits(k));
        assert k != op.key ==> Find(AsMemory(m', limits), k) == Find(AsMemory(m, limits), k);
      }
    }
  }

  /** One operation on agreeing stores gives one verdict and leaves them agreeing. */
  lemma StoresStepTogether(a: Buckets, m: Entries, op: Op, limits: Limits, interval: int, t: int)
    requires AllMatched(limits) && WellFormed(a, limits, t) && Live(m, limits, t)
    requires Agree(a, AsMemory(m, limits), limits, t) && t <= op.now && op.now % NANOS_PER_MILLI == 0
    ensures var (a', r) := Step(a, op, limits, interval, true);
            var (m', v) := ServerStep(m, op, limits);
            && v == Visible(r) && Agree(a', AsMemory(m', limits), limits, op.now)
            && WellFormed(a', limits, op.now) && Live(m', limits, op.now)
  {
    MatchedSane(limits);
    AgreeLater(a, AsMemory(m, limits), limits, t, op.now);
    StepWellFormed(a, op, limits, interval, true, t);
    if op.Expire? {
      ExpiryAgrees(a, m, op, limits);
    } else {
      StepAgrees(a, AsMemory(m, limits), op, limits, interval);
      ScriptsMatchMemory(m, op, limits, interval);
    }
  }

  lemma {:induction false} RunsAgree(a: Buckets, m: Entries, ops: seq<Op>, limits: Limits, interval: int, t: int)
    requires AllMatched(limits) && WellFormed(a, limits, t) && Live(m, limits, t)
    requires Agree(a, AsMemory(m, limits), limits, t) && Ordered(ops, t) && WholeMillis(ops)
    ensures ServerRun(m, ops, limits) == AllVisible(Run(a, ops, limits, interval, true).1)
    decreases |ops|
  {
    hide Step, ServerStep, Agree, WellFormed, Live, AllMatched, AsMemory;
    if ops != [] {
      var op := ops[0];
      StoresStepTogether(a, m, op, limits, interval, t);
      var (a', r) := Step(a, op, limits, interval, true);
      RunsAgree(a', ServerStep(m, op, limits).0, ops[1..], limits, interval, op.now);
      var rest := Run(a', ops[1..], limits, interval, true).1;
      assert AllVisible([r] + rest) == [Visible(r)] + AllVisible(rest);
    }
  }

  /** On matched limits the Redis store, with any expiries, and the memory store, with any cleanup
      passes, answer every run alike. */
  lemma RedisMatchesMemory(ops: seq<Op>, limits: Limits, interval: int, t: int)
    requires AllMatched(limits) && Ordered(ops, t) && WholeMillis(ops)
    ensures ServerRun(map[], ops, limits) == AllVisible(Run(map[], ops, limits, interval, true).1)
  {
    assert AsMemory(map[], limits) == map[];
    RunsAgree(map[], map[], ops, limits, interval, t);
  }

  // ---------------------------------------------------------------- exactly when

  /** A limit on which the stores answer every run alike. */
  predicate Interchangeable(limit: Limit) {
    Matched(limit) && MilliWindow(limit)
  }

  /** A run on which the stores part company when they are not interchangeable: one peek if the window
      is not whole milliseconds or the limit allows nothing, else spend all, expire, and ask again. */
  function PartingRun(limit: Limit): seq<Op> {
    var burst := limit.EffectiveBurst();
    if burst == 0 || limit.window % NANOS_PER_MILLI != 0 then [Peek("k", 0)]
    else [Take("k", burst, 0), Expire("k", 2 * limit.window), Take("k", burst, 2 * limit.window)]
  }

  function Always(limit: Limit): Limits {
    (k: string) => limit
  }

  ghost predicate Parted(limit: Limit, ops: seq<Op>, interval: int) {
    ServerRun(map[], ops, Always(limit)) != AllVisible(Run(map[], ops, Always(limit), interval, true).1)
  }

  /** Redis reports the start of its reset window in truncated milliseconds, and looks at the balance of
      an unknown key where the memory store does not. */
  lemma PeekParts(limit: Limit, interval: int)
    requires limit.requests >= 0 && limit.window >= 0
    requires limit.EffectiveBurst() == 0 || limit.window % NANOS_PER_MILLI != 0
    ensures Parted(limit, [Peek("k", 0)], interval)
  {
    var limits, ops := Always(limit), [Peek("k", 0)];
    var v, r := PeekScript(map[], "k", limit, 0), PeekResult(None, limit, 0);
    assert ServerRun(map[], ops, limits)[0] == Some(v);
    assert AllVisible(Run(map[], ops, limits, interval, true).1)[0] == Visible(Some(r));
    if limit.EffectiveBurst() == 0 {
      GainZero(limit);
      assert !v.allowed && r.allowed;
    } else {
      assert v.resetAt == WindowMillis(limit) * NANOS_PER_MILLI != limit.window;
    }
  }

  /** Redis: spent, expired, full again. */
  lemma ServerForgets(limit: Limit, burst: int, t: int)
    requires burst == limit.EffectiveBurst() && t == 2 * limit.window && limit.window >= 0
    requires limit.window % NANOS_PER_MILLI == 0
    ensures var outs := ServerRun(map[], [Take("k", burst, 0), Expire("k", t), Take("k", burst, t)], Always(limit));
            |outs| == 3 && outs[2].Some? && outs[2].value.allowed
  {
    var limits := Always(limit);
    var ops := [Take("k", burst, 0), Expire("k", t), Take("k", burst, t)];
    var tail, last := ops[1..], ops[1..][1..];
    GainZero(limit);
    var e0 := TakeScript(map[], "k", limit, burst, 0).0;
    assert e0 == map["k" := Entry(0.0, 0, WindowMillis(limit) * 2)];
    assert t / NANOS_PER_MILLI == WindowMillis(limit) * 2;
    assert ServerStep(e0, tail[0], limits).0 == map[];
    assert last[1..] == [];
    var v := TakeScript(map[], "k", limit, burst, t / NANOS_PER_MILLI).1;
    assert ServerRun(map[], last, limits) == [Some(v)];
    assert ServerRun(e0, tail, limits) == [None, Some(v)];
  }

  /** Memory: two windows bring in only twice `requests`, and a zero window nothing. */
  lemma MemoryRemembers(limit: Limit, burst: int, t: int, interval: int)
    requires burst == limit.EffectiveBurst() > 0 && t == 2 * limit.window && limit.window >= 0 && limit.requests >= 0
    requires limit.window == 0 || burst > 2 * limit.requests
    ensures var ops := [Take("k", burst, 0), Expire("k", t), Take("k", burst, t)];
            var outs := Run(map[], ops, Always(limit), interval, true).1;
            outs[2].Some? && !outs[2].value.allowed
  {
    var limits := Always(limit);
    var ops := [Take("k", burst, 0), Expire("k", t), Take("k", burst, t)];
    var tail, last := ops[1..], ops[1..][1..];
    assert last[1..] == [];
    GainZero(limit);
    var b0 := TakeBuckets(map[], "k", limit, burst, 0).0;
    assert b0 == map["k" := Bucket(0.0, 0, limit)];
    var r := TakeBuckets(b0, "k", limit, burst, t).1;
    if limit.window > 0 {
      WindowGain(limit);
      GainAdds(limit, limit.window, limit.window);
    }
    assert !r.allowed;
    assert Run(b0, last, limits, interval, true).1 == [Some(r)];
    assert Run(b0, tail, limits, interval, true).1 == [None, Some(r)];
  }

  lemma UnmatchedParts(limit: Limit, interval: int)
    requires limit.requests >= 0 && limit.window >= 0 && !Interchangeable(limit)
    ensures Ordered(PartingRun(limit), 0) && WholeMillis(PartingRun(limit))
    ensures Parted(limit, PartingRun(limit), interval)
  {
    var burst, t, ops := limit.EffectiveBurst(), 2 * limit.window, PartingRun(limit);
    if burst == 0 || limit.window % NANOS_PER_MILLI != 0 {
      PeekParts(limit, interval);
    } else {
      assert Ordered(ops[1..][1..], t) && Ordered(ops[1..], 0);
      ServerForgets(limit, burst, t);
      MemoryRemembers(limit, burst, t, interval);
      var outs := Run(map[], ops, Always(limit), interval, true).1;
      assert AllVisible(outs)[2] == Visible(outs[2]);
    }
  }

  /** The stores are interchangeable on all runs exactly when the limit allows at least one request, its
      burst is at most twice the requests, and its window is a positive number of whole milliseconds. */
  lemma InterchangeableIffMatched(limit: Limit, interval: int)
    requires limit.requests >= 0 && limit.window >= 0
    ensures (forall ops :: Ordered(ops, 0) && WholeMillis(ops) ==> !Parted(limit, ops, interval))
            <==> Interchangeable(limit)
  {
    if Interchangeable(limit) {
      forall ops | Ordered(ops, 0) && WholeMillis(ops)
        ensures !Parted(limit, ops, interval)
      {
        RedisMatchesMemory(ops, Always(limit), interval, 0);
      }
    } else {
      UnmatchedParts(limit, interval);
    }
  }

  // ---------------------------------------------------------------- the rate bound carries over

  /** Tokens handed out to `key` by the granted takes of a server run. */
  function GrantedByServer(ops: seq<Op>, outs: seq<Option<Verdict>>, key: string): int
    requires |outs| == |ops|
  {
    if ops == [] then 0
    else
      (if ops[0].Take? && ops[0].key == key && outs[0].Some? && outs[0].value.allowed then ops[0].n else 0)
      + GrantedByServer(ops[1..], outs[1..], key)
  }

  lemma {:induction false} SameGrants(ops: seq<Op>, outs: seq<Option<Result>>, key: string)
    requires |outs| == |ops|
    ensures GrantedByServer(ops, AllVisible(outs), key) == Granted(ops, outs, key)
  {
    if ops != [] {
      SameGrants(ops[1..], outs[1..], key);
      assert AllVisible(outs)[1..] == AllVisible(outs[1..]);
      assert AllVisible(outs)[0] == Visible(outs[0]);
    }
  }

  lemma LiveWellFormed(m: Entries, limits: Limits, t: int)
    requires Live(m, limits, t)
    ensures WellFormed(AsMemory(m, limits), limits, t)
  {}

  /** On matched limits the Redis store obeys the rate bound too, over any stretch of a run and however
      the server expires keys. */
  lemma RedisObeysRate(m: Entries, ops: seq<Op>, limits: Limits, key: string)
    requires AllMatched(limits) && WholeMillis(ops)
    requires ops != [] && Ordered(ops, ops[0].now) && Plain(ops, key) && Live(m, limits, ops[0].now)
    ensures var outs := ServerRun(m, ops, limits);
            && |outs| == |ops|
            && WithinRate(GrantedByServer(ops, outs, key), limits(key), ops[|ops| - 1].now - ops[0].now)
  {
    var a, t := AsMemory(m, limits), ops[0].now;
    MatchedSane(limits);
    LiveWellFormed(m, limits, t);
    assert Agree(a, a, limits, t);
    hide Run, ServerRun, Granted, GrantedByServer, WithinRate, AllMatched, Agree, Live, WellFormed, AsMemory;
    RunsAgree(a, m, ops, limits, 0, t);
    RateBound(a, ops, limits, 0, key);
    SameGrants(ops, Run(a, ops, limits, 0, true).1, key);
  }

  /** Every state the server reaches is live. */
  lemma {:induction false} ServerStaysLive(m: Entries, ops: seq<Op>, limits: Limits, t: int)
    requires AllMatched(limits) && Live(m, limits, t) && Ordered(ops, t) && WholeMillis(ops)
    ensures Live(ServerState(m, ops, limits), limits, EndTime(ops, t))
    decreases |ops|
  {
    hide AllMatched;
    if ops != [] {
      var op := ops[0];
      LiveStep(m, op, limits, t);
      ServerStaysLive(ServerStep(m, op, limits).0, ops[1..], limits, op.now);
    }
  }

  function ServerState(m: Entries, ops: seq<Op>, limits: Limits): Entries
    decreases |ops|
  {
    if ops == [] then m else ServerState(ServerStep(m, ops[0], limits).0, ops[1..], limits)
  }

  lemma LiveStep(m: Entries, op: Op, limits: Limits, t: int)
    requires AllMatched(limits) && Live(m, limits, t) && t <= op.now && op.now % NANOS_PER_MILLI == 0
    ensures Live(ServerStep(m, op, limits).0, limits, op.now)
  {
    if !op.Expire? {
      ScriptsMatchMemory(m, op, limits, 0);
    }
  }
}
