/** Whole histories of the limiter: any number of calls take turns at the bucket store, and what they let
    through obeys the rate of every level. */
module LimiterRuns {
  import opened Common
  import opened TokenBucket
  import opened BucketRuns
  import opened RateKeys
  import opened HierarchicalLimiter
  import opened LimiterTiers

  /** The limit that goes with a storage key. */
  function LimitOf(cfg: Config, s: string): Limit {
    var k := ParseKey(s);
    if k.tool != "" then cfg.ToolLimit() else if k.user != "" then cfg.UserLimit()
    else if k.tenant != "" then cfg.TenantLimit() else cfg.GlobalLimit()
  }

  /** With colon-free fields every storage key has one fixed limit. */
  lemma OneLimitPerKey(cfg: Config, key: Key)
    requires PlainKey(key)
    ensures forall i :: 0 <= i < |BuildChecks(cfg, key)| ==>
              LimitOf(cfg, BuildChecks(cfg, key)[i].key) == BuildChecks(cfg, key)[i].limit
  {
    hide KeyString, ParseKey;
    ParseKeyString(ToolKey(key));
    ParseKeyString(UserKey(key));
    ParseKeyString(TenantKey(key));
    ParseKeyString(GLOBAL_KEY);
  }

  lemma {:induction false} RunConcat(m: Buckets, a: seq<Op>, b: seq<Op>, limits: Limits, interval: int)
    ensures var (m1, x) := Run(m, a, limits, interval, true);
            var (m2, y) := Run(m1, b, limits, interval, true);
            Run(m, a + b, limits, interval, true) == (m2, x + y)
    decreases |a|
  {
    hide Step;
    if a == [] {
      assert a + b == b;
      assert Run(m, a, limits, interval, true).1 + Run(m, b, limits, interval, true).1
          == Run(m, b, limits, interval, true).1;
    } else {
      var (m1, o) := Step(m, a[0], limits, interval, true);
      var xs := Run(m1, a[1..], limits, interval, true).1;
      var ys := Run(Run(m1, a[1..], limits, interval, true).0, b, limits, interval, true).1;
      RunConcat(m1, a[1..], b, limits, interval);
      assert (a + b)[1..] == a[1..] + b && (a + b)[0] == a[0];
      assert [o] + (xs + ys) == ([o] + xs) + ys;
    }
  }

  lemma {:induction false} GrantedConcat(a: seq<Op>, x: seq<Option<Result>>, b: seq<Op>, y: seq<Option<Result>>,
                                         key: string)
    requires |a| == |x| && |b| == |y|
    ensures Granted(a + b, x + y, key) == Granted(a, x, key) + Granted(b, y, key)
  {
    if a == [] {
      assert a + b == b && x + y == y;
    } else {
      assert (a + b)[1..] == a[1..] + b && (x + y)[1..] == x[1..] + y;
      GrantedConcat(a[1..], x[1..], b, y, key);
    }
  }

  // ---------------------------------------------------------------- interleaved attempts

  /** A call of `AllowN` in progress: the levels still to ask, those that have granted, and the refusal
      that ended it, if any. */
  datatype Attempt = Attempt(key: Key, n: nat, todo: seq<Check>, paid: seq<string>, refusal: Option<Result>)

  datatype Pool = Pool(m: Buckets, attempts: seq<Attempt>)

  /** Any number of calls take turns at the store, one take at a time, among cleanup passes. */
  datatype Event = Begin(key: Key, n: nat) | Next(i: nat, call: Call) | Pass(now: int)

  predicate Waits(p: Pool, i: nat) {
    i < |p.attempts| && p.attempts[i].todo != [] && p.attempts[i].refusal.None?
  }

  /** One turn of attempt `a`, and the bucket operation it performs. */
  function Turn(m: Buckets, a: Attempt, call: Call): (Buckets, Attempt, seq<Op>)
    requires a.todo != []
  {
    if call.Failed? then (m, a.(todo := a.todo[1..]), [])
    else
      var c := a.todo[0];
      var (m', r) := TakeBuckets(m, c.key, c.limit, a.n, call.now);
      (m', if r.allowed then a.(todo := a.todo[1..], paid := a.paid + [c.key]) else a.(refusal := Some(r)),
       [Take(c.key, a.n, call.now)])
  }

  function PoolStep(cfg: Config, p: Pool, e: Event, interval: int): (Pool, seq<Op>) {
    match e
    case Begin(key, n) => (p.(attempts := p.attempts + [Attempt(key, n, BuildChecks(cfg, key), [], None)]), [])
    case Next(i, call) =>
      if !Waits(p, i) then (p, [])
      else
        var (m, a, ops) := Turn(p.m, p.attempts[i], call);
        (Pool(m, p.attempts[i := a]), ops)
    case Pass(now) => (p.(m := Cleaned(p.m, now, interval)), [Cleanup(now)])
  }

  /** The pool after a history, and all its bucket operations in order. */
  function History(cfg: Config, p: Pool, events: seq<Event>, interval: int): (Pool, seq<Op>)
    decreases |events|
  {
    if events == [] then (p, [])
    else
      var (p1, ops) := PoolStep(cfg, p, events[0], interval);
      var (p2, more) := History(cfg, p1, events[1..], interval);
      (p2, ops + more)
  }

  /** Names are colon-free, so every level asked has the limit of its storage key. */
  ghost predicate Legal(events: seq<Event>) {
    forall i :: 0 <= i < |events| && events[i].Begin? ==> PlainKey(events[i].key)
  }

  ghost predicate RightLimits(cfg: Config, p: Pool) {
    forall i, j :: 0 <= i < |p.attempts| && 0 <= j < |p.attempts[i].todo| ==>
      LimitOf(cfg, p.attempts[i].todo[j].key) == p.attempts[i].todo[j].limit
  }

  function Paid(a: Attempt, level: string): nat {
    if level in a.paid then a.n else 0
  }

  /** Tokens that attempts have been granted at a level. */
  function TotalPaid(attempts: seq<Attempt>, level: string): nat {
    if attempts == [] then 0
    else TotalPaid(attempts[..|attempts| - 1], level) + Paid(attempts[|attempts| - 1], level)
  }

  lemma {:induction false} PaidUpdate(attempts: seq<Attempt>, i: nat, a: Attempt, level: string)
    requires i < |attempts|
    ensures TotalPaid(attempts[i := a], level) + Paid(attempts[i], level)
         == TotalPaid(attempts, level) + Paid(a, level)
  {
    hide Paid;
    var last := |attempts| - 1;
    var init := attempts[..last];
    if i == last {
      assert attempts[i := a][..last] == init;
    } else {
      PaidUpdate(init, i, a, level);
      assert attempts[i := a][..last] == init[i := a];
    }
  }

  function LimitsOf(cfg: Config): Limits {
    s => LimitOf(cfg, s)
  }

  /** What one turn pays is what its take grants. */
  lemma TurnGrants(cfg: Config, m: Buckets, a: Attempt, call: Call, interval: int, level: string)
    requires a.todo != [] && LimitOf(cfg, a.todo[0].key) == a.todo[0].limit
    ensures var (m', a', ops) := Turn(m, a, call);
            var (m1, outs) := Run(m, ops, LimitsOf(cfg), interval, true);
            && m1 == m' && Plain(ops, level)
            && Paid(a', level) <= Paid(a, level) + Granted(ops, outs, level)
  {
    hide TakeBuckets, LimitOf;
    if call.At? {
      var op := Take(a.todo[0].key, a.n, call.now);
      assert [op][1..] == [];
      var out := Step(m, op, LimitsOf(cfg), interval, true).1;
      assert Run(m, [op], LimitsOf(cfg), interval, true).1 == [out];
      assert [out][1..] == [];
    }
  }

  lemma BeginRight(cfg: Config, p: Pool, key: Key, n: nat)
    requires RightLimits(cfg, p) && PlainKey(key)
    ensures RightLimits(cfg, p.(attempts := p.attempts + [Attempt(key, n, BuildChecks(cfg, key), [], None)]))
  {
    hide LimitOf, BuildChecks;
    OneLimitPerKey(cfg, key);
  }

  lemma BeginPaid(attempts: seq<Attempt>, a: Attempt, level: string)
    requires a.paid == []
    ensures TotalPaid(attempts + [a], level) == TotalPaid(attempts, level)
  {
    assert (attempts + [a])[..|attempts|] == attempts;
  }

  lemma NextGrants(cfg: Config, p: Pool, i: nat, call: Call, interval: int, level: string)
    requires RightLimits(cfg, p) && Waits(p, i)
    ensures var (p', ops) := PoolStep(cfg, p, Next(i, call), interval);
            var (m1, outs) := Run(p.m, ops, LimitsOf(cfg), interval, true);
            && m1 == p'.m && Plain(ops, level) && RightLimits(cfg, p')
            && TotalPaid(p'.attempts, level) <= TotalPaid(p.attempts, level) + Granted(ops, outs, level)
  {
    hide LimitOf, Run, Granted, TakeBuckets, TotalPaid, Paid, Plain;
    TurnGrants(cfg, p.m, p.attempts[i], call, interval, level);
    PaidUpdate(p.attempts, i, Turn(p.m, p.attempts[i], call).1, level);
  }

  lemma PassGrants(m: Buckets, now: int, limits: Limits, interval: int, level: string)
    ensures var (m1, outs) := Run(m, [Cleanup(now)], limits, interval, true);
            m1 == Cleaned(m, now, interval) && Plain([Cleanup(now)], level) && Granted([Cleanup(now)], outs, level) == 0
  {
    assert [Cleanup(now)][1..] == [];
  }

  /** One event: its operations lead to its store, and the tokens newly paid were granted by them. */
  lemma EventGrants(cfg: Config, p: Pool, e: Event, interval: int, level: string)
    requires RightLimits(cfg, p) && (e.Begin? ==> PlainKey(e.key))
    ensures var (p', ops) := PoolStep(cfg, p, e, interval);
            var (m1, outs) := Run(p.m, ops, LimitsOf(cfg), interval, true);
            && m1 == p'.m && Plain(ops, level) && RightLimits(cfg, p')
            && TotalPaid(p'.attempts, level) <= TotalPaid(p.attempts, level) + Granted(ops, outs, level)
  {
    hide LimitOf, BuildChecks, TakeBuckets, TotalPaid, Cleaned, RightLimits;
    if e.Next? {
      if Waits(p, e.i) {
        hide Run, Granted, PoolStep;
        NextGrants(cfg, p, e.i, e.call, interval, level);
      }
    } else if e.Begin? {
      BeginRight(cfg, p, e.key, e.n);
      BeginPaid(p.attempts, Attempt(e.key, e.n, BuildChecks(cfg, e.key), [], None), level);
    } else {
      hide Run, Granted;
      PassGrants(p.m, e.now, LimitsOf(cfg), interval, level);
      RightLimitsKept(cfg, p, p.(m := Cleaned(p.m, e.now, interval)));
    }
  }

  lemma RightLimitsKept(cfg: Config, p: Pool, q: Pool)
    requires RightLimits(cfg, p) && q.attempts == p.attempts
    ensures RightLimits(cfg, q)
  {}

  lemma {:induction false} HistoryGrants(cfg: Config, p: Pool, events: seq<Event>, interval: int, level: string)
    requires RightLimits(cfg, p) && Legal(events)
    ensures var (p', ops) := History(cfg, p, events, interval);
            var (m1, outs) := Run(p.m, ops, LimitsOf(cfg), interval, true);
            && m1 == p'.m && Plain(ops, level)
            && TotalPaid(p'.attempts, level) <= TotalPaid(p.attempts, level) + Granted(ops, outs, level)
    decreases |events|
  {
    hide PoolStep, RightLimits, LimitOf, Run, TotalPaid, Granted;
    if events == [] {
      NothingGranted(p.m, LimitsOf(cfg), interval, level);
    } else {
      var (p1, ops) := PoolStep(cfg, p, events[0], interval);
      EventGrants(cfg, p, events[0], interval, level);
      HistoryGrants(cfg, p1, events[1..], interval, level);
      var more := History(cfg, p1, events[1..], interval).1;
      RunConcat(p.m, ops, more, LimitsOf(cfg), interval);
      GrantedConcat(ops, Run(p.m, ops, LimitsOf(cfg), interval, true).1,
                    more, Run(p1.m, more, LimitsOf(cfg), interval, true).1, level);
    }
  }

  lemma NothingGranted(m: Buckets, limits: Limits, interval: int, level: string)
    ensures Run(m, [], limits, interval, true) == (m, []) && Granted([], [], level) == 0
  {}

  lemma SaneConfig(cfg: Config)
    requires cfg.Sane()
    ensures SaneLimits(LimitsOf(cfg)) && forall level :: LimitOf(cfg, level).window >= 0
  {
    hide ParseKey;
  }

  /** The rate of every level holds, however concurrent calls interleave: over any stretch of any
      history the tokens paid at a level are at most what its limit allows for that time. */
  lemma PaymentsObeyRate(cfg: Config, p: Pool, events: seq<Event>, interval: int, level: string, ops: seq<Op>)
    requires cfg.Sane() && Legal(events) && RightLimits(cfg, p)
    requires ops == History(cfg, p, events, interval).1
    requires ops != [] && Ordered(ops, ops[0].now) && WellFormed(p.m, LimitsOf(cfg), ops[0].now)
    ensures var p' := History(cfg, p, events, interval).0;
            WithinRate(TotalPaid(p'.attempts, level) - TotalPaid(p.attempts, level), LimitOf(cfg, level),
                       ops[|ops| - 1].now - ops[0].now)
  {
    hide History, Run, Granted, LimitOf, Plain, WithinRate, WellFormed, SaneLimits, TotalPaid, Ordered, RightLimits;
    var limits, limit := LimitsOf(cfg), LimitOf(cfg, level);
    var granted := Granted(ops, Run(p.m, ops, limits, interval, true).1, level);
    SaneConfig(cfg);
    HistoryGrants(cfg, p, events, interval, level);
    RateBound(p.m, ops, limits, interval, level);
    var paid := TotalPaid(History(cfg, p, events, interval).0.attempts, level) - TotalPaid(p.attempts, level);
    WithinRateLess(paid, granted, limit, ops[|ops| - 1].now - ops[0].now);
  }

  // ---------------------------------------------------------------- everything let through

  /** Calls let through (weighted by `n`) that are subject to a level. */
  ghost function Through(cfg: Config, attempts: seq<Attempt>, text: string): nat {
    if attempts == [] then 0
    else
      var a := attempts[|attempts| - 1];
      Through(cfg, attempts[..|attempts| - 1], text)
      + if a.todo == [] && a.refusal.None? && SubjectTo(cfg, a.key, text) then a.n else 0
  }

  /** While it is not refused, a call has paid or is yet to ask every level it is subject to. */
  ghost predicate Owes(cfg: Config, a: Attempt) {
    a.refusal.None? ==>
      forall text :: SubjectTo(cfg, a.key, text) ==>
          text in a.paid || exists i :: 0 <= i < |a.todo| && a.todo[i].key == text
  }

  ghost predicate AllOwe(cfg: Config, attempts: seq<Attempt>) {
    forall i :: 0 <= i < |attempts| ==> Owes(cfg, attempts[i])
  }

  lemma {:induction false} ChecksHold(tiers: seq<Tier>, i: nat)
    requires i < |tiers| && tiers[i].applies
    ensures exists j :: 0 <= j < |ChecksOf(tiers)| && ChecksOf(tiers)[j].key == tiers[i].text
  {
    var rest := ChecksOf(tiers[1..]);
    var first := if tiers[0].applies then [Check(tiers[0].text, tiers[0].limit)] else [];
    if i == 0 {
      assert ChecksOf(tiers)[0].key == tiers[0].text;
    } else {
      ChecksHold(tiers[1..], i - 1);
      var j :| 0 <= j < |rest| && rest[j].key == tiers[i].text;
      assert ChecksOf(tiers)[|first| + j].key == tiers[i].text;
    }
  }

  lemma BeginOwes(cfg: Config, key: Key, n: nat)
    ensures Owes(cfg, Attempt(key, n, BuildChecks(cfg, key), [], None))
  {
    hide BuildChecks, ToolTier, UserTier, TenantTier, GlobalTier;
    var todo := BuildChecks(cfg, key);
    BuildsTiers(cfg, key);
    forall text | SubjectTo(cfg, key, text) ensures exists i :: 0 <= i < |todo| && todo[i].key == text {
      var i :| 0 <= i < 4 && Tiers(cfg, key)[i].applies && Tiers(cfg, key)[i].text == text;
      ChecksHold(Tiers(cfg, key), i);
    }
  }

  lemma TurnOwes(cfg: Config, m: Buckets, a: Attempt, now: int)
    requires Owes(cfg, a) && a.todo != [] && a.refusal.None?
    ensures Owes(cfg, Turn(m, a, At(now)).1)
  {
    hide SubjectTo, TakeBuckets;
    var b := Turn(m, a, At(now)).1;
    if b.refusal.None? {
      forall text | SubjectTo(cfg, a.key, text) && text !in b.paid
        ensures exists i :: 0 <= i < |b.todo| && b.todo[i].key == text
      {
        assert forall x :: x in a.paid ==> x in b.paid;
        var i :| 0 <= i < |a.todo| && a.todo[i].key == text;
        assert b.paid[|a.paid|] == a.todo[0].key;
        assert b.todo[i - 1].key == text;
      }
    }
  }

  /** The store answers every call. */
  ghost predicate Answering(events: seq<Event>) {
    forall i :: 0 <= i < |events| && events[i].Next? ==> events[i].call.At?
  }

  lemma {:induction false} HistoryOwes(cfg: Config, p: Pool, events: seq<Event>, interval: int)
    requires AllOwe(cfg, p.attempts) && Answering(events)
    ensures AllOwe(cfg, History(cfg, p, events, interval).0.attempts)
    decreases |events|
  {
    hide BuildChecks, Owes, TakeBuckets, Cleaned, Turn;
    if events != [] {
      var e := events[0];
      if e.Begin? {
        BeginOwes(cfg, e.key, e.n);
      } else if e.Next? && Waits(p, e.i) {
        TurnOwes(cfg, p.m, p.attempts[e.i], e.call.now);
      }
      HistoryOwes(cfg, PoolStep(cfg, p, e, interval).0, events[1..], interval);
    }
  }

  lemma {:induction false} ThroughPaid(cfg: Config, attempts: seq<Attempt>, text: string)
    requires AllOwe(cfg, attempts)
    ensures Through(cfg, attempts, text) <= TotalPaid(attempts, text)
  {
    hide SubjectTo;
    if attempts != [] {
      var a := attempts[|attempts| - 1];
      ThroughPaid(cfg, attempts[..|attempts| - 1], text);
      assert Owes(cfg, a);
    }
  }

  /** Everything let through obeys the rate of every level it is subject to, over any history of
      interleaved calls and cleanups that begins with no call under way. */
  lemma AdmissionsObeyRate(cfg: Config, m: Buckets, events: seq<Event>, interval: int, text: string, ops: seq<Op>)
    requires cfg.Sane() && Legal(events) && Answering(events)
    requires ops == History(cfg, Pool(m, []), events, interval).1
    requires ops != [] && Ordered(ops, ops[0].now) && WellFormed(m, LimitsOf(cfg), ops[0].now)
    ensures var p := History(cfg, Pool(m, []), events, interval).0;
            WithinRate(Through(cfg, p.attempts, text), LimitOf(cfg, text), ops[|ops| - 1].now - ops[0].now)
  {
    hide History, LimitOf, WithinRate, AllOwe, SubjectTo, WellFormed, RightLimits, Through, TotalPaid, SaneLimits,
        Ordered;
    var start := Pool(m, []);
    var p := History(cfg, start, events, interval).0;
    SaneConfig(cfg);
    NothingUnderWay(cfg, m, text);
    PaymentsObeyRate(cfg, start, events, interval, text, ops);
    HistoryOwes(cfg, start, events, interval);
    ThroughPaid(cfg, p.attempts, text);
    WithinRateLess(Through(cfg, p.attempts, text), TotalPaid(p.attempts, text), LimitOf(cfg, text),
                   ops[|ops| - 1].now - ops[0].now);
  }

  lemma NothingUnderWay(cfg: Config, m: Buckets, text: string)
    ensures AllOwe(cfg, []) && RightLimits(cfg, Pool(m, [])) && TotalPaid([], text) == 0
  {}

  ghost function ThroughAll(attempts: seq<Attempt>): nat {
    if attempts == [] then 0
    else
      var a := attempts[|attempts| - 1];
      ThroughAll(attempts[..|attempts| - 1]) + if a.todo == [] && a.refusal.None? then a.n else 0
  }

  lemma {:induction false} AllSubjectToGlobal(cfg: Config, attempts: seq<Attempt>)
    requires cfg.globalRPS > 0
    ensures Through(cfg, attempts, "s:global") == ThroughAll(attempts)
  {
    if attempts != [] {
      AllSubjectToGlobal(cfg, attempts[..|attempts| - 1]);
      var key := attempts[|attempts| - 1].key;
      assert Tiers(cfg, key)[3].applies && Tiers(cfg, key)[3].text == "s:global";
    }
  }

  lemma GlobalLimitOf(cfg: Config)
    ensures LimitOf(cfg, "s:global") == Limit(cfg.globalRPS, cfg.window, cfg.globalBurst)
  {
    hide KeyString, ParseKey;
    GlobalText();
    ParseKeyString(GLOBAL_KEY);
  }

  /** So all calls together, whoever makes them, obey the configured global rate. */
  lemma TotalObeysGlobalRate(cfg: Config, m: Buckets, events: seq<Event>, interval: int, ops: seq<Op>)
    requires cfg.Sane() && cfg.globalRPS > 0 && Legal(events) && Answering(events)
    requires ops == History(cfg, Pool(m, []), events, interval).1
    requires ops != [] && Ordered(ops, ops[0].now) && WellFormed(m, LimitsOf(cfg), ops[0].now)
    ensures var p := History(cfg, Pool(m, []), events, interval).0;
            WithinRate(ThroughAll(p.attempts), Limit(cfg.globalRPS, cfg.window, cfg.globalBurst),
                       ops[|ops| - 1].now - ops[0].now)
  {
    var p := History(cfg, Pool(m, []), events, interval).0;
    GlobalLimitOf(cfg);
    hide History, ParseKey, WithinRate, LimitOf, WellFormed, Through, ThroughAll, Ordered, Legal, Answering;
    AllSubjectToGlobal(cfg, p.attempts);
    AdmissionsObeyRate(cfg, m, events, interval, "s:global", ops);
  }

  // ---------------------------------------------------------------- an attempt alone

  /** The turns of attempt `i` with given answers of the store. */
  function Turns(i: nat, calls: seq<Call>): seq<Event> {
    seq(|calls|, j requires 0 <= j < |calls| => Next(i, calls[j]))
  }

  /** An attempt whose turns nothing interrupts is the limiter's loop: same store, same refusal, and if
      let through, paid at every level that answered. */
  lemma {:induction false} AloneIsAdmit(cfg: Config, p: Pool, i: nat, calls: seq<Call>, interval: int)
    requires i < |p.attempts| && |calls| == |p.attempts[i].todo| && p.attempts[i].refusal.None?
    ensures var a := p.attempts[i];
            var p' := History(cfg, p, Turns(i, calls), interval).0;
            && |p'.attempts| == |p.attempts|
            && (p'.m, p'.attempts[i].refusal) == Admit(p.m, a.todo, a.n, calls)
            && (forall level :: level in a.paid ==> level in p'.attempts[i].paid)
            && (p'.attempts[i].refusal.None? ==>
                  forall j :: 0 <= j < |calls| && calls[j].At? ==> a.todo[j].key in p'.attempts[i].paid)
    decreases |calls|
  {
    hide TakeBuckets;
    if calls != [] {
      assert Turns(i, calls)[1..] == Turns(i, calls[1..]);
      var p1 := PoolStep(cfg, p, Next(i, calls[0]), interval).0;
      if p1.attempts[i].refusal.None? {
        AloneIsAdmit(cfg, p1, i, calls[1..], interval);
        var todo := p.attempts[i].todo;
        assert forall j :: 1 <= j < |calls| ==> calls[1..][j - 1] == calls[j] && todo[1..][j - 1] == todo[j];
      } else {
        RefusedRests(cfg, p1, i, calls[1..], interval);
      }
    }
  }

  lemma {:induction false} RefusedRests(cfg: Config, p: Pool, i: nat, calls: seq<Call>, interval: int)
    requires i < |p.attempts| && p.attempts[i].refusal.Some?
    ensures History(cfg, p, Turns(i, calls), interval).0 == p
    decreases |calls|
  {
    if calls != [] {
      assert Turns(i, calls)[1..] == Turns(i, calls[1..]);
      RefusedRests(cfg, p, i, calls[1..], interval);
    }
  }
}
