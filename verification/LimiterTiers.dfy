/** Which levels a request is subject to, in the terms of the configuration, and what the limiter does
    about them. */
module LimiterTiers {
  import opened Common
  import opened TokenBucket
  import opened BucketRuns
  import opened RateKeys
  import opened HierarchicalLimiter

  /** The levels of a request, most specific first: whether it applies, its storage key and its limit. */
  datatype Tier = Tier(applies: bool, text: string, limit: Limit)

  function ToolTier(cfg: Config, key: Key): Tier {
    Tier(key.tool != "" && cfg.toolRPS > 0, KeyString(Key(key.tenant, key.user, "", key.tool, key.scope)),
         Limit(cfg.toolRPS, cfg.window, cfg.toolBurst))
  }

  function UserTier(cfg: Config, key: Key): Tier {
    Tier(key.user != "" && cfg.userRPS > 0, KeyString(Key(key.tenant, key.user, "", "", key.scope)),
         Limit(cfg.userRPS, cfg.window, cfg.userBurst))
  }

  function TenantTier(cfg: Config, key: Key): Tier {
    Tier(key.tenant != "" && cfg.tenantRPS > 0, KeyString(Key(key.tenant, "", "", "", key.scope)),
         Limit(cfg.tenantRPS, cfg.window, cfg.tenantBurst))
  }

  function GlobalTier(cfg: Config): Tier {
    Tier(cfg.globalRPS > 0, "s:global", Limit(cfg.globalRPS, cfg.window, cfg.globalBurst))
  }

  function Tiers(cfg: Config, key: Key): seq<Tier> {
    [ToolTier(cfg, key), UserTier(cfg, key), TenantTier(cfg, key), GlobalTier(cfg)]
  }

  /** Whether a request is subject to the level with this storage key. */
  ghost predicate SubjectTo(cfg: Config, key: Key, text: string) {
    exists i :: 0 <= i < 4 && Tiers(cfg, key)[i].applies && Tiers(cfg, key)[i].text == text
  }

  /** A request as the limiter handles it, each level asked at its own reading of the clock. */
  function Allow(cfg: Config, m: Buckets, key: Key, n: int, clock: string -> int): (Buckets, Option<Result>) {
    var checks := BuildChecks(cfg, key);
    Admit(m, checks, n, CallsAt(checks, clock))
  }

  function CallsAt(checks: seq<Check>, clock: string -> int): seq<Call> {
    seq(|checks|, i requires 0 <= i < |checks| => At(clock(checks[i].key)))
  }

  /** Asking the levels in turn, told without a list of checks: a level that does not apply is passed over,
      one that cannot pay ends the attempt, any other is debited. */
  function AskInTurn(m: Buckets, tiers: seq<Tier>, n: int, clock: string -> int): (Buckets, Option<Result>)
    decreases |tiers|
  {
    if tiers == [] then (m, None)
    else if !tiers[0].applies then AskInTurn(m, tiers[1..], n, clock)
    else
      var (m', r) := TakeBuckets(m, tiers[0].text, tiers[0].limit, n, clock(tiers[0].text));
      if r.allowed then AskInTurn(m', tiers[1..], n, clock) else (m', Some(r))
  }

  function CheckFor(t: Tier): seq<Check> {
    if t.applies then [Check(t.text, t.limit)] else []
  }

  function ChecksOf(tiers: seq<Tier>): seq<Check> {
    if tiers == [] then [] else CheckFor(tiers[0]) + ChecksOf(tiers[1..])
  }

  lemma FourChecks(a: Tier, b: Tier, c: Tier, d: Tier)
    ensures ChecksOf([a, b, c, d]) == CheckFor(a) + CheckFor(b) + CheckFor(c) + CheckFor(d)
  {
    hide CheckFor;
    var x, y, z, w := CheckFor(a), CheckFor(b), CheckFor(c), CheckFor(d);
    assert [d][1..] == [] && [c, d][1..] == [d] && [b, c, d][1..] == [c, d] && [a, b, c, d][1..] == [b, c, d];
    assert ChecksOf([d]) == w + ChecksOf([]) == w;
    assert ChecksOf([c, d]) == z + w;
    assert ChecksOf([b, c, d]) == y + (z + w);
    assert x + (y + (z + w)) == x + y + z + w;
  }

  lemma BuildsTiers(cfg: Config, key: Key)
    ensures BuildChecks(cfg, key) == ChecksOf(Tiers(cfg, key))
  {
    hide KeyString, ChecksOf;
    GlobalText();
    FourChecks(ToolTier(cfg, key), UserTier(cfg, key), TenantTier(cfg, key), GlobalTier(cfg));
  }

  lemma {:induction false} AdmitAsksInTurn(m: Buckets, tiers: seq<Tier>, n: int, clock: string -> int)
    ensures Admit(m, ChecksOf(tiers), n, CallsAt(ChecksOf(tiers), clock)) == AskInTurn(m, tiers, n, clock)
    decreases |tiers|
  {
    hide TakeBuckets;
    if tiers != [] {
      var rest := ChecksOf(tiers[1..]);
      var checks := ChecksOf(tiers);
      if tiers[0].applies {
        assert checks[1..] == rest && CallsAt(checks, clock)[1..] == CallsAt(rest, clock);
        var m' := TakeBuckets(m, tiers[0].text, tiers[0].limit, n, clock(tiers[0].text)).0;
        AdmitAsksInTurn(m', tiers[1..], n, clock);
      } else {
        assert checks == rest;
        AdmitAsksInTurn(m, tiers[1..], n, clock);
      }
    }
  }

  /** A level that applies and has less than `n`. */
  ghost predicate Short(m: Buckets, t: Tier, n: int, clock: string -> int) {
    t.applies && Level(Find(m, t.text), t.limit, clock(t.text)) < n as real
  }

  ghost predicate TiersDistinct(tiers: seq<Tier>) {
    forall i, j :: 0 <= i < j < |tiers| && tiers[i].applies && tiers[j].applies ==> tiers[i].text != tiers[j].text
  }

  /** The first short level, or none. */
  ghost predicate StopsAt(m: Buckets, tiers: seq<Tier>, n: int, clock: string -> int, stop: nat) {
    && stop <= |tiers|
    && (forall i :: 0 <= i < stop ==> !Short(m, tiers[i], n, clock))
    && (stop < |tiers| ==> Short(m, tiers[stop], n, clock))
  }

  ghost predicate PaidAt(m: Buckets, m': Buckets, t: Tier, amount: int, clock: string -> int) {
    Level(Find(m', t.text), t.limit, clock(t.text)) == Level(Find(m, t.text), t.limit, clock(t.text)) - amount as real
  }

  ghost predicate Asked(tiers: seq<Tier>, count: int, text: string) {
    exists i :: 0 <= i < |tiers| && i < count && tiers[i].applies && tiers[i].text == text
  }

  /** Storage keys other than those of the first `count` levels are as they were. */
  ghost predicate OthersKept(m: Buckets, m': Buckets, tiers: seq<Tier>, count: int) {
    forall text :: !Asked(tiers, count, text) ==> Find(m', text) == Find(m, text)
  }

  /** What asking in turn comes to. */
  lemma {:induction false} TurnsPay(m: Buckets, tiers: seq<Tier>, n: nat, clock: string -> int) returns (stop: nat)
    requires TiersDistinct(tiers)
    ensures StopsAt(m, tiers, n, clock, stop)
    ensures var (m', blame) := AskInTurn(m, tiers, n, clock);
            && (blame.None? <==> stop == |tiers|)
            && (blame.Some? ==> !blame.value.allowed && blame.value.limit == tiers[stop].limit)
            && (forall i :: 0 <= i < stop && tiers[i].applies ==> PaidAt(m, m', tiers[i], n, clock))
            && (stop < |tiers| ==> PaidAt(m, m', tiers[stop], 0, clock))
            && OthersKept(m, m', tiers, stop + 1)
    decreases |tiers|
  {
    if tiers == [] {
      stop := 0;
    } else {
      var t, rest := tiers[0], tiers[1..];
      if !t.applies {
        stop := TurnsPay(m, rest, n, clock);
        stop := stop + 1;
        PassedOver(m, AskInTurn(m, rest, n, clock).0, tiers, n, clock, stop - 1);
      } else {
        TakeDebits(m, Check(t.text, t.limit), n, clock(t.text));
        var (m1, r) := TakeBuckets(m, t.text, t.limit, n, clock(t.text));
        if r.allowed {
          stop := TurnsPay(m1, rest, n, clock);
          stop := stop + 1;
          PaidFirst(m, m1, AskInTurn(m1, rest, n, clock).0, tiers, n, clock, stop - 1);
        } else {
          stop := 0;
          RefusedFirst(m, m1, tiers, n, clock);
        }
      }
    }
  }

  lemma PassedOver(m: Buckets, m': Buckets, tiers: seq<Tier>, n: nat, clock: string -> int, stop: nat)
    requires tiers != [] && !tiers[0].applies && StopsAt(m, tiers[1..], n, clock, stop)
    requires forall i :: 0 <= i < stop && tiers[1..][i].applies ==> PaidAt(m, m', tiers[1..][i], n, clock)
    requires OthersKept(m, m', tiers[1..], stop + 1)
    ensures StopsAt(m, tiers, n, clock, stop + 1)
    ensures forall i :: 0 <= i < stop + 1 && tiers[i].applies ==> PaidAt(m, m', tiers[i], n, clock)
    ensures OthersKept(m, m', tiers, stop + 2)
  {
    hide Short, PaidAt;
    assert forall i :: 1 <= i < |tiers| ==> tiers[i] == tiers[1..][i - 1];
    NotShort(m, tiers[0], n, clock);
    AskedLater(tiers, stop + 1, stop + 2);
  }

  lemma NotShort(m: Buckets, t: Tier, n: int, clock: string -> int)
    requires !t.applies
    ensures !Short(m, t, n, clock)
  {}

  lemma PaidFirst(m: Buckets, m1: Buckets, m': Buckets, tiers: seq<Tier>, n: nat, clock: string -> int, stop: nat)
    requires tiers != [] && tiers[0].applies && TiersDistinct(tiers) && StopsAt(m1, tiers[1..], n, clock, stop)
    requires !Short(m, tiers[0], n, clock) && PaidAt(m, m1, tiers[0], n, clock)
    requires forall text :: text != tiers[0].text ==> Find(m1, text) == Find(m, text)
    requires forall i :: 0 <= i < stop && tiers[1..][i].applies ==> PaidAt(m1, m', tiers[1..][i], n, clock)
    requires stop < |tiers[1..]| ==> PaidAt(m1, m', tiers[1..][stop], 0, clock)
    requires OthersKept(m1, m', tiers[1..], stop + 1)
    ensures StopsAt(m, tiers, n, clock, stop + 1)
    ensures forall i :: 0 <= i < stop + 1 && tiers[i].applies ==> PaidAt(m, m', tiers[i], n, clock)
    ensures stop + 1 < |tiers| ==> PaidAt(m, m', tiers[stop + 1], 0, clock)
    ensures OthersKept(m, m', tiers, stop + 2)
  {
    hide Level;
    var rest := tiers[1..];
    forall i | 1 <= i < |tiers| && tiers[i].applies
      ensures Find(m1, tiers[i].text) == Find(m, tiers[i].text)
    {}
    assert !Asked(rest, stop + 1, tiers[0].text);
    AskedLater(tiers, stop + 1, stop + 2);
    ShortKept(m, m1, tiers, n, clock, stop);
    forall i | 1 <= i < |tiers| && tiers[i].applies && i <= stop
      ensures PaidAt(m, m', tiers[i], n, clock)
    {
      assert PaidAt(m1, m', rest[i - 1], n, clock);
    }
    assert Asked(tiers, stop + 2, tiers[0].text);
  }

  lemma ShortKept(m: Buckets, m1: Buckets, tiers: seq<Tier>, n: nat, clock: string -> int, stop: nat)
    requires tiers != [] && !Short(m, tiers[0], n, clock) && StopsAt(m1, tiers[1..], n, clock, stop)
    requires forall i :: 1 <= i < |tiers| && tiers[i].applies ==> Find(m1, tiers[i].text) == Find(m, tiers[i].text)
    ensures StopsAt(m, tiers, n, clock, stop + 1)
  {
    hide Level;
    assert forall i :: 1 <= i < |tiers| ==> tiers[i] == tiers[1..][i - 1];
  }

  lemma AskedLater(tiers: seq<Tier>, count: int, more: int)
    requires tiers != [] && more == count + 1
    ensures forall text :: Asked(tiers[1..], count, text) ==> Asked(tiers, more, text)
  {
    forall text | Asked(tiers[1..], count, text) ensures Asked(tiers, more, text) {
      var i :| 0 <= i < |tiers[1..]| && i < count && tiers[1..][i].applies && tiers[1..][i].text == text;
      assert tiers[i + 1].text == text;
    }
  }

  lemma RefusedFirst(m: Buckets, m1: Buckets, tiers: seq<Tier>, n: nat, clock: string -> int)
    requires tiers != [] && Short(m, tiers[0], n, clock)
    requires forall text :: text != tiers[0].text ==> Find(m1, text) == Find(m, text)
    ensures StopsAt(m, tiers, n, clock, 0)
    ensures OthersKept(m, m1, tiers, 1)
  {
    hide Level;
    assert Asked(tiers, 1, tiers[0].text);
  }

  lemma TiersOfRequestDistinct(cfg: Config, key: Key)
    ensures TiersDistinct(Tiers(cfg, key))
  {
    hide KeyString;
    if key.tool != "" { NotGlobal(ToolKey(key)); }
    if key.user != "" { NotGlobal(UserKey(key)); }
    if key.tenant != "" { NotGlobal(TenantKey(key)); }
    if key.tool != "" && key.user != "" { ToolAboveUser(key); }
    if key.tool != "" && key.tenant != "" { ToolAboveTenant(key); }
    if key.user != "" && key.tenant != "" { UserAboveTenant(key); }
  }

  /** The whole limiter, in the terms of the configuration: a request is let through exactly when none of
      its tool, user, tenant and global levels that apply is short, and then pays `n` at each of them; else
      it is refused with the limit of the first short one, having paid those before it; all other
      storage keys are as they were. */
  lemma AllowPaysItsTiers(cfg: Config, m: Buckets, key: Key, n: nat, clock: string -> int) returns (stop: nat)
    ensures var tiers := Tiers(cfg, key);
            var (m', blame) := Allow(cfg, m, key, n, clock);
            && StopsAt(m, tiers, n, clock, stop)
            && (blame.None? <==> stop == 4)
            && (blame.Some? ==> !blame.value.allowed && blame.value.limit == tiers[stop].limit)
            && (forall i :: 0 <= i < stop && tiers[i].applies ==> PaidAt(m, m', tiers[i], n, clock))
            && (stop < 4 ==> PaidAt(m, m', tiers[stop], 0, clock))
            && OthersKept(m, m', tiers, stop + 1)
  {
    hide BuildChecks, Level, ToolTier, UserTier, TenantTier, GlobalTier;
    TiersOfRequestDistinct(cfg, key);
    BuildsTiers(cfg, key);
    AdmitAsksInTurn(m, Tiers(cfg, key), n, clock);
    stop := TurnsPay(m, Tiers(cfg, key), n, clock);
  }
}
