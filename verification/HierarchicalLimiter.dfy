/** The four-level limiter over the bucket store: tool, user, tenant, global, most specific first,
    stopping at the first refusal and not refunding the levels already debited. */
module HierarchicalLimiter {
  import opened Common
  import opened TokenBucket
  import opened BucketRuns
  import opened RateKeys
  import Text

  datatype Config = Config(enabled: bool, globalRPS: int, globalBurst: int, tenantRPS: int, tenantBurst: int,
                           userRPS: int, userBurst: int, toolRPS: int, toolBurst: int, window: int) {
    function GlobalLimit(): Limit { Limit(globalRPS, window, globalBurst) }
    function TenantLimit(): Limit { Limit(tenantRPS, window, tenantBurst) }
    function UserLimit(): Limit { Limit(userRPS, window, userBurst) }
    function ToolLimit(): Limit { Limit(toolRPS, window, toolBurst) }

    predicate Sane() {
      globalRPS >= 0 && tenantRPS >= 0 && userRPS >= 0 && toolRPS >= 0 && window >= 0
    }
  }

  datatype Check = Check(key: string, limit: Limit)

  /** One store call as the limiter meets it: a store error, or a clock reading. */
  datatype Call = Failed | At(now: int)

  const UNLIMITED: Result := Result(true, 0, ZERO_TIME, NoWait, Limit(0, 0, 0))

  function CheckWhen(on: bool, key: Key, limit: Limit): seq<Check> {
    if on then [Check(KeyString(key), limit)] else []
  }

  function ToolKey(key: Key): Key { Key(key.tenant, key.user, "", key.tool, key.scope) }
  function UserKey(key: Key): Key { Key(key.tenant, key.user, "", "", key.scope) }
  function TenantKey(key: Key): Key { Key(key.tenant, "", "", "", key.scope) }
  const GLOBAL_KEY: Key := Key("", "", "", "", "global")

  function BuildChecks(cfg: Config, key: Key): seq<Check> {
    CheckWhen(key.tool != "" && cfg.toolRPS > 0, ToolKey(key), cfg.ToolLimit())
    + CheckWhen(key.user != "" && cfg.userRPS > 0, UserKey(key), cfg.UserLimit())
    + CheckWhen(key.tenant != "" && cfg.tenantRPS > 0, TenantKey(key), cfg.TenantLimit())
    + CheckWhen(cfg.globalRPS > 0, GLOBAL_KEY, cfg.GlobalLimit())
  }

  /** The store after one admission attempt, and the refusal that ended it, if any. */
  function Admit(m: Buckets, checks: seq<Check>, n: int, calls: seq<Call>): (Buckets, Option<Result>)
    requires |calls| == |checks|
    decreases |checks|
  {
    if checks == [] then (m, None)
    else if calls[0].Failed? then Admit(m, checks[1..], n, calls[1..])
    else
      var (m', r) := TakeBuckets(m, checks[0].key, checks[0].limit, n, calls[0].now);
      if r.allowed then Admit(m', checks[1..], n, calls[1..]) else (m', Some(r))
  }

  /** The answer of a hierarchical peek: the first refusal, or the running worst result. */
  function PeekAll(m: Buckets, checks: seq<Check>, calls: seq<Call>, worst: Result): Result
    requires |calls| == |checks|
    decreases |checks|
  {
    if checks == [] then worst
    else if calls[0].Failed? then PeekAll(m, checks[1..], calls[1..], worst)
    else
      var r := PeekResult(Find(m, checks[0].key), checks[0].limit, calls[0].now);
      if !r.allowed then r
      else PeekAll(m, checks[1..], calls[1..], if r.remaining < worst.remaining || !worst.allowed then r else worst)
  }

  class Limiter {
    const store: MemoryStore
    const cfg: Config

    constructor (cfg: Config, store: MemoryStore)
      ensures this.cfg == cfg && this.store == store
    {
      this.cfg := cfg;
      this.store := store;
    }

    method AllowN(key: Key, n: int, calls: seq<Call>) returns (r: Result, limited: bool)
      requires |calls| == |BuildChecks(cfg, key)|
      modifies store
      ensures !limited ==> r == Result(true, 0, ZERO_TIME, NoWait, Limit(0, 0, 0))
      ensures !cfg.enabled ==> !limited && store.buckets == old(store.buckets)
      ensures cfg.enabled ==>
                var (m, blame) := Admit(old(store.buckets), BuildChecks(cfg, key), n, calls);
                && store.buckets == m
                && limited == blame.Some?
                && (limited ==> r == blame.value)
    {
      if !cfg.enabled {
        return UNLIMITED, false;
      }
      var checks := BuildChecks(cfg, key);
      ghost var goal := Admit(store.buckets, checks, n, calls);
      for i := 0 to |checks|
        invariant Admit(store.buckets, checks[i..], n, calls[i..]) == goal
      {
        var result := store.Take(calls[i].Failed?, if calls[i].Failed? then 0 else calls[i].now,
                                 checks[i].key, checks[i].limit, n);
        assert checks[i..][1..] == checks[i + 1..] && calls[i..][1..] == calls[i + 1..];
        if result.None? {
          continue;
        }
        if !result.value.allowed {
          return result.value, true;
        }
      }
      return UNLIMITED, false;
    }

    method Peek(key: Key, calls: seq<Call>) returns (r: Result)
      requires |calls| == |BuildChecks(cfg, key)|
      ensures !cfg.enabled ==> r == UNLIMITED
      ensures cfg.enabled ==> r == PeekAll(store.buckets, BuildChecks(cfg, key), calls, UNLIMITED)
    {
      if !cfg.enabled {
        return UNLIMITED;
      }
      var checks := BuildChecks(cfg, key);
      var worst := UNLIMITED;
      ghost var goal := PeekAll(store.buckets, checks, calls, UNLIMITED);
      for i := 0 to |checks|
        invariant PeekAll(store.buckets, checks[i..], calls[i..], worst) == goal
      {
        var result := store.Peek(calls[i].Failed?, if calls[i].Failed? then 0 else calls[i].now,
                                 checks[i].key, checks[i].limit);
        assert checks[i..][1..] == checks[i + 1..] && calls[i..][1..] == calls[i + 1..];
        if result.None? {
          continue;
        }
        if !result.value.allowed {
          return result.value;
        }
        if result.value.remaining < worst.remaining || !worst.allowed {
          worst := result.value;
        }
      }
      return worst;
    }
  }

  // ---------------------------------------------------------------- the levels of one request never collide

  ghost predicate Distinct(checks: seq<Check>) {
    forall i, j :: 0 <= i < j < |checks| ==> checks[i].key != checks[j].key
  }

  lemma {:induction false} JoinConcat(a: seq<string>, b: seq<string>)
    requires a != [] && b != []
    ensures Text.Join(a + b) == Text.Join(a) + ":" + Text.Join(b)
  {
    if |a| == 1 {
      JoinCons(a[0], b);
      assert a + b == [a[0]] + b;
    } else {
      assert (a + b)[1..] == a[1..] + b && (a + b)[0] == a[0];
      JoinConcat(a[1..], b);
      var x, y, z := a[0] + ":", Text.Join(a[1..]), ":" + Text.Join(b);
      assert Text.Join(a[1..]) + ":" + Text.Join(b) == y + z;
      assert x + (y + z) == (x + y) + z;
    }
  }

  lemma {:induction false} LabelledEmpty(fs: seq<Field>)
    ensures Labelled(fs) == [] <==> fs == []
  {}

  /** The text of more fields is longer, and keeps the text of the first ones. */
  lemma ExtendedText(fs: seq<Field>, more: seq<Field>)
    requires fs != [] && more != []
    ensures Text.Join(Labelled(fs + more)) == Text.Join(Labelled(fs)) + ":" + Text.Join(Labelled(more))
  {
    LabelledConcat(fs, more);
    LabelledEmpty(fs);
    LabelledEmpty(more);
    JoinConcat(Labelled(fs), Labelled(more));
  }

  lemma KeyTextGrows(small: Key, big: Key, more: seq<Field>)
    requires Fields(small) != [] && more != [] && Fields(big) == Fields(small) + more
    ensures |KeyString(small)| < |KeyString(big)|
  {
    ExtendedText(Fields(small), more);
  }

  /** A text that does not start with `s` is not "s:global". */
  lemma NotGlobalHead(fs: seq<Field>)
    requires fs != [] && |fs[0].0| > 0 && fs[0].0[0] != 's'
    ensures Text.Join(Labelled(fs))[..1] != "s"
    ensures Text.Join(Labelled(fs)) != "s:global"
  {
    var rest := Labelled(fs[1..]);
    if rest != [] {
      JoinCons(Label(fs[0]), rest);
    } else {
      assert Labelled(fs) == [Label(fs[0])];
    }
    assert Text.Join(Labelled(fs))[0] == fs[0].0[0];
  }

  /** Neither is a text with a second field after the scope. */
  lemma NotGlobalTail(scope: string, more: seq<Field>)
    requires scope != "" && more != []
    ensures Text.Join(Labelled([("s", scope)] + more)) != "s:global"
  {
    ExtendedText([("s", scope)], more);
    assert Labelled([("s", scope)]) == [Label(("s", scope))];
    var head := "s" + ":" + scope;
    var s := Text.Join(Labelled([("s", scope)] + more));
    assert s == head + ":" + Text.Join(Labelled(more));
    assert |head| >= 3 && s[|head|] == ':';
    var g := "s:global";
    assert |g| == 8;
    assert |head| < 8 ==> g[|head|] != ':';
  }

  lemma GlobalText()
    ensures KeyString(GLOBAL_KEY) == "s:global"
  {
    assert Fields(GLOBAL_KEY) == [("s", "global")];
    assert Labelled([("s", "global")]) == [Label(("s", "global"))];
    assert "s" + ":" + "global" == "s:global";
  }

  lemma NotGlobal(k: Key)
    requires k.team == "" && (k.tenant != "" || k.user != "" || k.tool != "")
    ensures KeyString(k) != "s:global"
  {
    var more := FieldOf("t", k.tenant) + FieldOf("tm", k.team) + FieldOf("u", k.user) + FieldOf("tl", k.tool);
    assert Fields(k) == FieldOf("s", k.scope) + more;
    assert more != [];
    if k.scope == "" {
      assert Fields(k) == more;
      assert more[0].0 == "t" || more[0].0 == "u" || more[0].0 == "tl";
      NotGlobalHead(more);
    } else {
      NotGlobalTail(k.scope, more);
    }
  }

  lemma ToolAboveUser(key: Key)
    requires key.tool != "" && key.user != ""
    ensures KeyString(ToolKey(key)) != KeyString(UserKey(key))
  {
    assert Fields(ToolKey(key)) == Fields(UserKey(key)) + FieldOf("tl", key.tool);
    KeyTextGrows(UserKey(key), ToolKey(key), FieldOf("tl", key.tool));
  }

  lemma ToolAboveTenant(key: Key)
    requires key.tool != "" && key.tenant != ""
    ensures KeyString(ToolKey(key)) != KeyString(TenantKey(key))
  {
    var more := FieldOf("u", key.user) + FieldOf("tl", key.tool);
    assert Fields(ToolKey(key)) == Fields(TenantKey(key)) + more;
    KeyTextGrows(TenantKey(key), ToolKey(key), more);
  }

  lemma UserAboveTenant(key: Key)
    requires key.user != "" && key.tenant != ""
    ensures KeyString(UserKey(key)) != KeyString(TenantKey(key))
  {
    assert Fields(UserKey(key)) == Fields(TenantKey(key)) + FieldOf("u", key.user);
    KeyTextGrows(TenantKey(key), UserKey(key), FieldOf("u", key.user));
  }

  /** Whatever the fields hold, the levels consulted for one request have different storage keys. */
  lemma ChecksDistinct(cfg: Config, key: Key)
    ensures Distinct(BuildChecks(cfg, key))
  {
    hide KeyString;
    GlobalText();
    if key.tool != "" { NotGlobal(ToolKey(key)); }
    if key.user != "" { NotGlobal(UserKey(key)); }
    if key.tenant != "" { NotGlobal(TenantKey(key)); }
    if key.tool != "" && key.user != "" { ToolAboveUser(key); }
    if key.tool != "" && key.tenant != "" { ToolAboveTenant(key); }
    if key.user != "" && key.tenant != "" { UserAboveTenant(key); }
  }

  // ---------------------------------------------------------------- what an attempt debits

  /** The first level whose balance, in the store as it stands, is below `n`. */
  function FirstRefusal(m: Buckets, checks: seq<Check>, n: int, calls: seq<Call>): (i: nat)
    requires |calls| == |checks|
    ensures i <= |checks|
    ensures i < |checks| ==> calls[i].At?
    decreases |checks|
  {
    if checks == [] then 0
    else if calls[0].At? && Level(Find(m, checks[0].key), checks[0].limit, calls[0].now) < n as real then 0
    else 1 + FirstRefusal(m, checks[1..], n, calls[1..])
  }

  lemma {:induction false} FirstRefusalFrame(m: Buckets, m': Buckets, checks: seq<Check>, n: int, calls: seq<Call>)
    requires |calls| == |checks|
    requires forall i :: 0 <= i < |checks| ==> Find(m', checks[i].key) == Find(m, checks[i].key)
    ensures FirstRefusal(m', checks, n, calls) == FirstRefusal(m, checks, n, calls)
    decreases |checks|
  {
    if checks != [] {
      assert Find(m', checks[0].key) == Find(m, checks[0].key);
      FirstRefusalFrame(m, m', checks[1..], n, calls[1..]);
    }
  }

  ghost predicate Debited(m: Buckets, m': Buckets, c: Check, now: int, amount: int) {
    Level(Find(m', c.key), c.limit, now) == Level(Find(m, c.key), c.limit, now) - amount as real
  }

  /** Keys the attempt got to: those up to and including the first refusal that the store answered for. */
  ghost predicate Reached(m: Buckets, checks: seq<Check>, n: int, calls: seq<Call>, key: string)
    requires |calls| == |checks|
  {
    exists i :: 0 <= i < |checks| && checks[i].key == key && i <= FirstRefusal(m, checks, n, calls) && calls[i].At?
  }

  /** An attempt leaves every key it did not reach alone. */
  lemma {:induction false} AdmitFrame(m: Buckets, checks: seq<Check>, n: nat, calls: seq<Call>, key: string)
    requires |calls| == |checks| && Distinct(checks) && !Reached(m, checks, n, calls, key)
    ensures Find(Admit(m, checks, n, calls).0, key) == Find(m, key)
    decreases |checks|
  {
    if checks != [] {
      var rest, restCalls := checks[1..], calls[1..];
      var stop := FirstRefusal(m, checks, n, calls);
      assert forall i :: 0 <= i < |rest| ==> rest[i] == checks[i + 1] && restCalls[i] == calls[i + 1];
      if calls[0].Failed? {
        AdmitFrame(m, rest, n, restCalls, key);
      } else {
        TakeDebits(m, checks[0], n, calls[0].now);
        assert checks[0].key != key;
        if stop > 0 {
          var m1 := TakeBuckets(m, checks[0].key, checks[0].limit, n, calls[0].now).0;
          FirstRefusalFrame(m, m1, rest, n, restCalls);
          AdmitFrame(m1, rest, n, restCalls, key);
        }
      }
    }
  }

  /** An attempt stops at the first level that cannot pay, and blames it. */
  lemma {:induction false} AdmitStops(m: Buckets, checks: seq<Check>, n: nat, calls: seq<Call>)
    requires |calls| == |checks| && Distinct(checks)
    ensures var blame := Admit(m, checks, n, calls).1;
            var stop := FirstRefusal(m, checks, n, calls);
            && (blame.None? <==> stop == |checks|)
            && (stop < |checks| ==>
                  blame.value == TakeResult(Level(Find(m, checks[stop].key), checks[stop].limit, calls[stop].now),
                                            checks[stop].limit, n, calls[stop].now))
    decreases |checks|
  {
    hide Level, TakeResult;
    if checks != [] {
      var rest, restCalls := checks[1..], calls[1..];
      assert forall i :: 0 <= i < |rest| ==> rest[i] == checks[i + 1] && restCalls[i] == calls[i + 1];
      if calls[0].Failed? {
        AdmitStops(m, rest, n, restCalls);
      } else {
        TakeDebits(m, checks[0], n, calls[0].now);
        var m1 := TakeBuckets(m, checks[0].key, checks[0].limit, n, calls[0].now).0;
        FirstRefusalFrame(m, m1, rest, n, restCalls);
        AdmitStops(m1, rest, n, restCalls);
        var stop := FirstRefusal(m, checks, n, calls);
        if 0 < stop < |checks| {
          assert Find(m1, checks[stop].key) == Find(m, checks[stop].key);
        }
      }
    }
  }

  lemma FirstLevelDebited(m: Buckets, checks: seq<Check>, n: nat, calls: seq<Call>)
    requires |calls| == |checks| && Distinct(checks) && checks != [] && calls[0].At?
    ensures Debited(m, Admit(m, checks, n, calls).0, checks[0], calls[0].now,
                    if FirstRefusal(m, checks, n, calls) > 0 then n else 0)
  {
    hide Level, TakeResult;
    var rest, restCalls := checks[1..], calls[1..];
    assert forall j :: 0 <= j < |rest| ==> rest[j] == checks[j + 1];
    TakeDebits(m, checks[0], n, calls[0].now);
    var m1 := TakeBuckets(m, checks[0].key, checks[0].limit, n, calls[0].now).0;
    if FirstRefusal(m, checks, n, calls) > 0 {
      AdmitFrame(m1, rest, n, restCalls, checks[0].key);
    }
  }

  /** The store after the first level was asked. */
  function AfterFirst(m: Buckets, checks: seq<Check>, n: int, calls: seq<Call>): Buckets
    requires |calls| == |checks| && checks != []
  {
    if calls[0].Failed? then m else TakeBuckets(m, checks[0].key, checks[0].limit, n, calls[0].now).0
  }

  /** If the first level did not refuse, the rest of the attempt is an attempt on the rest. */
  lemma AdmitRest(m: Buckets, checks: seq<Check>, n: nat, calls: seq<Call>)
    requires |calls| == |checks| && Distinct(checks) && FirstRefusal(m, checks, n, calls) > 0
    ensures checks != []
    ensures var m1 := AfterFirst(m, checks, n, calls);
            && Admit(m, checks, n, calls) == Admit(m1, checks[1..], n, calls[1..])
            && FirstRefusal(m, checks, n, calls) == 1 + FirstRefusal(m1, checks[1..], n, calls[1..])
            && (forall j :: 0 < j < |checks| ==> Find(m1, checks[j].key) == Find(m, checks[j].key))
  {
    hide Level, TakeResult;
    if calls[0].At? {
      TakeDebits(m, checks[0], n, calls[0].now);
      FirstRefusalFrame(m, AfterFirst(m, checks, n, calls), checks[1..], n, calls[1..]);
    }
  }

  /** It debits `n` from every level before that one, and nothing from that one. */
  lemma {:induction false} AdmitDebits(m: Buckets, checks: seq<Check>, n: nat, calls: seq<Call>, i: nat)
    requires |calls| == |checks| && Distinct(checks)
    requires i < |checks| && i <= FirstRefusal(m, checks, n, calls) && calls[i].At?
    ensures Debited(m, Admit(m, checks, n, calls).0, checks[i], calls[i].now,
                    if i < FirstRefusal(m, checks, n, calls) then n else 0)
    decreases |checks|
  {
    hide Level, TakeBuckets, FirstRefusal, Admit, AfterFirst;
    if i == 0 {
      FirstLevelDebited(m, checks, n, calls);
    } else {
      AdmitRest(m, checks, n, calls);
      AdmitDebits(AfterFirst(m, checks, n, calls), checks[1..], n, calls[1..], i - 1);
    }
  }

  lemma TakeDebits(m: Buckets, c: Check, n: nat, now: int)
    ensures var (m', r) := TakeBuckets(m, c.key, c.limit, n, now);
            && Debited(m, m', c, now, if r.allowed then n else 0)
            && (r.allowed <==> Level(Find(m, c.key), c.limit, now) >= n as real)
            && forall key :: key != c.key ==> Find(m', key) == Find(m, key)
  {
    var m' := TakeBuckets(m, c.key, c.limit, n, now).0;
    LevelWhenWritten(m'[c.key].tokens, now, m'[c.key].limit, c.limit);
  }

  /** The whole limiter: an allowed request is debited at every applicable level and nowhere else; a
      request refused at one level has paid exactly the more specific ones, without refund. */
  lemma AllowDebits(cfg: Config, m: Buckets, key: Key, n: nat, clock: seq<int>)
    requires |clock| == |BuildChecks(cfg, key)|
    ensures var checks := BuildChecks(cfg, key);
            var calls := Readings(clock);
            var (m', blame) := Admit(m, checks, n, calls);
            var stop := FirstRefusal(m, checks, n, calls);
            && (blame.None? <==> stop == |checks|)
            && (blame.Some? ==> blame.value.limit == checks[stop].limit)
            && (forall i :: 0 <= i < stop ==> Debited(m, m', checks[i], clock[i], n))
            && (stop < |checks| ==> Debited(m, m', checks[stop], clock[stop], 0))
            && (forall k :: (forall i :: 0 <= i < |checks| && i <= stop ==> checks[i].key != k) ==>
                              Find(m', k) == Find(m, k))
  {
    hide BuildChecks;
    var checks, calls := BuildChecks(cfg, key), Readings(clock);
    var stop := FirstRefusal(m, checks, n, calls);
    ChecksDistinct(cfg, key);
    AdmitStops(m, checks, n, calls);
    forall i | 0 <= i < |checks| && i <= stop
      ensures Debited(m, Admit(m, checks, n, calls).0, checks[i], clock[i], if i < stop then n else 0)
    {
      AdmitDebits(m, checks, n, calls, i);
    }
    forall k | forall i :: 0 <= i < |checks| && i <= stop ==> checks[i].key != k
      ensures Find(Admit(m, checks, n, calls).0, k) == Find(m, k)
    {
      AdmitFrame(m, checks, n, calls, k);
    }
  }

  function Readings(clock: seq<int>): seq<Call> {
    seq(|clock|, i requires 0 <= i < |clock| => At(clock[i]))
  }

  // ---------------------------------------------------------------- peeking predicts allowing

  ghost predicate Positive(checks: seq<Check>) {
    forall i :: 0 <= i < |checks| ==> checks[i].limit.requests >= 1
  }

  lemma BuildChecksPositive(cfg: Config, key: Key)
    ensures Positive(BuildChecks(cfg, key))
  {
    hide KeyString;
  }

  /** A peek refuses exactly where an allow of one token would, and otherwise reports no minimum:
      it returns the zero result it started from. */
  lemma {:induction false} PeekPredicts(m: Buckets, checks: seq<Check>, calls: seq<Call>)
    requires |calls| == |checks| && Positive(checks)
    ensures var stop := FirstRefusal(m, checks, 1, calls);
            PeekAll(m, checks, calls, UNLIMITED)
            == if stop == |checks| then UNLIMITED
               else PeekResult(Find(m, checks[stop].key), checks[stop].limit, calls[stop].now)
    decreases |checks|
  {
    if checks != [] {
      assert checks[0].limit.requests >= 1;
      assert forall i :: 0 <= i < |checks[1..]| ==> checks[1..][i] == checks[i + 1];
      PeekPredicts(m, checks[1..], calls[1..]);
    }
  }

  /** At one instant, a peek allows exactly when an allow would, and both blame the same level. */
  lemma PeekAgreesWithAllow(cfg: Config, m: Buckets, key: Key, calls: seq<Call>)
    requires |calls| == |BuildChecks(cfg, key)|
    ensures var checks := BuildChecks(cfg, key);
            var blame := Admit(m, checks, 1, calls).1;
            var peek := PeekAll(m, checks, calls, UNLIMITED);
            && (peek.allowed <==> blame.None?)
            && (blame.Some? ==> peek.limit == blame.value.limit && peek.resetAt == blame.value.resetAt
                                && peek.remaining == blame.value.remaining)
  {
    var checks := BuildChecks(cfg, key);
    ChecksDistinct(cfg, key);
    BuildChecksPositive(cfg, key);
    AdmitStops(m, checks, 1, calls);
    PeekPredicts(m, checks, calls);
    FirstRefusalIsRefusal(m, checks, 1, calls);
  }

  lemma {:induction false} FirstRefusalIsRefusal(m: Buckets, checks: seq<Check>, n: int, calls: seq<Call>)
    requires |calls| == |checks|
    ensures var i := FirstRefusal(m, checks, n, calls);
            i < |checks| ==> Level(Find(m, checks[i].key), checks[i].limit, calls[i].now) < n as real
    decreases |checks|
  {
    if checks != [] {
      FirstRefusalIsRefusal(m, checks[1..], n, calls[1..]);
    }
  }
}
