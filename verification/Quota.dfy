/** The quota store and manager: looking up the effective quota, checking a cost against the current
    period's usage, and counting usage. */
module Quota {
  import opened Common
  import opened Calendar
  import opened QuotaKeys
  import Text

  datatype Quota = Quota(tenant: string, user: string, kind: string, limit: int, softLimit: int, period: string,
                         createdAt: int, updatedAt: int)

  datatype Usage = Usage(tenant: string, user: string, kind: string, start: int, end: int, current: int, updated: int) {
    function Remaining(limit: int): (r: int)
      ensures r >= 0 && r >= limit - current && (r > 0 ==> r + current == limit)
    {
      if limit - current < 0 then 0 else limit - current
    }

    function PercentUsed(limit: int): (r: real)
      ensures r * limit as real == if limit == 0 then 0.0 else 100.0 * current as real
      ensures limit == 0 ==> r == 0.0
    {
      if limit == 0 then 0.0 else current as real / limit as real * 100.0
    }
  }

  datatype Config = Config(enabled: bool, defaultDaily: int, defaultMonthly: int, enforceHard: bool, enforceSoft: bool)

  datatype CheckResult = CheckResult(allowed: bool, current: int, limit: int, softLimit: int, remaining: int,
                                     percentUsed: real, resetAt: int, warning: bool, kind: string)

  /** The result a disabled or failing check gives. */
  const UNCHECKED: CheckResult := CheckResult(true, 0, 0, 0, 0, 0.0, ZERO_TIME, false, "")

  /** Billing events queued by a check. */
  datatype Notice = Warning(current: int, softLimit: int, hardLimit: int) | Exceeded(current: int, limit: int)

  type Quotas = map<string, Quota>
  type Usages = map<string, Usage>

  function UsageAt(m: Usages, a: Account): Usage {
    if KeyOf(a) in m then m[KeyOf(a)] else Usage(a.tenant, a.user, a.kind, a.start, ZERO_TIME, 0, ZERO_TIME)
  }

  function Add(m: Usages, a: Account, amount: int, end: int, now: int): Usages {
    var u := if KeyOf(a) in m then m[KeyOf(a)] else Usage(a.tenant, a.user, a.kind, a.start, end, 0, ZERO_TIME);
    m[KeyOf(a) := u.(current := u.current + amount, updated := now)]
  }

  function LookupQuota(m: Quotas, tenant: string, user: string, kind: string): Option<Quota> {
    var k := QuotaKey(tenant, user, kind);
    if k in m then Some(m[k]) else None
  }

  /** One change of the quota definitions. */
  datatype Change = Set(quota: Quota, now: int) | Delete(tenant: string, user: string, kind: string)

  function Changed(m: Quotas, c: Change): Quotas {
    match c
    case Set(q, now) =>
      m[QuotaKey(q.tenant, q.user, q.kind) :=
          q.(createdAt := if q.createdAt == ZERO_TIME then now else q.createdAt, updatedAt := now)]
    case Delete(tenant, user, kind) => m - {QuotaKey(tenant, user, kind)}
  }

  class Store {
    var quotas: Quotas
    var usage: Usages

    constructor ()
      ensures quotas == map[] && usage == map[]
    {
      quotas, usage := map[], map[];
    }

    method SetQuota(quota: Quota, now: int)
      modifies this`quotas
      ensures quotas == Changed(old(quotas), Set(quota, now))
    {
      var q := quota;
      if q.createdAt == ZERO_TIME {
        q := q.(createdAt := now);
      }
      q := q.(updatedAt := now);
      quotas := quotas[QuotaKey(quota.tenant, quota.user, quota.kind) := q];
    }

    method DeleteQuota(tenant: string, user: string, kind: string)
      modifies this`quotas
      ensures quotas == Changed(old(quotas), Delete(tenant, user, kind))
    {
      quotas := quotas - {QuotaKey(tenant, user, kind)};
    }

    method GetUsage(a: Account) returns (u: Usage)
      ensures u == UsageAt(usage, a)
    {
      var key := UsageKey(a.tenant, a.user, a.kind, a.start);
      if key in usage {
        return usage[key];
      }
      return Usage(a.tenant, a.user, a.kind, a.start, ZERO_TIME, 0, ZERO_TIME);
    }

    method IncrementUsage(a: Account, amount: int, end: int, now: int) returns (current: int)
      modifies this`usage
      ensures usage == Add(old(usage), a, amount, end, now)
      ensures current == UsageAt(usage, a).current == UsageAt(old(usage), a).current + amount
    {
      var key := UsageKey(a.tenant, a.user, a.kind, a.start);
      var u := Usage(a.tenant, a.user, a.kind, a.start, end, 0, ZERO_TIME);
      if key in usage {
        u := usage[key];
      }
      u := u.(current := u.current + amount);
      u := u.(updated := now);
      usage := usage[key := u];
      return u.current;
    }
  }

  // ---------------------------------------------------------------- the manager

  function DefaultQuota(cfg: Config, tenant: string, kind: string): Quota {
    if cfg.defaultMonthly > 0 && cfg.defaultDaily == 0
    then Quota(tenant, "", kind, cfg.defaultMonthly, 0, MONTHLY, ZERO_TIME, ZERO_TIME)
    else Quota(tenant, "", kind, cfg.defaultDaily, 0, DAILY, ZERO_TIME, ZERO_TIME)
  }

  /** The user's own quota, else the tenant's, else the configured default. */
  function EffectiveQuota(cfg: Config, quotas: Quotas, tenant: string, user: string, kind: string): Quota {
    var own := if user != "" then LookupQuota(quotas, tenant, user, kind) else None;
    var shared := LookupQuota(quotas, tenant, "", kind);
    if own.Some? then own.value else if shared.Some? then shared.value else DefaultQuota(cfg, tenant, kind)
  }

  /** Whether a cost still fits under a limit. */
  predicate Fits(current: int, cost: int, limit: int) {
    current + cost <= limit
  }

  /** Where a call at `now` is counted: always under the calling user, whoever the quota belongs to. */
  function AccountNow(q: Quota, tenant: string, user: string, kind: string, now: int): Account {
    Account(tenant, user, kind, PeriodBounds(q.period, now).0)
  }

  class Manager {
    const store: Store
    const cfg: Config

    constructor (cfg: Config, store: Store)
      ensures this.cfg == cfg && this.store == store
    {
      this.cfg := cfg;
      this.store := store;
    }

    /** `usageFails` is an error from the usage lookup, on which the check lets the call through. */
    method Check(tenant: string, user: string, kind: string, cost: int, now: int, usageFails: bool)
      returns (r: CheckResult, exceeded: bool, notices: seq<Notice>)
      ensures !cfg.enabled || usageFails ==> r == UNCHECKED && r.allowed && !exceeded && notices == []
      ensures cfg.enabled && !usageFails ==>
                var q := EffectiveQuota(cfg, store.quotas, tenant, user, kind);
                var u := UsageAt(store.usage, AccountNow(q, tenant, user, kind, now));
                var over := !Fits(u.current, cost, q.limit);
                && (exceeded <==> over && cfg.enforceHard)
                && (r.allowed <==> !exceeded)
                && r.current == u.current && r.limit == q.limit && r.softLimit == q.softLimit
                && r.remaining == u.Remaining(q.limit) && r.percentUsed == u.PercentUsed(q.limit)
                && r.resetAt == PeriodBounds(q.period, now).1 && r.kind == kind
                && (r.warning <==> q.softLimit > 0 && !Fits(u.current, cost, q.softLimit))
                && notices == (if r.warning then [Warning(u.current, q.softLimit, q.limit)] else [])
                              + (if over then [Exceeded(u.current, q.limit)] else [])
    {
      notices := [];
      if !cfg.enabled {
        return UNCHECKED, false, notices;
      }
      var q := GetEffectiveQuota(tenant, user, kind);
      var (start, end) := PeriodBounds(q.period, now);
      if usageFails {
        return UNCHECKED, false, notices;
      }
      var u := store.GetUsage(Account(tenant, user, kind, start));
      var newUsage := u.current + cost;
      r := CheckResult(true, u.current, q.limit, q.softLimit, u.Remaining(q.limit), u.PercentUsed(q.limit), end,
                       false, kind);
      if q.softLimit > 0 && newUsage > q.softLimit {
        r := r.(warning := true);
        notices := notices + [Warning(u.current, q.softLimit, q.limit)];
      }
      if newUsage > q.limit {
        r := r.(allowed := false);
        notices := notices + [Exceeded(u.current, q.limit)];
        if cfg.enforceHard {
          return r, true, notices;
        }
        r := r.(allowed := true);
      }
      return r, false, notices;
    }

    method GetEffectiveQuota(tenant: string, user: string, kind: string) returns (q: Quota)
      ensures q == EffectiveQuota(cfg, store.quotas, tenant, user, kind)
    {
      if user != "" {
        var own := LookupQuota(store.quotas, tenant, user, kind);
        if own.Some? {
          return own.value;
        }
      }
      var shared := LookupQuota(store.quotas, tenant, "", kind);
      if shared.Some? {
        return shared.value;
      }
      return DefaultQuota(cfg, tenant, kind);
    }

    /** `storeFails` is an error from the store, which is passed on. */
    method Increment(tenant: string, user: string, kind: string, amount: int, now: int, storeFails: bool)
      returns (failed: bool)
      modifies store`usage
      ensures failed <==> cfg.enabled && storeFails
      ensures !cfg.enabled || storeFails ==> store.usage == old(store.usage)
      ensures cfg.enabled && !storeFails ==>
                var q := EffectiveQuota(cfg, store.quotas, tenant, user, kind);
                store.usage == Add(old(store.usage), AccountNow(q, tenant, user, kind, now), amount,
                                   PeriodBounds(q.period, now).1, now)
    {
      if !cfg.enabled {
        return false;
      }
      var q := GetEffectiveQuota(tenant, user, kind);
      var (start, end) := PeriodBounds(q.period, now);
      if storeFails {
        return true;
      }
      var _ := store.IncrementUsage(Account(tenant, user, kind, start), amount, end, now);
      return false;
    }
  }

  // ---------------------------------------------------------------- usage is the sum of increments

  datatype Increment = Increment(account: Account, amount: int, end: int, now: int)

  function Counted(m: Usages, incs: seq<Increment>): Usages
    decreases |incs|
  {
    if incs == [] then m
    else Counted(Add(m, incs[0].account, incs[0].amount, incs[0].end, incs[0].now), incs[1..])
  }

  function SumFor(incs: seq<Increment>, a: Account): int {
    if incs == [] then 0
    else (if incs[0].account == a then incs[0].amount else 0) + SumFor(incs[1..], a)
  }

  /** An increment moves its own account by its amount and no other account at all. */
  lemma AddTouchesOne(m: Usages, a: Account, amount: int, end: int, now: int, b: Account)
    requires PlainAccount(b) && a.start % SECOND == 0
    ensures UsageAt(Add(m, a, amount, end, now), b).current
            == UsageAt(m, b).current + if a == b then amount else 0
  {
    hide UsageKey;
    if KeyOf(a) == KeyOf(b) {
      UsageKeyInjective(b, a);
    }
  }

  /** What a check reads is exactly the sum of that account's increments, whatever other tenants,
      users, kinds and periods were counted in between. */
  lemma {:induction false} UsageIsSumOfIncrements(m: Usages, incs: seq<Increment>, a: Account)
    requires PlainAccount(a) && WholeStarts(incs)
    ensures UsageAt(Counted(m, incs), a).current == UsageAt(m, a).current + SumFor(incs, a)
    decreases |incs|
  {
    hide UsageAt, Add, PlainAccount;
    if incs != [] {
      var i := incs[0];
      AddTouchesOne(m, i.account, i.amount, i.end, i.now, a);
      UsageIsSumOfIncrements(Add(m, i.account, i.amount, i.end, i.now), incs[1..], a);
    }
  }

  /** What is read for an account is its own increments, over every history, exactly when none of its
      names holds a colon; otherwise its neighbour's increments are added in. */
  lemma CountersSeparateIff(a: Account)
    requires a.start % SECOND == 0
    ensures (forall incs: seq<Increment> :: WholeStarts(incs) ==>
             UsageAt(Counted(map[], incs), a).current == SumFor(incs, a))
       <==> PlainNames(a)
  {
    if PlainNames(a) {
      forall incs: seq<Increment> | WholeStarts(incs)
        ensures UsageAt(Counted(map[], incs), a).current == SumFor(incs, a)
      {
        UsageIsSumOfIncrements(map[], incs, a);
      }
    } else {
      var b := Neighbour(a);
      var incs := [Increment(b, 1, 0, 0)];
      NeighbourCollides(a);
      ColonsShareACounter(a, b, incs);
    }
  }

  ghost predicate WholeStarts(incs: seq<Increment>) {
    forall i :: 0 <= i < |incs| ==> incs[i].account.start % SECOND == 0
  }

  /** Two accounts with one key share a counter: one call of the one is counted for the other. */
  lemma ColonsShareACounter(a: Account, b: Account, incs: seq<Increment>)
    requires a != b && KeyOf(a) == KeyOf(b) && incs == [Increment(b, 1, 0, 0)]
    ensures UsageAt(Counted(map[], incs), a).current == 1 && SumFor(incs, a) == 0
  {
    hide UsageKey;
    assert incs[1..] == [];
  }

  /** After any increments, a hard-enforced check at `now` passes exactly when the sum counted for
      that user in the period of `now`, plus the cost, stays within the limit. */
  method CheckCountsIncrements(mgr: Manager, tenant: string, user: string, kind: string, cost: int, now: int,
                               ghost incs: seq<Increment>)
    returns (exceeded: bool)
    requires mgr.cfg.enabled && mgr.cfg.enforceHard && mgr.store.usage == Counted(map[], incs)
    requires Text.Plain(tenant) && Text.Plain(user) && Text.Plain(kind)
    requires WholeStarts(incs)
    ensures var q := EffectiveQuota(mgr.cfg, mgr.store.quotas, tenant, user, kind);
            exceeded <==> SumFor(incs, AccountNow(q, tenant, user, kind, now)) + cost > q.limit
  {
    hide PeriodBounds;
    ghost var q := EffectiveQuota(mgr.cfg, mgr.store.quotas, tenant, user, kind);
    ghost var a := AccountNow(q, tenant, user, kind, now);
    PeriodStartsAreWhole(q.period, now);
    UsageIsSumOfIncrements(map[], incs, a);
    var r, e, notices := mgr.Check(tenant, user, kind, cost, now, false);
    exceeded := e;
  }

  // ---------------------------------------------------------------- whose quota counts

  function AfterChanges(m: Quotas, cs: seq<Change>): Quotas {
    if cs == [] then m else Changed(AfterChanges(m, cs[..|cs| - 1]), cs[|cs| - 1])
  }

  /** The limits last set for exactly this tenant, user and kind, unless deleted since. */
  function LastSet(cs: seq<Change>, tenant: string, user: string, kind: string): Option<Quota> {
    if cs == [] then None
    else
      var c := cs[|cs| - 1];
      if c.Set? && c.quota.tenant == tenant && c.quota.user == user && c.quota.kind == kind then Some(c.quota)
      else if c == Delete(tenant, user, kind) then None
      else LastSet(cs[..|cs| - 1], tenant, user, kind)
  }

  /** What matters of a quota for a check. */
  predicate SameTerms(a: Quota, b: Quota) {
    a.limit == b.limit && a.softLimit == b.softLimit && a.period == b.period
  }

  lemma {:induction false} LookupIsLastSet(cs: seq<Change>, tenant: string, user: string, kind: string)
    requires Text.Plain(tenant) && Text.Plain(user) && Text.Plain(kind)
    ensures var found, last := LookupQuota(AfterChanges(map[], cs), tenant, user, kind),
        LastSet(cs, tenant, user, kind);
            (found.Some? <==> last.Some?) && (last.Some? ==> SameTerms(found.value, last.value))
  {
    hide QuotaKey;
    if cs != [] {
      LookupIsLastSet(cs[..|cs| - 1], tenant, user, kind);
      var c := cs[|cs| - 1];
      var (x, y, z) := if c.Set? then (c.quota.tenant, c.quota.user, c.quota.kind) else (c.tenant, c.user, c.kind);
      if QuotaKey(tenant, user, kind) == QuotaKey(x, y, z) {
        QuotaKeyInjective(tenant, user, kind, x, y, z);
      }
    }
  }

  /** Whose quota counts, over every history of changes: a user's own if it has one, else the tenant's,
      else the monthly default if only that is configured, else the daily default. */
  lemma OwnQuotaWins(cfg: Config, cs: seq<Change>, tenant: string, user: string, kind: string)
    requires Text.Plain(tenant) && Text.Plain(user) && Text.Plain(kind)
    ensures var q := EffectiveQuota(cfg, AfterChanges(map[], cs), tenant, user, kind);
            var own, shared := LastSet(cs, tenant, user, kind), LastSet(cs, tenant, "", kind);
            if user != "" && own.Some? then SameTerms(q, own.value)
            else if shared.Some? then SameTerms(q, shared.value)
            else if cfg.defaultDaily == 0 && cfg.defaultMonthly > 0
            then q.limit == cfg.defaultMonthly && q.period == "monthly" && q.softLimit == 0
            else q.limit == cfg.defaultDaily && q.period == "daily" && q.softLimit == 0
  {
    hide AfterChanges, LastSet, LookupQuota;
    LookupIsLastSet(cs, tenant, user, kind);
    LookupIsLastSet(cs, tenant, "", kind);
  }

  /** So a hard check of a user with a quota of its own is decided by that quota alone, over every history
      of quota changes and increments. */
  method CheckGoesByOwnQuota(mgr: Manager, tenant: string, user: string, kind: string, cost: int, now: int,
                             ghost cs: seq<Change>, ghost incs: seq<Increment>)
    returns (exceeded: bool)
    requires mgr.cfg.enabled && mgr.cfg.enforceHard && mgr.store.usage == Counted(map[], incs)
    requires mgr.store.quotas == AfterChanges(map[], cs) && user != ""
    requires Text.Plain(tenant) && Text.Plain(user) && Text.Plain(kind) && WholeStarts(incs)
    ensures var own := LastSet(cs, tenant, user, kind);
            own.Some? ==>
              (exceeded <==> SumFor(incs, Account(tenant, user, kind, PeriodBounds(own.value.period, now).0)) + cost
                             > own.value.limit)
  {
    hide AfterChanges, LastSet, Counted, SumFor, PeriodBounds;
    OwnQuotaWins(mgr.cfg, cs, tenant, user, kind);
    exceeded := CheckCountsIncrements(mgr, tenant, user, kind, cost, now, incs);
  }
}
