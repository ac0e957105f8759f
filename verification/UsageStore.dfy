/** The in-memory usage store: filtering, newest-first paging, summaries and retention. */
module UsageStore {
  import opened Common

  datatype Event = Event(id: string, timestamp: int, tenant: string, user: string, tool: string, server: string,
                         duration: int, tokensIn: int, tokensOut: int, success: bool, errorCode: string,
                         metadata: map<string, string>)

  datatype Params = Params(tenant: string, user: string, tool: string, start: int, end: int, limit: int, offset: int)

  datatype Totals = Totals(total: int, successes: int, errors: int, tokensIn: int, tokensOut: int,
                           duration: int, average: int, tools: map<string, int>)

  datatype Summary = Summary(tenant: string, user: string, start: int, end: int, totals: Totals)

  predicate Matches(e: Event, p: Params) {
    && (p.tenant == "" || e.tenant == p.tenant)
    && (p.user == "" || e.user == p.user)
    && (p.tool == "" || e.tool == p.tool)
    && (p.start == ZERO_TIME || e.timestamp >= p.start)
    && (p.end == ZERO_TIME || e.timestamp <= p.end)
  }

  function Filter(es: seq<Event>, keep: Event -> bool): seq<Event> {
    if es == [] then []
    else Filter(es[..|es| - 1], keep) + if keep(es[|es| - 1]) then [es[|es| - 1]] else []
  }

  function Wanted(p: Params): Event -> bool {
    (e: Event) => Matches(e, p)
  }

  function Since(before: int): Event -> bool {
    (e: Event) => e.timestamp >= before
  }

  function Matching(es: seq<Event>, p: Params): seq<Event> {
    Filter(es, Wanted(p))
  }

  ghost predicate NewestFirst(es: seq<Event>) {
    forall i, j :: 0 <= i < j < |es| ==> es[i].timestamp >= es[j].timestamp
  }

  /** A possible outcome of sorting: the library sort promises no more than this. */
  ghost predicate Sorting(r: seq<Event>, es: seq<Event>) {
    multiset(r) == multiset(es) && NewestFirst(r)
  }

  function Insert(e: Event, es: seq<Event>): seq<Event> {
    if es == [] || e.timestamp >= es[0].timestamp then [e] + es else [es[0]] + Insert(e, es[1..])
  }

  /** One such sort; `Sorts` below can be met. */
  function Sorted(es: seq<Event>): seq<Event> {
    if es == [] then [] else Insert(es[0], Sorted(es[1..]))
  }

  lemma {:induction false} InsertKeeps(e: Event, es: seq<Event>)
    ensures multiset(Insert(e, es)) == multiset{e} + multiset(es)
  {
    if es != [] && e.timestamp < es[0].timestamp {
      InsertKeeps(e, es[1..]);
      assert es == [es[0]] + es[1..];
    }
  }

  lemma {:induction false} InsertSorts(e: Event, es: seq<Event>)
    requires NewestFirst(es)
    ensures NewestFirst(Insert(e, es))
  {
    if es != [] && e.timestamp < es[0].timestamp {
      InsertSorts(e, es[1..]);
      InsertKeeps(e, es[1..]);
      var r := Insert(e, es[1..]);
      forall i | 0 <= i < |r|
        ensures es[0].timestamp >= r[i].timestamp
      {
        assert r[i] in multiset(r);
      }
    }
  }

  lemma {:induction false} SortedSorts(es: seq<Event>)
    ensures Sorting(Sorted(es), es)
  {
    if es != [] {
      SortedSorts(es[1..]);
      InsertSorts(es[0], Sorted(es[1..]));
      InsertKeeps(es[0], Sorted(es[1..]));
      assert es == [es[0]] + es[1..];
    }
  }

  function Page(r: seq<Event>, offset: int, limit: int): seq<Event> {
    var rest := if offset > 0 then (if offset >= |r| then [] else r[offset..]) else r;
    if limit > 0 && limit < |rest| then rest[..limit] else rest
  }

  // ---------------------------------------------------------------- summaries as sums

  function Sum(es: seq<Event>, f: Event -> int): int {
    if es == [] then 0 else Sum(es[..|es| - 1], f) + f(es[|es| - 1])
  }

  function DurationOf(e: Event): int { e.duration }
  function SuccessOf(e: Event): int { if e.success then 1 else 0 }
  function FailureOf(e: Event): int { if e.success then 0 else 1 }
  function TokensInOf(e: Event): int { e.tokensIn }
  function TokensOutOf(e: Event): int { e.tokensOut }

  function IsTool(tool: string): Event -> int {
    (e: Event) => if e.tool == tool then 1 else 0
  }

  function ToolCount(es: seq<Event>, tool: string): int {
    Sum(es, IsTool(tool))
  }

  function Tools(es: seq<Event>): map<string, int> {
    map t | t in (set e | e in es && e.tool != "" :: e.tool) :: ToolCount(es, t)
  }

  /** Division truncated towards zero. */
  function TruncDiv(a: int, b: int): (q: int)
    requires b > 0
    ensures a >= 0 ==> q * b <= a < (q + 1) * b
    ensures a <= 0 ==> (q - 1) * b < a <= q * b
  {
    if a >= 0 then a / b else -(-a / b)
  }

  function Summarize(es: seq<Event>): Totals {
    var duration := Sum(es, DurationOf);
    Totals(|es|, Sum(es, SuccessOf), Sum(es, FailureOf),
           Sum(es, TokensInOf), Sum(es, TokensOutOf), duration,
           if |es| > 0 then TruncDiv(duration, |es|) else 0, Tools(es))
  }

  lemma SumAppend(es: seq<Event>, e: Event, f: Event -> int)
    ensures Sum(es + [e], f) == Sum(es, f) + f(e)
  {
    assert (es + [e])[..|es|] == es;
  }

  lemma FilterAppend(es: seq<Event>, e: Event, keep: Event -> bool)
    ensures Filter(es + [e], keep) == if keep(e) then Filter(es, keep) + [e] else Filter(es, keep)
  {
    assert (es + [e])[..|es|] == es;
    assert Filter(es, keep) + [] == Filter(es, keep);
  }

  lemma ToolsAppend(es: seq<Event>, e: Event)
    ensures Tools(es + [e])
         == if e.tool == "" then Tools(es)
            else Tools(es)[e.tool := (if e.tool in Tools(es) then Tools(es)[e.tool] else 0) + 1]
  {
    forall t
      ensures ToolCount(es + [e], t) == ToolCount(es, t) + if e.tool == t then 1 else 0
    {
      SumAppend(es, e, IsTool(t));
    }
    if e.tool != "" && e.tool !in Tools(es) {
      NoSuchTool(es, e.tool);
    }
  }

  lemma {:induction false} NoSuchTool(es: seq<Event>, tool: string)
    requires forall e :: e in es ==> e.tool != tool
    ensures ToolCount(es, tool) == 0
  {
    if es != [] {
      NoSuchTool(es[..|es| - 1], tool);
    }
  }

  /** What the store relies on from the library sort, which is free among equal timestamps. */
  ghost predicate Sorts(sort: seq<Event> -> seq<Event>) {
    forall es :: Sorting(sort(es), es)
  }

  class MemoryStore {
    const sort: seq<Event> -> seq<Event>
    var events: seq<Event>

    constructor (sort: seq<Event> -> seq<Event>)
      ensures this.sort == sort && events == []
    {
      this.sort := sort;
      events := [];
    }

    method Store(es: seq<Event>)
      modifies this
      ensures events == old(events) + es
    {
      events := events + es;
    }

    method Query(p: Params) returns (r: seq<Event>)
      ensures r == Page(sort(Matching(events, p)), p.offset, p.limit)
      ensures Sorts(sort) ==> NewestFirst(r)
    {
      r := [];
      for i := 0 to |events|
        invariant r == Matching(events[..i], p)
      {
        assert events[..i + 1] == events[..i] + [events[i]];
        FilterAppend(events[..i], events[i], Wanted(p));
        if Matches(events[i], p) {
          r := r + [events[i]];
        }
      }
      assert events[..|events|] == events;
      r := sort(r);
      if p.offset > 0 {
        if p.offset >= |r| {
          return [];
        }
        r := r[p.offset..];
      }
      if p.limit > 0 && p.limit < |r| {
        r := r[..p.limit];
      }
    }

    method GetSummary(tenant: string, user: string, start: int, end: int) returns (r: Summary)
      ensures r.tenant == tenant && r.user == user && r.start == start && r.end == end
      ensures r.totals == Summarize(Matching(events, Params(tenant, user, "", start, end, 0, 0)))
    {
      hide Sum, Tools, Filter;
      ghost var p := Params(tenant, user, "", start, end, 0, 0);
      EmptySummary(p);
      var s := Totals(0, 0, 0, 0, 0, 0, 0, map[]);
      for i := 0 to |events|
        invariant s == Partial(Matching(events[..i], p))
      {
        var e := events[i];
        assert events[..i + 1] == events[..i] + [e];
        FilterAppend(events[..i], e, Wanted(p));
        PartialAppend(Matching(events[..i], p), e);
        if tenant != "" && e.tenant != tenant { continue; }
        if user != "" && e.user != user { continue; }
        if start != ZERO_TIME && e.timestamp < start { continue; }
        if end != ZERO_TIME && e.timestamp > end { continue; }
        s := s.(total := s.total + 1);
        if e.success {
          s := s.(successes := s.successes + 1);
        } else {
          s := s.(errors := s.errors + 1);
        }
        s := s.(tokensIn := s.tokensIn + e.tokensIn, tokensOut := s.tokensOut + e.tokensOut,
                duration := s.duration + e.duration);
        if e.tool != "" {
          s := s.(tools := s.tools[e.tool := (if e.tool in s.tools then s.tools[e.tool] else 0) + 1]);
        }
      }
      assert events[..|events|] == events;
      if s.total > 0 {
        s := s.(average := TruncDiv(s.duration, s.total));
      }
      r := Summary(tenant, user, start, end, s);
    }

    method DeleteOlderThan(before: int) returns (deleted: int)
      modifies this
      ensures events == Filter(old(events), Since(before))
      ensures deleted == |old(events)| - |events|
    {
      var kept: seq<Event> := [];
      deleted := 0;
      for i := 0 to |events|
        invariant events == old(events)
        invariant kept == Filter(events[..i], Since(before))
        invariant deleted == i - |kept|
      {
        assert events[..i + 1] == events[..i] + [events[i]];
        FilterAppend(events[..i], events[i], Since(before));
        if events[i].timestamp < before {
          deleted := deleted + 1;
        } else {
          kept := kept + [events[i]];
        }
      }
      assert events[..|events|] == events;
      events := kept;
    }
  }

  /** A summary before the average is filled in. */
  function Partial(es: seq<Event>): Totals {
    Summarize(es).(average := 0)
  }

  lemma EmptySummary(p: Params)
    ensures Partial(Matching([], p)) == Totals(0, 0, 0, 0, 0, 0, 0, map[])
  {}

  lemma PartialAppend(m: seq<Event>, e: Event)
    ensures var s, t := Partial(m), Partial(m + [e]);
            && t.total == s.total + 1
            && t.successes == s.successes + SuccessOf(e) && t.errors == s.errors + FailureOf(e)
            && t.tokensIn == s.tokensIn + e.tokensIn && t.tokensOut == s.tokensOut + e.tokensOut
            && t.duration == s.duration + e.duration
            && t.tools == if e.tool == "" then s.tools
                          else s.tools[e.tool := (if e.tool in s.tools then s.tools[e.tool] else 0) + 1]
  {
    hide Sum, Tools;
    SumAppend(m, e, DurationOf);
    SumAppend(m, e, SuccessOf);
    SumAppend(m, e, FailureOf);
    SumAppend(m, e, TokensInOf);
    SumAppend(m, e, TokensOutOf);
    ToolsAppend(m, e);
  }

  // ---------------------------------------------------------------- a summary sees no order

  lemma {:induction false} SumConcat(a: seq<Event>, b: seq<Event>, f: Event -> int)
    ensures Sum(a + b, f) == Sum(a, f) + Sum(b, f)
  {
    if b == [] {
      assert a + b == a;
    } else {
      assert (a + b)[..|a + b| - 1] == a + b[..|b| - 1];
      SumConcat(a, b[..|b| - 1], f);
    }
  }

  lemma TakenOut(es: seq<Event>, i: nat)
    requires i < |es|
    ensures multiset(es[..i] + es[i + 1..]) == multiset(es) - multiset{es[i]}
  {
    assert es == es[..i] + [es[i]] + es[i + 1..];
  }

  lemma {:induction false} SumPermutation(a: seq<Event>, b: seq<Event>, f: Event -> int)
    requires multiset(a) == multiset(b)
    ensures Sum(a, f) == Sum(b, f) && |a| == |b|
  {
    assert |multiset(a)| == |a| && |multiset(b)| == |b|;
    if a != [] {
      var init, e := a[..|a| - 1], a[|a| - 1];
      assert e in multiset(b);
      var i :| 0 <= i < |b| && b[i] == e;
      assert init + a[|a|..] == init;
      TakenOut(a, |a| - 1);
      TakenOut(b, i);
      SumPermutation(init, b[..i] + b[i + 1..], f);
      SumWithout(b, i, f);
    }
  }

  lemma SumWithout(es: seq<Event>, i: nat, f: Event -> int)
    requires i < |es|
    ensures Sum(es, f) == Sum(es[..i] + es[i + 1..], f) + f(es[i])
  {
    hide Sum;
    assert es == es[..i] + [es[i]] + es[i + 1..];
    SumConcat(es[..i], es[i + 1..], f);
    SumConcat(es[..i] + [es[i]], es[i + 1..], f);
    SumAppend(es[..i], es[i], f);
  }

  /** Rearranging events does not change their summary. */
  lemma SummaryPermutation(a: seq<Event>, b: seq<Event>)
    requires multiset(a) == multiset(b)
    ensures Summarize(a) == Summarize(b)
  {
    SumPermutation(a, b, DurationOf);
    SumPermutation(a, b, SuccessOf);
    SumPermutation(a, b, FailureOf);
    SumPermutation(a, b, TokensInOf);
    SumPermutation(a, b, TokensOutOf);
    forall t
      ensures ToolCount(a, t) == ToolCount(b, t)
    {
      SumPermutation(a, b, IsTool(t));
    }
    forall e
      ensures e in a <==> e in b
    {
      assert e in a <==> e in multiset(a);
      assert e in b <==> e in multiset(b);
    }
    assert Tools(a) == Tools(b);
  }

  /** A summary is the fold of the same-filter query, unpaged, whatever order the sort chose. */
  lemma SummaryRefinesQuery(events: seq<Event>, p: Params, r: seq<Event>)
    requires Sorting(r, Matching(events, p))
    ensures Summarize(Matching(events, p)) == Summarize(r)
    ensures Summarize(r).total == Summarize(r).successes + Summarize(r).errors == |r|
  {
    SummaryPermutation(Matching(events, p), r);
    Complements(r);
  }

  lemma {:induction false} Complements(es: seq<Event>)
    ensures Sum(es, SuccessOf) + Sum(es, FailureOf) == |es|
  {
    if es != [] {
      Complements(es[..|es| - 1]);
    }
  }

  // ---------------------------------------------------------------- pages

  function Pages(r: seq<Event>, size: int, n: nat): seq<Event> {
    if n == 0 then [] else Pages(r, size, n - 1) + Page(r, (n - 1) * size, size)
  }

  /** Consecutive pages put together are the unpaged result, without gap or overlap. */
  lemma {:induction false} PagesConcatenate(r: seq<Event>, size: int, n: nat)
    requires size > 0
    ensures Pages(r, size, n) == if n * size < |r| then r[..n * size] else r
  {
    if n > 0 {
      PagesConcatenate(r, size, n - 1);
      assert n * size == (n - 1) * size + size && (n - 1) * size >= 0;
      NextPage(r, (n - 1) * size, size);
    }
  }

  lemma NextPage(r: seq<Event>, from: int, size: int)
    requires size > 0 && from >= 0
    ensures (if from < |r| then r[..from] else r) + Page(r, from, size)
         == if from + size < |r| then r[..from + size] else r
  {
    if from < |r| {
      assert from == 0 ==> r[from..] == r;
      assert r[..from] + r[from..] == r;
      if from + size < |r| {
        assert r[from..][..size] == r[from..from + size];
        assert r[..from] + r[from..from + size] == r[..from + size];
      }
    } else {
      assert Page(r, from, size) == [] || (from == 0 && r == []);
    }
  }

  // ---------------------------------------------------------------- retention

  /** Deleting old events leaves every query that starts no earlier unchanged, order included. */
  lemma {:induction false} RetentionKeepsLaterQueries(events: seq<Event>, before: int, p: Params)
    requires p.start != ZERO_TIME && p.start >= before
    ensures Matching(Filter(events, Since(before)), p) == Matching(events, p)
  {
    if events != [] {
      var init, last := events[..|events| - 1], events[|events| - 1];
      RetentionKeepsLaterQueries(init, before, p);
      var kept := Filter(init, Since(before));
      if last.timestamp >= before {
        FilterAppend(kept, last, Wanted(p));
      } else {
        assert kept + [] == kept;
      }
    }
  }

  // ---------------------------------------------------------------- two sorts differ only in ties

  function Times(es: seq<Event>): seq<int> {
    seq(|es|, i requires 0 <= i < |es| => es[i].timestamp)
  }

  function NewerThan(t: int): Event -> int {
    (e: Event) => if e.timestamp > t then 1 else 0
  }

  /** How many events are newer than an instant. */
  function Newer(es: seq<Event>, t: int): int {
    Sum(es, NewerThan(t))
  }

  lemma {:induction false} NewerBound(es: seq<Event>, t: int)
    ensures 0 <= Newer(es, t) <= |es|
  {
    if es != [] {
      NewerBound(es[..|es| - 1], t);
    }
  }

  lemma {:induction false} NoneNewer(es: seq<Event>, t: int)
    requires forall i :: 0 <= i < |es| ==> es[i].timestamp <= t
    ensures Newer(es, t) == 0
  {
    if es != [] {
      NoneNewer(es[..|es| - 1], t);
    }
  }

  lemma {:induction false} AllNewer(es: seq<Event>, t: int)
    requires forall i :: 0 <= i < |es| ==> es[i].timestamp > t
    ensures Newer(es, t) == |es|
  {
    if es != [] {
      AllNewer(es[..|es| - 1], t);
    }
  }

  /** In a newest-first list, the events newer than `t` are exactly the first ones. */
  lemma NewerIsPrefix(es: seq<Event>, t: int, i: nat)
    requires NewestFirst(es) && i < |es|
    ensures i < Newer(es, t) <==> es[i].timestamp > t
  {
    var f := NewerThan(t);
    if es[i].timestamp > t {
      assert es == es[..i + 1] + es[i + 1..];
      SumConcat(es[..i + 1], es[i + 1..], f);
      AllNewer(es[..i + 1], t);
      NewerBound(es[i + 1..], t);
      assert Newer(es, t) == Newer(es[..i + 1], t) + Newer(es[i + 1..], t);
    } else {
      assert es == es[..i] + es[i..];
      SumConcat(es[..i], es[i..], f);
      NoneNewer(es[i..], t);
      NewerBound(es[..i], t);
      assert Newer(es, t) == Newer(es[..i], t) + Newer(es[i..], t);
    }
  }

  /** Two newest-first arrangements of the same events agree on every timestamp, so they can differ
      only in the order of equal timestamps. */
  lemma SortsAgreeOnTimes(a: seq<Event>, b: seq<Event>)
    requires multiset(a) == multiset(b) && NewestFirst(a) && NewestFirst(b)
    ensures Times(a) == Times(b)
  {
    SumPermutation(a, b, DurationOf);
    forall i | 0 <= i < |a|
      ensures a[i].timestamp == b[i].timestamp
    {
      SumPermutation(a, b, NewerThan(a[i].timestamp));
      SumPermutation(a, b, NewerThan(b[i].timestamp));
      assert Newer(a, a[i].timestamp) == Newer(b, a[i].timestamp);
      assert Newer(a, b[i].timestamp) == Newer(b, b[i].timestamp);
      NewerIsPrefix(a, a[i].timestamp, i);
      NewerIsPrefix(b, a[i].timestamp, i);
      NewerIsPrefix(a, b[i].timestamp, i);
      NewerIsPrefix(b, b[i].timestamp, i);
    }
  }
}
