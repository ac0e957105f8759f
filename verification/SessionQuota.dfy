/** How far usage can overshoot a hard quota: checking and counting are separate steps, so up to
    eleven handlers of a session (ten concurrent, one inline) can be between the two. */
module SessionQuota {
  import opened Common
  import opened Session
  import Calendar
  import Quota

  /** At most this many handlers of a session are running. */
  const HANDLERS: nat := SLOTS + 1

  // ---------------------------------------------------------------- counting processes

  ghost function Count(procs: seq<Proc>, p: Proc -> bool): nat {
    if procs == [] then 0
    else Count(procs[..|procs| - 1], p) + if p(procs[|procs| - 1]) then 1 else 0
  }

  ghost function One(b: bool): nat { if b then 1 else 0 }

  lemma CountAppend(procs: seq<Proc>, x: Proc, p: Proc -> bool)
    ensures Count(procs + [x], p) == Count(procs, p) + One(p(x))
  {
    assert (procs + [x])[..|procs|] == procs;
  }

  lemma {:induction false} CountUpdate(procs: seq<Proc>, i: nat, x: Proc, p: Proc -> bool)
    requires i < |procs|
    ensures Count(procs[i := x], p) + One(p(procs[i])) == Count(procs, p) + One(p(x))
  {
    var init := procs[..|procs| - 1];
    if i == |procs| - 1 {
      assert procs[i := x][..i] == init;
    } else {
      CountUpdate(init, i, x, p);
      assert procs[i := x][..|procs| - 1] == init[i := x];
    }
  }

  lemma {:induction false} CountMonotone(procs: seq<Proc>, p: Proc -> bool, q: Proc -> bool)
    requires forall x :: p(x) ==> q(x)
    ensures Count(procs, p) <= Count(procs, q)
  {
    if procs != [] {
      CountMonotone(procs[..|procs| - 1], p, q);
    }
  }

  lemma {:induction false} CountSum(procs: seq<Proc>, p: Proc -> bool, q: Proc -> bool, r: Proc -> bool)
    requires forall x :: p(x) <==> q(x) || r(x)
    ensures Count(procs, p) <= Count(procs, q) + Count(procs, r)
  {
    if procs != [] {
      CountSum(procs[..|procs| - 1], p, q, r);
    }
  }

  lemma {:induction false} CountAtMostOne(procs: seq<Proc>, p: Proc -> bool, at: nat)
    requires forall i :: 0 <= i < |procs| && p(procs[i]) ==> i == at
    ensures Count(procs, p) <= 1
    ensures at >= |procs| ==> Count(procs, p) == 0
  {
    if procs != [] {
      CountAtMostOne(procs[..|procs| - 1], p, at);
    }
  }

  /** How a count changes when one process advances (a pump that it starts counts for nothing). */
  lemma CountAdvance(cfg: Config, s: State, pid: nat, input: Input, p: Proc -> bool)
    requires pid < |s.procs| && forall x: Proc :: x.Pumping? ==> !p(x)
    ensures var next := React(cfg, s, s.procs[pid], input).next;
            Count(AdvanceStep(cfg, s, pid, input).procs, p) + One(p(s.procs[pid])) == Count(s.procs, p) + One(p(next))
  {
    hide React, AdvanceStep;
    AdvanceFrame(cfg, s, pid, input);
    var e := React(cfg, s, s.procs[pid], input);
    var moved := s.procs[pid := e.next];
    CountUpdate(s.procs, pid, e.next, p);
    if e.change.StartPump? {
      CountAppend(moved, Pumping(e.change.server, e.change.conn), p);
    } else {
      assert moved + [] == moved;
    }
  }

  // ---------------------------------------------------------------- handlers and slots

  predicate Live(p: Proc) {
    MsgOf(p).Some? && !p.Finished?
  }

  predicate Concurrent(p: Proc) {
    Live(p) && !MsgOf(p).value.inline
  }

  predicate Alone(p: Proc) {
    Live(p) && MsgOf(p).value.inline
  }

  /** The slots taken are the concurrent handlers (and one about to start); an inline handler runs
      only while the read loop waits for it. */
  ghost predicate SlotsOk(s: State) {
    && s.slots == Count(s.procs, Concurrent) + One(s.loop.Granted?)
    && s.slots <= SLOTS
    && ((s.loop.Waiting? || s.loop.Granted?) ==> !s.loop.msg.inline)
    && (forall i :: 0 <= i < |s.procs| && Alone(s.procs[i]) ==> s.loop == Inline(i))
  }

  /** Only concurrent handlers end by releasing a slot. */
  ghost predicate ReleasersConcurrent(s: State) {
    forall i :: 0 <= i < |s.procs| && s.procs[i].Releasing? ==> !s.procs[i].msg.inline
  }

  /** Only a releasing handler gives a slot back, and it is the only way a concurrent one ends. */
  lemma ReactSlots(cfg: Config, s: State, p: Proc, input: Input)
    ensures var e := React(cfg, s, p, input);
            && (e.change.FreeSlot? <==> p.Releasing?)
            && (p.Releasing? ==> e.next.Finished?)
            && (p.Finished? ==> e.next == p)
            && (e.next.Finished? && !p.Finished? && !p.Releasing? ==> e.next.msg.inline)
            && (e.next.Releasing? ==> !e.next.msg.inline)
  {
    hide RouteMessage, PeriodStart, TallyAt, QuotaAllows;
  }

  lemma NoMessage(p: Proc)
    requires p.Pumping?
    ensures MsgOf(p).None?
  {}

  lemma HasMessage(p: Proc)
    ensures p.Releasing? || p.Finished? ==> MsgOf(p) == Some(p.msg)
  {}

  lemma SlotsOkAdvance(cfg: Config, s: State, pid: nat, input: Input)
    requires pid < |s.procs| && SlotsOk(s) && ReleasersConcurrent(s)
    ensures SlotsOk(AdvanceStep(cfg, s, pid, input)) && ReleasersConcurrent(AdvanceStep(cfg, s, pid, input))
  {
    hide React, AdvanceStep, Count, MsgOf;
    var t := AdvanceStep(cfg, s, pid, input);
    var e := React(cfg, s, s.procs[pid], input);
    forall x: Proc | x.Pumping? ensures !Concurrent(x) && !Alone(x) { NoMessage(x); }
    HasMessage(s.procs[pid]);
    HasMessage(e.next);
    AdvanceFrame(cfg, s, pid, input);
    ReactSlots(cfg, s, s.procs[pid], input);
    ReactKeepsMessage(cfg, s, s.procs[pid], input);
    CountAdvance(cfg, s, pid, input, Concurrent);
    forall i | 0 <= i < |t.procs| && Alone(t.procs[i])
      ensures t.loop == Inline(i)
    {
      if i == pid {
        assert Alone(s.procs[pid]);
      } else if i < |s.procs| {
        assert t.procs[i] == s.procs[i];
      }
    }
  }

  lemma SlotsOkLoop(s: State, a: Action)
    requires SlotsOk(s) && ReleasersConcurrent(s)
    ensures SlotsOk(LoopStep(s, a)) && ReleasersConcurrent(LoopStep(s, a))
  {
    hide Count;
    var t := LoopStep(s, a);
    if |t.procs| == |s.procs| + 1 {
      CountAppend(s.procs, t.procs[|s.procs|], Concurrent);
      assert t.procs == s.procs + [t.procs[|s.procs|]];
    }
    forall i | 0 <= i < |t.procs| && Alone(t.procs[i])
      ensures t.loop == Inline(i)
    {
      if i < |s.procs| {
        assert t.procs[i] == s.procs[i];
        assert s.loop == Inline(i);
      }
    }
  }

  lemma SlotsOkStep(cfg: Config, s: State, a: Action)
    requires SlotsOk(s) && ReleasersConcurrent(s)
    ensures SlotsOk(Step(cfg, s, a)) && ReleasersConcurrent(Step(cfg, s, a))
  {
    hide AdvanceStep, LoopStep;
    if a.Advance? && a.pid < |s.procs| {
      SlotsOkAdvance(cfg, s, a.pid, a.input);
    } else if !a.Advance? && !a.Tick? && !a.Flag? {
      SlotsOkLoop(s, a);
    }
  }

  /** So at most eleven handlers are ever running. */
  lemma FewHandlers(s: State)
    requires SlotsOk(s)
    ensures Count(s.procs, Live) <= HANDLERS
  {
    CountSum(s.procs, Live, Concurrent, Alone);
    CountAtMostOne(s.procs, Alone, if s.loop.Inline? then s.loop.pid else |s.procs|);
  }

  // ---------------------------------------------------------------- usage and pending handlers

  /** For a tool call past its quota check and not yet counted: the earliest period it can be counted
      in, which is the one checked, or once the increment has read the clock, the one read. */
  function Uncounted(p: Proc): Option<int> {
    match p
    case Routing(_) => None
    case Limiting(_, _) => None
    case Checking(_, _) => None
    case Measuring(_, _, _) => None
    case Posting(_, _, start) => Some(start)
    case Crediting(_, _, _) => None
    case Releasing(_, _) => None
    case Finished(_, _) => None
    case Dropping(_, cont) => if cont.AfterWrite? && IsCall(cont.route) then Some(cont.route.since) else None
    case Returning(_, cont) => if cont.AfterWrite? && IsCall(cont.route) then Some(cont.route.since) else None
    case Pumping(_, _) => None
    case Stopped => None
    case Reaping(_) => None
    case _ => if IsCall(p.route) then Some(p.route.since) else None
  }

  predicate Pending(p: Proc) {
    Uncounted(p).Some?
  }

  /** Handlers that may still add to the usage of the period starting at `start`: pending ones, and
      those between the clock and the store of a check against an earlier period. */
  predicate MayCount(start: int, p: Proc) {
    (Pending(p) && Uncounted(p).value <= start) || (p.Measuring? && p.start < start)
  }

  function Counters(start: int): Proc -> bool {
    (p: Proc) => MayCount(start, p)
  }

  /** The clock reading a handler carries is not from the future. */
  predicate Dated(now: int, p: Proc) {
    (p.Measuring? ==> p.start <= now) && (Pending(p) ==> Uncounted(p).value <= now)
  }

  /** Future periods have no usage, no handler carries a future reading, and a zero limit has let
      nothing through. */
  ghost predicate Orderly(cfg: Config, s: State) {
    var now := PeriodStart(cfg, s.now);
    && (forall start :: start in s.tally ==> start <= now)
    && (forall i :: 0 <= i < |s.procs| ==> Dated(now, s.procs[i]))
    && (cfg.limit == 0 ==> s.tally == map[] && forall i :: 0 <= i < |s.procs| ==> !Pending(s.procs[i]))
  }

  /** The usage of a period and the handlers that may still add to it. */
  ghost function Burden(s: State, start: int): int {
    TallyAt(s.tally, start) + Count(s.procs, Counters(start))
  }

  /** For every period the burden stays within the limit plus ten. */
  ghost predicate QuotaOk(cfg: Config, s: State) {
    Orderly(cfg, s) && (cfg.limit > 0 ==> forall start :: Burden(s, start) <= cfg.limit + HANDLERS - 1)
  }

  /** A hard-enforced, non-negative limit. */
  predicate Enforced(cfg: Config) {
    cfg.quota && cfg.enforceHard && cfg.limit >= 0
  }

  /** No usage lookup fails. */
  ghost predicate Reliable(s: State, a: Action) {
    a.Advance? && a.pid < |s.procs| && s.procs[a.pid].Measuring? ==> a.input.ok
  }

  /** When a call becomes countable, stays so, or is counted. */
  lemma ReactUncounted(cfg: Config, s: State, p: Proc, input: Input)
    requires Enforced(cfg) && (p.Measuring? ==> input.ok)
    ensures var e := React(cfg, s, p, input);
            var now := PeriodStart(cfg, s.now);
            && (Pending(e.next) ==>
                  || Uncounted(e.next) == Uncounted(p)
                  || (p.Measuring? && Uncounted(e.next).value == p.start
                      && Quota.Fits(TallyAt(s.tally, p.start), 1, cfg.limit))
                  || (p.Counting? && Pending(p) && Uncounted(e.next).value == now))
            && (e.next.Measuring? ==> e.next.start == now && !p.Measuring?)
            && (e.change.CountIn? ==> Uncounted(p) == Some(e.change.start) && !Pending(e.next) && !e.next.Measuring?)
  {
    hide RouteMessage, PeriodStart, TallyAt;
  }

  /** How one step bears on the period starting at `start`: usage moves only when a handler that may
      count is counted; a handler newly may count only by passing a check against that period, which
      its call fits, or by reading the clock in an earlier period. */
  lemma ReactQuota(cfg: Config, s: State, p: Proc, input: Input, start: int)
    requires Enforced(cfg) && (p.Measuring? ==> input.ok) && Dated(PeriodStart(cfg, s.now), p)
    ensures var e := React(cfg, s, p, input);
            && (e.change.CountIn? && e.change.start <= start ==> MayCount(start, p) && !MayCount(start, e.next))
            && (MayCount(start, e.next) && !MayCount(start, p) ==>
                  Quota.Fits(TallyAt(s.tally, start), 1, cfg.limit) || start > PeriodStart(cfg, s.now))
  {
    hide React, Uncounted, PeriodStart, TallyAt, Quota.Fits;
    ReactUncounted(cfg, s, p, input);
    MeasuringUncounted(p);
  }

  lemma MeasuringUncounted(p: Proc)
    ensures p.Measuring? ==> !Pending(p)
  {}

  /** What a step keeps of the readings, and what a zero limit allows. */
  lemma ReactDated(cfg: Config, s: State, p: Proc, input: Input)
    requires Enforced(cfg) && (p.Measuring? ==> input.ok) && Dated(PeriodStart(cfg, s.now), p)
    ensures var e := React(cfg, s, p, input);
            && Dated(PeriodStart(cfg, s.now), e.next)
            && (e.change.CountIn? ==> Pending(p) && e.change.start <= PeriodStart(cfg, s.now))
            && (Pending(e.next) && !Pending(p) ==> p.Measuring? && Quota.Fits(TallyAt(s.tally, p.start), 1, cfg.limit))
  {
    hide React, Uncounted, PeriodStart, TallyAt, Quota.Fits;
    ReactUncounted(cfg, s, p, input);
  }

  /** A step adds to the burden of a period only while its usage is below the limit. */
  ghost predicate Bears(cfg: Config, s: State, t: State, start: int) {
    Burden(t, start) <= Burden(s, start) || TallyAt(t.tally, start) < cfg.limit
  }

  lemma AdvanceBears(cfg: Config, s: State, pid: nat, input: Input, start: int)
    requires pid < |s.procs| && Enforced(cfg) && cfg.limit > 0 && Reliable(s, Advance(pid, input)) && Orderly(cfg, s)
    ensures Bears(cfg, s, AdvanceStep(cfg, s, pid, input), start)
  {
    hide React, AdvanceStep, PeriodStart, Count, MayCount;
    AdvanceFrame(cfg, s, pid, input);
    ReactQuota(cfg, s, s.procs[pid], input, start);
    forall x: Proc | x.Pumping? ensures !Counters(start)(x) {
      QuietNewcomer(0, x, start);
    }
    CountAdvance(cfg, s, pid, input, Counters(start));
  }

  lemma AdvanceOrderly(cfg: Config, s: State, pid: nat, input: Input)
    requires pid < |s.procs| && Enforced(cfg) && Reliable(s, Advance(pid, input)) && Orderly(cfg, s)
    ensures Orderly(cfg, AdvanceStep(cfg, s, pid, input))
  {
    hide React, AdvanceStep, PeriodStart, Dated, Pending;
    AdvanceFrame(cfg, s, pid, input);
    ReactDated(cfg, s, s.procs[pid], input);
    var e := React(cfg, s, s.procs[pid], input);
    if e.change.StartPump? {
      QuietNewcomer(PeriodStart(cfg, s.now), Pumping(e.change.server, e.change.conn), 0);
    }
  }

  /** Handlers and pumps start with nothing to count. */
  lemma QuietNewcomer(now: int, p: Proc, start: int)
    requires p.Routing? || p.Pumping?
    ensures Dated(now, p) && !Pending(p) && !MayCount(start, p)
  {}

  /** Readings and usage stay in the past as time goes on, whoever else counts meanwhile. */
  lemma OrderlyLater(cfg: Config, s: State, tally: map<int, nat>, now: int)
    requires Orderly(cfg, s) && s.now <= now
    requires forall start :: start in tally ==> start <= PeriodStart(cfg, now)
    requires cfg.limit == 0 ==> tally == map[]
    ensures Orderly(cfg, s.(tally := tally, now := now))
  {
    hide Calendar.PeriodBounds, Pending;
    Calendar.PeriodStartMonotone(cfg.period, s.now, now);
  }

  /** Steps that are not a process's. */
  lemma OtherOrderly(cfg: Config, s: State, a: Action)
    requires Orderly(cfg, s) && (a.Advance? ==> a.pid >= |s.procs|)
    ensures Orderly(cfg, Step(cfg, s, a)) && s.now <= Step(cfg, s, a).now
  {
    hide PeriodStart, LoopStep, Dated, Pending;
    if a.Tick? && a.now >= s.now {
      TickOrderly(cfg, s, a.now);
    } else if !a.Tick? && !a.Flag? && !a.Advance? {
      LoopOrderly(cfg, s, a);
    }
  }

  lemma TickOrderly(cfg: Config, s: State, now: int)
    requires Orderly(cfg, s) && s.now <= now
    ensures Orderly(cfg, s.(now := now))
  {
    hide Calendar.PeriodBounds, Dated, Pending;
    Calendar.PeriodStartMonotone(cfg.period, s.now, now);
    OrderlyLater(cfg, s, s.tally, now);
  }

  lemma LoopOrderly(cfg: Config, s: State, a: Action)
    requires Orderly(cfg, s)
    ensures Orderly(cfg, LoopStep(s, a)) && LoopStep(s, a).now == s.now
  {
    hide PeriodStart, Dated, Pending;
    var t := LoopStep(s, a);
    if |t.procs| == |s.procs| + 1 {
      QuietNewcomer(PeriodStart(cfg, s.now), t.procs[|s.procs|], 0);
    }
  }

  lemma OtherBears(cfg: Config, s: State, a: Action, start: int)
    requires a.Advance? ==> a.pid >= |s.procs|
    ensures Burden(Step(cfg, s, a), start) == Burden(s, start)
  {
    hide Step, Count, MayCount;
    var t := Step(cfg, s, a);
    OtherFrame(cfg, s, a);
    if t.procs != s.procs {
      CountAppend(s.procs, t.procs[|s.procs|], Counters(start));
      QuietNewcomer(0, t.procs[|s.procs|], start);
    }
  }

  /** Every step keeps the order, and adds to a burden only while there is room. */
  lemma StepBears(cfg: Config, s: State, a: Action)
    requires Enforced(cfg) && Reliable(s, a) && Orderly(cfg, s)
    ensures Orderly(cfg, Step(cfg, s, a)) && s.now <= Step(cfg, s, a).now
    ensures cfg.limit > 0 ==> forall start :: Bears(cfg, s, Step(cfg, s, a), start)
  {
    hide AdvanceStep, LoopStep, Orderly, Burden;
    if a.Advance? && a.pid < |s.procs| {
      AdvanceFrame(cfg, s, a.pid, a.input);
      AdvanceOrderly(cfg, s, a.pid, a.input);
      forall start | cfg.limit > 0 ensures Bears(cfg, s, Step(cfg, s, a), start) {
        AdvanceBears(cfg, s, a.pid, a.input, start);
      }
    } else {
      hide Step;
      OtherOrderly(cfg, s, a);
      forall start ensures Bears(cfg, s, Step(cfg, s, a), start) {
        OtherBears(cfg, s, a, start);
      }
    }
  }

  lemma FewCounters(s: State, start: int)
    requires SlotsOk(s)
    ensures Count(s.procs, Counters(start)) <= HANDLERS
  {
    hide SlotsOk, Count;
    FewHandlers(s);
    CountMonotone(s.procs, Counters(start), Live);
  }

  lemma QuotaOkStep(cfg: Config, s: State, a: Action)
    requires Enforced(cfg) && Reliable(s, a) && QuotaOk(cfg, s) && SlotsOk(s) && ReleasersConcurrent(s)
    ensures QuotaOk(cfg, Step(cfg, s, a))
  {
    hide Step, SlotsOk, Orderly, Count;
    SlotsOkStep(cfg, s, a);
    StepBears(cfg, s, a);
    var t := Step(cfg, s, a);
    forall start | cfg.limit > 0 ensures Burden(t, start) <= cfg.limit + HANDLERS - 1 {
      assert Bears(cfg, s, t, start);
      FewCounters(t, start);
    }
  }

  ghost predicate ReliableRun(cfg: Config, s: State, actions: seq<Action>)
    decreases |actions|
  {
    actions == [] || (Reliable(s, actions[0]) && ReliableRun(cfg, Step(cfg, s, actions[0]), actions[1..]))
  }

  lemma {:induction false} QuotaInvariant(cfg: Config, s: State, actions: seq<Action>)
    requires Enforced(cfg) && ReliableRun(cfg, s, actions)
    requires QuotaOk(cfg, s) && SlotsOk(s) && ReleasersConcurrent(s)
    ensures QuotaOk(cfg, Exec(cfg, s, actions)) && SlotsOk(Exec(cfg, s, actions))
    decreases |actions|
  {
    hide QuotaOk, SlotsOk, ReleasersConcurrent, Step, Reliable, Enforced;
    if actions != [] {
      QuotaOkStep(cfg, s, actions[0]);
      SlotsOkStep(cfg, s, actions[0]);
      QuotaInvariant(cfg, Step(cfg, s, actions[0]), actions[1..]);
    }
  }

  lemma InitQuotaOk(cfg: Config, now: int)
    requires Enforced(cfg)
    ensures QuotaOk(cfg, Init(now)) && SlotsOk(Init(now)) && ReleasersConcurrent(Init(now))
  {
    hide PeriodStart;
    var init := Init(now);
    assert init.procs[..0] == [];
    assert Count(init.procs, Concurrent) == 0;
    forall start ensures Burden(init, start) == 0 {
      assert Count(init.procs, Counters(start)) == 0;
    }
  }

  /** Overshoot bound: in every interleaving, period changes included (also between the clock and the
      store of one check or one increment), no period's usage exceeds the limit by more than ten; nor
      does the current one's when handlers that have passed a check and are not yet counted are added;
      a zero limit lets nothing through. */
  lemma QuotaOvershootBound(cfg: Config, now: int, actions: seq<Action>, start: int)
    requires Enforced(cfg) && ReliableRun(cfg, Init(now), actions)
    ensures var s := Exec(cfg, Init(now), actions);
            && TallyAt(s.tally, start) <= cfg.limit + 10
            && (cfg.limit == 0 ==> TallyAt(s.tally, start) == 0)
            && TallyAt(s.tally, PeriodStart(cfg, s.now)) + Count(s.procs, Pending) <= cfg.limit + 10
            && Count(s.procs, Live) <= 11
  {
    hide PeriodStart, Exec, SlotsOk;
    InitQuotaOk(cfg, now);
    QuotaInvariant(cfg, Init(now), actions);
    var s := Exec(cfg, Init(now), actions);
    FewHandlers(s);
    var current := PeriodStart(cfg, s.now);
    if cfg.limit > 0 {
      assert Burden(s, start) <= cfg.limit + 10 && Burden(s, current) <= cfg.limit + 10;
      PendingMayCount(s.procs, current);
    } else {
      NonePending(s.procs);
    }
  }

  /** A handler that has passed a check may still count into the current period. */
  lemma {:induction false} PendingMayCount(procs: seq<Proc>, now: int)
    requires forall i :: 0 <= i < |procs| ==> Dated(now, procs[i])
    ensures Count(procs, Pending) <= Count(procs, Counters(now))
  {
    if procs != [] {
      PendingMayCount(procs[..|procs| - 1], now);
      var p := procs[|procs| - 1];
      assert Dated(now, p);
    }
  }

  lemma {:induction false} NonePending(procs: seq<Proc>)
    requires forall i :: 0 <= i < |procs| ==> !Pending(procs[i])
    ensures Count(procs, Pending) == 0
  {
    if procs != [] {
      NonePending(procs[..|procs| - 1]);
    }
  }
}
