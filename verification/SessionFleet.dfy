/** Several sessions of one user share the quota: each has its own handlers, but one store and one
    clock. The overshoot grows with the number of sessions, and exactly so. */
module SessionFleet {
  import opened Session
  import opened SessionQuota
  import opened SessionOvershoot
  import Calendar

  /** Sessions, with the usage and the clock they share; what a session's own state says of those two
      is out of date. */
  datatype Fleet = Fleet(sessions: seq<State>, tally: map<int, nat>, now: int)

  /** A step of one session. */
  datatype Move = Move(k: nat, action: Action)

  /** Session `k` as it is when its turn comes. */
  function Seen(f: Fleet, k: nat): State
    requires k < |f.sessions|
  {
    f.sessions[k].(tally := f.tally, now := f.now)
  }

  function FleetStep(cfgs: seq<Config>, f: Fleet, move: Move): (g: Fleet)
    requires |cfgs| == |f.sessions|
    ensures |g.sessions| == |f.sessions|
  {
    if move.k >= |f.sessions| then f
    else
      var t := Step(cfgs[move.k], Seen(f, move.k), move.action);
      Fleet(f.sessions[move.k := t], t.tally, t.now)
  }

  function FleetExec(cfgs: seq<Config>, f: Fleet, moves: seq<Move>): (g: Fleet)
    requires |cfgs| == |f.sessions|
    ensures |g.sessions| == |f.sessions|
    decreases |moves|
  {
    if moves == [] then f else FleetExec(cfgs, FleetStep(cfgs, f, moves[0]), moves[1..])
  }

  function FleetInit(n: nat, now: int): Fleet {
    Fleet(seq(n, i => Init(now)), map[], now)
  }

  /** All sessions are under one and the same hard quota. */
  ghost predicate OneQuota(cfgs: seq<Config>, limit: int, period: string) {
    forall k :: 0 <= k < |cfgs| ==> Enforced(cfgs[k]) && cfgs[k].limit == limit && cfgs[k].period == period
  }

  ghost predicate ReliableMoves(cfgs: seq<Config>, f: Fleet, moves: seq<Move>)
    requires |cfgs| == |f.sessions|
    decreases |moves|
  {
    moves == [] ||
    (ReliableMove(f, moves[0]) && ReliableMoves(cfgs, FleetStep(cfgs, f, moves[0]), moves[1..]))
  }

  ghost predicate ReliableMove(f: Fleet, move: Move) {
    move.k < |f.sessions| ==> Reliable(Seen(f, move.k), move.action)
  }

  // ---------------------------------------------------------------- the bound

  /** Handlers of any session that may still add to a period. */
  ghost function AllCounters(sessions: seq<State>, start: int): nat {
    if sessions == [] then 0
    else AllCounters(sessions[..|sessions| - 1], start) + Count(sessions[|sessions| - 1].procs, Counters(start))
  }

  lemma {:induction false} CountersUpdate(sessions: seq<State>, k: nat, t: State, start: int)
    requires k < |sessions|
    ensures AllCounters(sessions[k := t], start) + Count(sessions[k].procs, Counters(start))
         == AllCounters(sessions, start) + Count(t.procs, Counters(start))
  {
    hide Count;
    var last := |sessions| - 1;
    var init := sessions[..last];
    if k == last {
      assert sessions[k := t][..last] == init;
    } else {
      CountersUpdate(init, k, t, start);
      assert sessions[k := t][..last] == init[k := t];
    }
  }

  ghost predicate Staffed(s: State) {
    SlotsOk(s) && ReleasersConcurrent(s)
  }

  lemma {:induction false} FewInAll(sessions: seq<State>, start: int)
    requires forall k :: 0 <= k < |sessions| ==> Staffed(sessions[k])
    ensures AllCounters(sessions, start) <= HANDLERS * |sessions|
  {
    hide Count, SlotsOk;
    if sessions != [] {
      FewInAll(sessions[..|sessions| - 1], start);
      FewCounters(sessions[|sessions| - 1], start);
    }
  }

  ghost predicate FleetOk(cfgs: seq<Config>, f: Fleet, limit: int)
    requires |cfgs| == |f.sessions|
  {
    && (forall k :: 0 <= k < |f.sessions| ==> Staffed(f.sessions[k]) && Orderly(cfgs[k], Seen(f, k)))
    && (limit > 0 ==> forall start :: FleetWithin(f, limit, start))
  }

  ghost predicate FleetWithin(f: Fleet, limit: int, start: int) {
    TallyAt(f.tally, start) + AllCounters(f.sessions, start) <= limit + HANDLERS * |f.sessions| - 1
  }

  lemma StaffedStep(cfg: Config, f: Fleet, k: nat, a: Action)
    requires k < |f.sessions| && Staffed(f.sessions[k])
    ensures Staffed(Step(cfg, Seen(f, k), a))
  {
    hide Step, Count;
    SlotsOkStep(cfg, Seen(f, k), a);
  }

  lemma FleetWithinStep(cfgs: seq<Config>, f: Fleet, move: Move, limit: int, period: string, start: int)
    requires |cfgs| == |f.sessions| && move.k < |cfgs| && OneQuota(cfgs, limit, period) && limit > 0
    requires FleetOk(cfgs, f, limit) && ReliableMove(f, move)
    requires forall k :: 0 <= k < |f.sessions| ==> Staffed(FleetStep(cfgs, f, move).sessions[k])
    ensures FleetWithin(FleetStep(cfgs, f, move), limit, start)
  {
    hide Step, Count, Staffed, Orderly, AllCounters;
    var g, k := FleetStep(cfgs, f, move), move.k;
    var s := Seen(f, k);
    StepBears(cfgs[k], s, move.action);
    assert Bears(cfgs[k], s, g.sessions[k], start);
    assert FleetWithin(f, limit, start);
    CountersUpdate(f.sessions, k, g.sessions[k], start);
    FewInAll(g.sessions, start);
  }

  lemma FleetOrderlyStep(cfgs: seq<Config>, f: Fleet, move: Move, limit: int, period: string, j: nat)
    requires |cfgs| == |f.sessions| && move.k < |cfgs| && j < |cfgs| && OneQuota(cfgs, limit, period)
    requires FleetOk(cfgs, f, limit) && ReliableMove(f, move)
    ensures Orderly(cfgs[j], Seen(FleetStep(cfgs, f, move), j))
  {
    hide Step, Staffed, Dated, Pending;
    var g, k := FleetStep(cfgs, f, move), move.k;
    StepBears(cfgs[k], Seen(f, k), move.action);
    var t := Step(cfgs[k], Seen(f, k), move.action);
    assert PeriodStart(cfgs[k], t.now) == PeriodStart(cfgs[j], t.now);
    if j == k {
      assert Seen(g, k) == t;
    } else {
      OrderlyLater(cfgs[j], Seen(f, j), g.tally, g.now);
      assert Seen(g, j) == Seen(f, j).(tally := g.tally, now := g.now);
    }
  }

  lemma FleetOkStep(cfgs: seq<Config>, f: Fleet, move: Move, limit: int, period: string)
    requires |cfgs| == |f.sessions| && OneQuota(cfgs, limit, period)
    requires FleetOk(cfgs, f, limit) && ReliableMove(f, move)
    ensures FleetOk(cfgs, FleetStep(cfgs, f, move), limit)
  {
    hide Step, Staffed, Orderly, OneQuota, FleetWithin;
    if move.k < |cfgs| {
      var g := FleetStep(cfgs, f, move);
      StaffedStep(cfgs[move.k], f, move.k, move.action);
      forall j | 0 <= j < |cfgs| ensures Orderly(cfgs[j], Seen(g, j)) {
        FleetOrderlyStep(cfgs, f, move, limit, period, j);
      }
      forall start | limit > 0 ensures FleetWithin(g, limit, start) {
        FleetWithinStep(cfgs, f, move, limit, period, start);
      }
    }
  }

  lemma {:induction false} FleetInvariant(cfgs: seq<Config>, f: Fleet, moves: seq<Move>, limit: int, period: string)
    requires |cfgs| == |f.sessions| && OneQuota(cfgs, limit, period)
    requires FleetOk(cfgs, f, limit) && ReliableMoves(cfgs, f, moves)
    ensures FleetOk(cfgs, FleetExec(cfgs, f, moves), limit)
    decreases |moves|
  {
    hide FleetStep, OneQuota, FleetOk, ReliableMove;
    if moves != [] {
      FleetOkStep(cfgs, f, moves[0], limit, period);
      FleetInvariant(cfgs, FleetStep(cfgs, f, moves[0]), moves[1..], limit, period);
    }
  }

  lemma {:induction false} NoCountersYet(sessions: seq<State>, now: int, start: int)
    requires forall k :: 0 <= k < |sessions| ==> sessions[k] == Init(now)
    ensures AllCounters(sessions, start) == 0
  {
    if sessions != [] {
      NoCountersYet(sessions[..|sessions| - 1], now, start);
      assert Init(now).procs[..0] == [];
      assert Count(Init(now).procs, Counters(start)) == 0;
    }
  }

  lemma FleetInitOk(cfgs: seq<Config>, now: int, limit: int, period: string)
    requires OneQuota(cfgs, limit, period) && |cfgs| > 0
    ensures FleetOk(cfgs, FleetInit(|cfgs|, now), limit)
  {
    hide PeriodStart, Orderly, SlotsOk, ReleasersConcurrent;
    var f := FleetInit(|cfgs|, now);
    forall k | 0 <= k < |cfgs| ensures Staffed(f.sessions[k]) && Orderly(cfgs[k], Seen(f, k)) {
      InitQuotaOk(cfgs[k], now);
      assert Seen(f, k) == Init(now);
    }
    forall start | limit > 0 ensures FleetWithin(f, limit, start) {
      NoCountersYet(f.sessions, now, start);
    }
  }

  /** With any number of sessions of one user, in every interleaving and across period changes, the usage
      of a period exceeds the limit by less than eleven for each session; a zero limit lets nothing
      through. */
  lemma FleetOvershootBound(cfgs: seq<Config>, now: int, moves: seq<Move>, limit: int, period: string, start: int)
    requires |cfgs| > 0 && OneQuota(cfgs, limit, period)
    requires ReliableMoves(cfgs, FleetInit(|cfgs|, now), moves)
    ensures var f := FleetExec(cfgs, FleetInit(|cfgs|, now), moves);
            && TallyAt(f.tally, start) <= limit + 11 * |cfgs| - 1
            && (limit == 0 ==> TallyAt(f.tally, start) == 0)
  {
    hide FleetExec, ReliableMoves, FleetOk;
    FleetInitOk(cfgs, now, limit, period);
    FleetInvariant(cfgs, FleetInit(|cfgs|, now), moves, limit, period);
    assert cfgs[0].limit == limit >= 0;
    FleetOkBounds(cfgs, FleetExec(cfgs, FleetInit(|cfgs|, now), moves), limit, start);
  }

  lemma FleetOkBounds(cfgs: seq<Config>, f: Fleet, limit: int, start: int)
    requires |cfgs| == |f.sessions| > 0 && FleetOk(cfgs, f, limit) && cfgs[0].limit == limit >= 0
    ensures TallyAt(f.tally, start) <= limit + 11 * |cfgs| - 1
    ensures limit == 0 ==> TallyAt(f.tally, start) == 0
  {
    hide AllCounters, Staffed, PeriodStart, Dated, Pending;
    assert Orderly(cfgs[0], Seen(f, 0));
    if limit > 0 {
      assert FleetWithin(f, limit, start);
    }
  }

  // ---------------------------------------------------------------- the bound is attained

  /** A run of one session, as moves of the fleet. */
  function On(k: nat, actions: seq<Action>): seq<Move> {
    seq(|actions|, i requires 0 <= i < |actions| => Move(k, actions[i]))
  }

  ghost predicate SmoothMoves(moves: seq<Move>) {
    forall i :: 0 <= i < |moves| && moves[i].action.Advance? ==> moves[i].action.input == YES
  }

  lemma {:induction false} SmoothMovesReliable(cfgs: seq<Config>, f: Fleet, moves: seq<Move>)
    requires |cfgs| == |f.sessions| && SmoothMoves(moves)
    ensures ReliableMoves(cfgs, f, moves)
    decreases |moves|
  {
    hide FleetStep;
    if moves != [] {
      SmoothMovesReliable(cfgs, FleetStep(cfgs, f, moves[0]), moves[1..]);
    }
  }

  lemma {:induction false} FleetConcat(cfgs: seq<Config>, f: Fleet, a: seq<Move>, b: seq<Move>)
    requires |cfgs| == |f.sessions|
    ensures FleetExec(cfgs, f, a + b) == FleetExec(cfgs, FleetExec(cfgs, f, a), b)
    ensures SmoothMoves(a) && SmoothMoves(b) ==> SmoothMoves(a + b)
    decreases |a|
  {
    hide FleetStep;
    if a == [] {
      assert a + b == b;
    } else {
      assert (a + b)[1..] == a[1..] + b && (a + b)[0] == a[0];
      FleetConcat(cfgs, FleetStep(cfgs, f, a[0]), a[1..], b);
    }
  }

  /** What a run of session `k` leaves behind. */
  ghost predicate RanTo(f: Fleet, g: Fleet, k: nat, t: State)
    requires k < |f.sessions| == |g.sessions|
  {
    && Seen(g, k) == t
    && forall j :: 0 <= j < |f.sessions| && j != k ==> g.sessions[j] == f.sessions[j]
  }

  lemma {:induction false} RunAlone(cfgs: seq<Config>, f: Fleet, k: nat, actions: seq<Action>)
    requires |cfgs| == |f.sessions| && k < |cfgs|
    ensures RanTo(f, FleetExec(cfgs, f, On(k, actions)), k, Exec(cfgs[k], Seen(f, k), actions))
    ensures Smooth(actions) ==> SmoothMoves(On(k, actions))
    decreases |actions|
  {
    hide Step;
    if actions != [] {
      var g := FleetStep(cfgs, f, Move(k, actions[0]));
      assert On(k, actions)[1..] == On(k, actions[1..]) && On(k, actions)[0] == Move(k, actions[0]);
      assert Seen(g, k) == Step(cfgs[k], Seen(f, k), actions[0]);
      RunAlone(cfgs, g, k, actions[1..]);
    }
  }

  ghost predicate AllPlainly(cfgs: seq<Config>, limit: int, period: string) {
    forall k :: 0 <= k < |cfgs| ==> Plainly(cfgs[k]) && cfgs[k].limit == limit && cfgs[k].period == period
  }

  /** Connected, reading, and with all slots free. */
  ghost predicate Calm(cfg: Config, s: State) {
    Warm(cfg, s) && s.loop.Reading? && s.slots == 0
  }

  /** Connected, with eleven handlers past the check. */
  ghost predicate Poised(cfg: Config, s: State) {
    Warm(cfg, s) && Brink(cfg, s, HANDLERS)
  }

  function FleetUsage(period: string, f: Fleet): int {
    TallyAt(f.tally, Calendar.PeriodBounds(period, f.now).0)
  }

  lemma UsageShared(cfg: Config, f: Fleet, k: nat)
    requires k < |f.sessions|
    ensures UsageNow(cfg, Seen(f, k)) == FleetUsage(cfg.period, f)
  {
    hide Calendar.PeriodBounds;
  }

  /** Sessions connect one after the other. */
  lemma {:induction false} WarmAll(cfgs: seq<Config>, f: Fleet, limit: int, period: string, k: nat)
    returns (moves: seq<Move>)
    requires |cfgs| == |f.sessions| && k <= |cfgs| && AllPlainly(cfgs, limit, period) && f.tally == map[]
    requires forall j :: 0 <= j < k ==> Calm(cfgs[j], f.sessions[j])
    requires forall j :: k <= j < |cfgs| ==> f.sessions[j] == Init(f.now)
    ensures SmoothMoves(moves)
    ensures var g := FleetExec(cfgs, f, moves);
            g.tally == map[] && g.now == f.now && forall j :: 0 <= j < |cfgs| ==> Calm(cfgs[j], g.sessions[j])
    decreases |cfgs| - k
  {
    hide Step, Exec, FleetStep;
    if k == |cfgs| {
      moves := [];
    } else {
      var actions := WarmUp(cfgs[k], f.now);
      assert Seen(f, k) == Init(f.now);
      RunAlone(cfgs, f, k, actions);
      var first := On(k, actions);
      var g := FleetExec(cfgs, f, first);
      hide FleetExec;
      assert Calm(cfgs[k], g.sessions[k]) by { assert Seen(g, k).backends == g.sessions[k].backends; }
      var rest := WarmAll(cfgs, g, limit, period, k + 1);
      FleetConcat(cfgs, f, first, rest);
      moves := first + rest;
    }
  }

  lemma PoiseOne(cfg: Config, s: State) returns (actions: seq<Action>)
    requires Plainly(cfg) && Calm(cfg, s) && UsageNow(cfg, s) < cfg.limit
    ensures Smooth(actions)
    ensures var t := Exec(cfg, s, actions); Poised(cfg, t) && t.tally == s.tally && t.now == s.now
  {
    hide Step, Exec, PeriodStart;
    var a := ParkAll(cfg, s, 0);
    var s1 := Exec(cfg, s, a);
    var b := ParkInline(cfg, s1, SLOTS);
    ExecConcat(cfg, s, a, b);
    actions := a + b;
  }

  /** In one session after the other, eleven handlers pass the check. */
  lemma {:induction false} PoiseAll(cfgs: seq<Config>, f: Fleet, limit: int, period: string, k: nat)
    returns (moves: seq<Move>)
    requires |cfgs| == |f.sessions| && k <= |cfgs| && AllPlainly(cfgs, limit, period)
    requires FleetUsage(period, f) < limit
    requires forall j :: 0 <= j < k ==> Poised(cfgs[j], f.sessions[j])
    requires forall j :: k <= j < |cfgs| ==> Calm(cfgs[j], f.sessions[j])
    ensures SmoothMoves(moves)
    ensures var g := FleetExec(cfgs, f, moves);
            g.tally == f.tally && g.now == f.now && forall j :: 0 <= j < |cfgs| ==> Poised(cfgs[j], g.sessions[j])
    decreases |cfgs| - k
  {
    hide Step, Exec, FleetStep, Calendar.PeriodBounds, UsageNow;
    if k == |cfgs| {
      moves := [];
    } else {
      hide FleetExec;
      UsageShared(cfgs[k], f, k);
      var actions := PoiseOne(cfgs[k], Seen(f, k));
      RunAlone(cfgs, f, k, actions);
      var first := On(k, actions);
      var g := FleetExec(cfgs, f, first);
      assert Poised(cfgs[k], g.sessions[k]) by { PoisedSeen(cfgs[k], g, k); }
      var rest := PoiseAll(cfgs, g, limit, period, k + 1);
      FleetConcat(cfgs, f, first, rest);
      moves := first + rest;
    }
  }

  lemma PoisedSeen(cfg: Config, f: Fleet, k: nat)
    requires k < |f.sessions|
    ensures Poised(cfg, Seen(f, k)) <==> Poised(cfg, f.sessions[k])
  {
    assert Seen(f, k).procs == f.sessions[k].procs;
  }

  /** And in one session after the other they are counted. */
  lemma {:induction false} SpillAll(cfgs: seq<Config>, f: Fleet, limit: int, period: string, k: nat)
    returns (moves: seq<Move>)
    requires |cfgs| == |f.sessions| && k <= |cfgs| && AllPlainly(cfgs, limit, period)
    requires forall j :: k <= j < |cfgs| ==> Poised(cfgs[j], f.sessions[j])
    ensures SmoothMoves(moves)
    ensures var g := FleetExec(cfgs, f, moves);
            FleetUsage(period, g) == FleetUsage(period, f) + HANDLERS * (|cfgs| - k)
    decreases |cfgs| - k
  {
    hide Step, Exec, FleetStep, Calendar.PeriodBounds, UsageNow;
    if k == |cfgs| {
      moves := [];
    } else {
      hide FleetExec;
      var s := Seen(f, k);
      PoisedSeen(cfgs[k], f, k);
      var actions := Spill(cfgs[k], s, |s.procs| - HANDLERS);
      RunAlone(cfgs, f, k, actions);
      var first := On(k, actions);
      var g := FleetExec(cfgs, f, first);
      UsageShared(cfgs[k], f, k);
      UsageShared(cfgs[k], g, k);
      var rest := SpillAll(cfgs, g, limit, period, k + 1);
      FleetConcat(cfgs, f, first, rest);
      moves := first + rest;
    }
  }

  /** The bound is attained for every number of sessions and every limit of at least one. */
  lemma FleetOvershootAttained(cfgs: seq<Config>, now: int, limit: int, period: string) returns (moves: seq<Move>)
    requires |cfgs| > 0 && AllPlainly(cfgs, limit, period)
    ensures ReliableMoves(cfgs, FleetInit(|cfgs|, now), moves)
    ensures FleetUsage(period, FleetExec(cfgs, FleetInit(|cfgs|, now), moves)) == limit + 11 * |cfgs| - 1
  {
    hide Step, Exec, FleetExec, ReliableMoves, Calendar.PeriodBounds, SmoothMoves, Smooth, UsageNow;
    var f := FleetInit(|cfgs|, now);
    var a := WarmAll(cfgs, f, limit, period, 0);
    var f1 := FleetExec(cfgs, f, a);
    var s := Seen(f1, 0);
    UsageShared(cfgs[0], f1, 0);
    var fill := FillUp(cfgs[0], s, limit - 1);
    var b := On(0, fill);
    RunAlone(cfgs, f1, 0, fill);
    var f2 := FleetExec(cfgs, f1, b);
    UsageShared(cfgs[0], f2, 0);
    var c := PoiseAll(cfgs, f2, limit, period, 0);
    var f3 := FleetExec(cfgs, f2, c);
    var d := SpillAll(cfgs, f3, limit, period, 0);
    moves := a + (b + (c + d));
    FleetConcat(cfgs, f2, c, d);
    FleetConcat(cfgs, f1, b, c + d);
    FleetConcat(cfgs, f, a, b + (c + d));
    SmoothMovesReliable(cfgs, f, moves);
  }
}
