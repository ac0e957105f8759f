/** The overshoot bound is exact: for every hard-enforced limit of at least one there is a run in which
    eleven handlers pass the check before any of them is counted. */
module SessionOvershoot {
  import opened Session
  import opened SessionQuota

  /** Every outside call succeeds. */
  const YES: Input := Input(true, false, Unresolvable, [])

  /** A session bound to a server, without a limiter. */
  predicate Plainly(cfg: Config) {
    Enforced(cfg) && cfg.limit >= 1 && cfg.boundServer != "" && !cfg.limiter
  }

  function Message(hasId: bool, verb: string): Envelope {
    Envelope(hasId, verb, "")
  }

  function Bound(cfg: Config, verb: string): Route {
    Route(verb, "", cfg.boundServer, Unresolvable, 0)
  }

  function UsageNow(cfg: Config, s: State): int {
    TallyAt(s.tally, PeriodStart(cfg, s.now))
  }

  /** The bound server has a healthy backend. */
  ghost predicate Warm(cfg: Config, s: State) {
    cfg.boundServer in s.backends && s.backends[cfg.boundServer] !in s.unhealthy
  }

  /** Past the quota check of a tool call, before the policy check. */
  ghost predicate AtBrink(cfg: Config, p: Proc) {
    p.Authorizing? && p.route == Bound(cfg, CALL).(since := p.route.since)
  }

  // ---------------------------------------------------------------- runs in which everything succeeds

  ghost predicate Smooth(actions: seq<Action>) {
    forall i :: 0 <= i < |actions| && actions[i].Advance? ==> actions[i].input == YES
  }

  lemma {:induction false} SmoothIsReliable(cfg: Config, s: State, actions: seq<Action>)
    requires Smooth(actions)
    ensures ReliableRun(cfg, s, actions)
    decreases |actions|
  {
    hide Step;
    if actions != [] {
      SmoothIsReliable(cfg, Step(cfg, s, actions[0]), actions[1..]);
    }
  }

  lemma ExecConcat(cfg: Config, s: State, a: seq<Action>, b: seq<Action>)
    ensures Exec(cfg, s, a + b) == Exec(cfg, Exec(cfg, s, a), b)
    ensures Smooth(a) && Smooth(b) ==> Smooth(a + b)
  {
    hide Exec;
    ExecJoin(cfg, s, a, b);
  }

  lemma ExecOne(cfg: Config, s: State, a: Action)
    ensures Exec(cfg, s, [a]) == Step(cfg, s, a)
  {
    hide Step;
    assert [a][1..] == [];
  }

  /** `n` steps of one process. */
  function Go(pid: nat, n: nat): seq<Action> {
    if n == 0 then [] else [Advance(pid, YES)] + Go(pid, n - 1)
  }

  lemma {:induction false} GoSmooth(pid: nat, n: nat)
    ensures Smooth(Go(pid, n))
  {
    if n > 0 {
      GoSmooth(pid, n - 1);
    }
  }

  lemma GoFirst(cfg: Config, s: State, pid: nat, n: nat)
    requires n > 0
    ensures Exec(cfg, s, Go(pid, n)) == Exec(cfg, Step(cfg, s, Advance(pid, YES)), Go(pid, n - 1))
  {
    hide Step;
    assert Go(pid, n)[1..] == Go(pid, n - 1);
  }

  // ---------------------------------------------------------------- one process at a time

  /** `s` with process `pid` moved, and more said. */
  function At(s: State, pid: nat, p: Proc, log: seq<Event>): State
    requires pid < |s.procs|
  {
    s.(procs := s.procs[pid := p], log := log)
  }

  lemma Nudge(cfg: Config, s: State, pid: nat, next: Proc)
    requires pid < |s.procs| && React(cfg, s, s.procs[pid], YES).next == next
    requires React(cfg, s, s.procs[pid], YES).change.Nothing?
    ensures var t := Step(cfg, s, Advance(pid, YES)); t == At(s, pid, next, t.log)
  {
    hide React;
  }

  lemma RouteFound(cfg: Config, s: State, msg: Msg)
    requires Plainly(cfg) && msg.env.Envelope? && msg.env.name == ""
    ensures var e := React(cfg, s, Routing(msg), YES);
            e.next == Limiting(msg, Bound(cfg, msg.env.verb)) && e.change.Nothing?
  {}

  lemma NoLimiter(cfg: Config, s: State, msg: Msg, r: Route)
    requires Plainly(cfg)
    ensures React(cfg, s, Limiting(msg, r), YES) == Quietly(Checking(msg, r))
  {}

  /** The first two gates. */
  lemma Enter(cfg: Config, s: State, pid: nat, msg: Msg)
    requires Plainly(cfg) && pid < |s.procs| && s.procs[pid] == Routing(msg)
    requires msg.env.Envelope? && msg.env.name == ""
    ensures var t := Exec(cfg, s, Go(pid, 2)); t == At(s, pid, Checking(msg, Bound(cfg, msg.env.verb)), t.log)
  {
    hide Step, Exec, PeriodStart, TallyAt;
    hide React;
    var r := Bound(cfg, msg.env.verb);
    RouteFound(cfg, s, msg);
    Nudge(cfg, s, pid, Limiting(msg, r));
    GoFirst(cfg, s, pid, 2);
    var s1 := Step(cfg, s, Advance(pid, YES));
    NoLimiter(cfg, s1, msg, r);
    Nudge(cfg, s1, pid, Checking(msg, r));
    GoFirst(cfg, s1, pid, 1);
    GoNone(cfg, Step(cfg, s1, Advance(pid, YES)), pid);
  }

  lemma GoSplit(cfg: Config, s: State, pid: nat, m: nat, n: nat)
    ensures Exec(cfg, s, Go(pid, m + n)) == Exec(cfg, Exec(cfg, s, Go(pid, m)), Go(pid, n))
    decreases m
  {
    hide Step;
    if m == 0 {
      GoNone(cfg, s, pid);
    } else {
      GoFirst(cfg, s, pid, m + n);
      GoFirst(cfg, s, pid, m);
      GoSplit(cfg, Step(cfg, s, Advance(pid, YES)), pid, m - 1, n);
    }
  }

  /** The quota check of a tool call that fits. */
  lemma PassGates(cfg: Config, s: State, pid: nat, msg: Msg)
    requires Plainly(cfg) && pid < |s.procs| && s.procs[pid] == Routing(msg)
    requires msg.env.Envelope? && msg.env.verb == CALL && msg.env.name == "" && UsageNow(cfg, s) < cfg.limit
    ensures var t := Exec(cfg, s, Go(pid, 4));
            |t.procs| == |s.procs| && AtBrink(cfg, t.procs[pid]) && t == At(s, pid, t.procs[pid], t.log)
            && t.procs[pid].msg == msg
  {
    hide Step, Exec, PeriodStart, TallyAt, Go;
    var r, start := Bound(cfg, CALL), PeriodStart(cfg, s.now);
    Enter(cfg, s, pid, msg);
    GoSplit(cfg, s, pid, 2, 2);
    var s1 := Exec(cfg, s, Go(pid, 2));
    Nudge(cfg, s1, pid, Measuring(msg, r, start));
    GoFirst(cfg, s1, pid, 2);
    var s2 := Step(cfg, s1, Advance(pid, YES));
    Nudge(cfg, s2, pid, Authorizing(msg, r.(since := start)));
    GoFirst(cfg, s2, pid, 1);
    GoNone(cfg, Step(cfg, s2, Advance(pid, YES)), pid);
  }

  /** Other messages pass without one. */
  lemma PassUnmetered(cfg: Config, s: State, pid: nat, msg: Msg)
    requires Plainly(cfg) && pid < |s.procs| && s.procs[pid] == Routing(msg)
    requires msg.env.Envelope? && msg.env.verb != CALL && msg.env.name == ""
    ensures var t := Exec(cfg, s, Go(pid, 3)); t == At(s, pid, Authorizing(msg, Bound(cfg, msg.env.verb)), t.log)
  {
    hide Step, Exec, PeriodStart, TallyAt, Go;
    Enter(cfg, s, pid, msg);
    GoSplit(cfg, s, pid, 2, 1);
    var s1 := Exec(cfg, s, Go(pid, 2));
    Nudge(cfg, s1, pid, Authorizing(msg, Bound(cfg, msg.env.verb)));
    GoFirst(cfg, s1, pid, 1);
    GoNone(cfg, Step(cfg, s1, Advance(pid, YES)), pid);
  }

  lemma GoNone(cfg: Config, s: State, pid: nat)
    ensures Exec(cfg, s, Go(pid, 0)) == s
  {}

  /** From the brink to the write. */
  lemma Send(cfg: Config, s: State, pid: nat)
    requires Warm(cfg, s) && pid < |s.procs| && AtBrink(cfg, s.procs[pid])
    ensures var t := Exec(cfg, s, Go(pid, 3)); t == At(s, pid, Counting(s.procs[pid].msg, s.procs[pid].route), t.log)
  {
    hide Step, Exec, PeriodStart;
    var Authorizing(msg, r) := s.procs[pid];
    Nudge(cfg, s, pid, Looking(msg, r));
    GoFirst(cfg, s, pid, 3);
    var s1 := Step(cfg, s, Advance(pid, YES));
    Nudge(cfg, s1, pid, Writing(msg, r, s.backends[cfg.boundServer]));
    GoFirst(cfg, s1, pid, 2);
    var s2 := Step(cfg, s1, Advance(pid, YES));
    Nudge(cfg, s2, pid, Counting(msg, r));
    GoFirst(cfg, s2, pid, 1);
    GoNone(cfg, Step(cfg, s2, Advance(pid, YES)), pid);
  }

  /** From the brink to the count. */
  lemma Deliver(cfg: Config, s: State, pid: nat)
    requires Plainly(cfg) && Warm(cfg, s) && pid < |s.procs| && AtBrink(cfg, s.procs[pid])
    ensures var t := Exec(cfg, s, Go(pid, 5));
            && |t.procs| == |s.procs| && t.procs[pid].Crediting? && t.procs[pid].msg == s.procs[pid].msg
            && t == At(s, pid, t.procs[pid], t.log).(tally := t.tally)
            && UsageNow(cfg, t) == UsageNow(cfg, s) + 1
  {
    hide Step, Exec, PeriodStart, Go;
    var Authorizing(msg, r) := s.procs[pid];
    var start := PeriodStart(cfg, s.now);
    Send(cfg, s, pid);
    GoSplit(cfg, s, pid, 3, 2);
    var s1 := Exec(cfg, s, Go(pid, 3));
    Nudge(cfg, s1, pid, Posting(msg, r, start));
    GoFirst(cfg, s1, pid, 2);
    var s2 := Step(cfg, s1, Advance(pid, YES));
    CountStep(cfg, s2, pid, msg, r, start);
    GoFirst(cfg, s2, pid, 1);
    GoNone(cfg, Step(cfg, s2, Advance(pid, YES)), pid);
  }

  lemma CountStep(cfg: Config, s: State, pid: nat, msg: Msg, r: Route, start: int)
    requires pid < |s.procs| && s.procs[pid] == Posting(msg, r, start)
    ensures var t := Step(cfg, s, Advance(pid, YES));
            t == At(s, pid, Crediting(msg, r, [Counted(start)]),
                    t.log).(tally := s.tally[start := TallyAt(s.tally, start) + 1])
  {}

  // ---------------------------------------------------------------- one message at a time

  /** Slots, clock and backends as before. */
  ghost predicate Same(s: State, t: State) {
    t.slots == s.slots && t.now == s.now && t.backends == s.backends && t.unhealthy == s.unhealthy
  }

  /** A notification starts its handler. */
  lemma Notify(cfg: Config, s: State, verb: string)
    requires s.loop.Reading?
    ensures var t := Step(cfg, s, Receive(Message(false, verb)));
            t == s.(loop := Inline(|s.procs|), received := s.received + 1,
                    procs := s.procs + [Routing(Msg(s.received, true, Message(false, verb)))])
  {}

  /** A request gets a free slot and starts its handler. */
  lemma Request(cfg: Config, s: State, verb: string)
    requires s.loop.Reading? && s.slots < SLOTS
    ensures var t := Exec(cfg, s, [Receive(Message(true, verb)), Acquire, Spawn]);
            t == s.(slots := s.slots + 1, received := s.received + 1,
                    procs := s.procs + [Routing(Msg(s.received, false, Message(true, verb)))])
  {
    var a, b, c := Receive(Message(true, verb)), Acquire, Spawn;
    assert [a, b, c][1..] == [b, c] && [b, c][1..] == [c] && [c][1..] == [];
    var s1 := Step(cfg, s, a);
    var s2 := Step(cfg, s1, b);
    assert Exec(cfg, s, [a, b, c]) == Exec(cfg, s1, [b, c]) == Exec(cfg, s2, [c]) == Exec(cfg, Step(cfg, s2, c), []);
  }

  /** The last steps of a notification's handler. */
  lemma Conclude(cfg: Config, s: State, pid: nat)
    requires pid < |s.procs| && s.loop == Inline(pid) && s.procs[pid].Crediting? && s.procs[pid].msg.inline
    ensures var t := Exec(cfg, s, Go(pid, 1) + [Resume]);
            |t.procs| == |s.procs| && t == At(s, pid, t.procs[pid], t.log).(loop := Reading)
  {
    hide Exec;
    var Crediting(msg, r, settled) := s.procs[pid];
    Nudge(cfg, s, pid, Finished(msg, Delivered(r, settled)));
    GoFirst(cfg, s, pid, 1);
    var t := Step(cfg, s, Advance(pid, YES));
    GoNone(cfg, t, pid);
    ExecConcat(cfg, s, Go(pid, 1), [Resume]);
    ExecOne(cfg, t, Resume);
  }

  /** A tool call as a notification, from start to end: usage grows by one. */
  lemma Serve(cfg: Config, s: State) returns (actions: seq<Action>)
    requires Plainly(cfg) && Warm(cfg, s) && s.loop.Reading? && UsageNow(cfg, s) < cfg.limit
    ensures Smooth(actions)
    ensures var t := Exec(cfg, s, actions); Same(s, t) && t.loop.Reading? && UsageNow(cfg, t) == UsageNow(cfg, s) + 1
  {
    hide Step, Exec, PeriodStart, TallyAt, Go, Smooth;
    var pid := |s.procs|;
    var first := Receive(Message(false, CALL));
    Notify(cfg, s, CALL);
    var s1 := Step(cfg, s, first);
    ExecOne(cfg, s, first);
    PassGates(cfg, s1, pid, s1.procs[pid].msg);
    var s2 := Exec(cfg, s1, Go(pid, 4));
    Deliver(cfg, s2, pid);
    var s3 := Exec(cfg, s2, Go(pid, 5));
    Conclude(cfg, s3, pid);
    actions := [first] + (Go(pid, 4) + (Go(pid, 5) + (Go(pid, 1) + [Resume])));
    ExecConcat(cfg, s2, Go(pid, 5), Go(pid, 1) + [Resume]);
    ExecConcat(cfg, s1, Go(pid, 4), Go(pid, 5) + (Go(pid, 1) + [Resume]));
    ExecConcat(cfg, s, [first], Go(pid, 4) + (Go(pid, 5) + (Go(pid, 1) + [Resume])));
    ServeSmooth(cfg, s, pid, first);
  }

  lemma ServeSmooth(cfg: Config, s: State, pid: nat, first: Action)
    requires !first.Advance?
    ensures Smooth([first] + (Go(pid, 4) + (Go(pid, 5) + (Go(pid, 1) + [Resume]))))
  {
    hide Go;
    GoSmooth(pid, 4);
    GoSmooth(pid, 5);
    GoSmooth(pid, 1);
  }

  /** Usage can be brought up to any value below the limit. */
  lemma {:induction false} FillUp(cfg: Config, s: State, k: nat) returns (actions: seq<Action>)
    requires Plainly(cfg) && Warm(cfg, s) && s.loop.Reading? && UsageNow(cfg, s) + k <= cfg.limit
    ensures Smooth(actions)
    ensures var t := Exec(cfg, s, actions); Same(s, t) && t.loop.Reading? && UsageNow(cfg, t) == UsageNow(cfg, s) + k
    decreases k
  {
    hide Step, PeriodStart, TallyAt;
    if k == 0 {
      actions := [];
    } else {
      var first := Serve(cfg, s);
      var t := Exec(cfg, s, first);
      var rest := FillUp(cfg, t, k - 1);
      actions := first + rest;
      ExecConcat(cfg, s, first, rest);
    }
  }

  /** The last `k` processes stand at the brink. */
  ghost predicate Brink(cfg: Config, s: State, k: nat) {
    k <= |s.procs| && forall i :: |s.procs| - k <= i < |s.procs| ==> AtBrink(cfg, s.procs[i])
  }

  /** One more request at the brink. */
  lemma Park(cfg: Config, s: State, k: nat) returns (actions: seq<Action>)
    requires Plainly(cfg) && s.loop.Reading? && s.slots < SLOTS && UsageNow(cfg, s) < cfg.limit && Brink(cfg, s, k)
    ensures Smooth(actions)
    ensures var t := Exec(cfg, s, actions);
            t == s.(slots := s.slots + 1, received := s.received + 1, procs := t.procs, log := t.log)
                && Brink(cfg, t, k + 1)
  {
    hide Step, Exec, PeriodStart, TallyAt, Go;
    var pid := |s.procs|;
    var first := [Receive(Message(true, CALL)), Acquire, Spawn];
    Request(cfg, s, CALL);
    var s1 := Exec(cfg, s, first);
    PassGates(cfg, s1, pid, s1.procs[pid].msg);
    GoSmooth(pid, 4);
    ExecConcat(cfg, s, first, Go(pid, 4));
    actions := first + Go(pid, 4);
  }

  /** All free slots taken by requests at the brink. */
  lemma {:induction false} ParkAll(cfg: Config, s: State, k: nat) returns (actions: seq<Action>)
    requires Plainly(cfg) && s.loop.Reading? && s.slots == k <= SLOTS && UsageNow(cfg, s) < cfg.limit
        && Brink(cfg, s, k)
    ensures Smooth(actions)
    ensures var t := Exec(cfg, s, actions);
            t == s.(slots := SLOTS, received := t.received, procs := t.procs, log := t.log) && Brink(cfg, t, SLOTS)
    decreases SLOTS - k
  {
    hide Step, PeriodStart, TallyAt, Brink;
    if k == SLOTS {
      actions := [];
    } else {
      hide Exec;
      var first := Park(cfg, s, k);
      var t := Exec(cfg, s, first);
      var rest := ParkAll(cfg, t, k + 1);
      actions := first + rest;
      ExecConcat(cfg, s, first, rest);
    }
  }

  /** And a notification beside them. */
  lemma ParkInline(cfg: Config, s: State, k: nat) returns (actions: seq<Action>)
    requires Plainly(cfg) && s.loop.Reading? && UsageNow(cfg, s) < cfg.limit && Brink(cfg, s, k)
    ensures Smooth(actions)
    ensures var t := Exec(cfg, s, actions); Same(s, t) && t.tally == s.tally && Brink(cfg, t, k + 1)
  {
    hide Step, Exec, PeriodStart, TallyAt, Go;
    var pid := |s.procs|;
    var first := Receive(Message(false, CALL));
    Notify(cfg, s, CALL);
    var s1 := Step(cfg, s, first);
    ExecOne(cfg, s, first);
    PassGates(cfg, s1, pid, s1.procs[pid].msg);
    GoSmooth(pid, 4);
    ExecConcat(cfg, s, [first], Go(pid, 4));
    actions := [first] + Go(pid, 4);
  }

  /** Every handler at the brink is counted, whatever the usage has become. */
  lemma {:induction false} Spill(cfg: Config, s: State, from: nat) returns (actions: seq<Action>)
    requires Plainly(cfg) && Warm(cfg, s) && from <= |s.procs|
    requires forall i :: from <= i < |s.procs| ==> AtBrink(cfg, s.procs[i])
    ensures Smooth(actions)
    ensures var t := Exec(cfg, s, actions);
            t.now == s.now && UsageNow(cfg, t) == UsageNow(cfg, s) + (|s.procs| - from)
    decreases |s.procs| - from
  {
    hide Step, PeriodStart, TallyAt, Go;
    if from == |s.procs| {
      actions := [];
    } else {
      hide Exec;
      Deliver(cfg, s, from);
      var t := Exec(cfg, s, Go(from, 5));
      GoSmooth(from, 5);
      var rest := Spill(cfg, t, from + 1);
      actions := Go(from, 5) + rest;
      ExecConcat(cfg, s, Go(from, 5), rest);
    }
  }

  // ---------------------------------------------------------------- warming up

  lemma DialStep(cfg: Config, s: State, pid: nat, msg: Msg, r: Route)
    requires pid < |s.procs| && s.procs[pid] == Dialing(msg, r)
    ensures var t := Step(cfg, s, Advance(pid, YES));
            t == At(s, pid, Installing(msg, r, |s.dialed|), t.log).(dialed := s.dialed + [r.server])
  {}

  lemma InstallStep(cfg: Config, s: State, pid: nat, msg: Msg, r: Route, conn: nat)
    requires pid < |s.procs| && s.procs[pid] == Installing(msg, r, conn) && r.server !in s.backends
    ensures var t := Step(cfg, s, Advance(pid, YES));
            t == At(s, pid, Spawning(msg, r, conn), t.log).(backends := s.backends[r.server := conn],
                                                            installed := t.installed)
  {}

  lemma PumpStep(cfg: Config, s: State, pid: nat, msg: Msg, r: Route, conn: nat)
    requires pid < |s.procs| && s.procs[pid] == Spawning(msg, r, conn)
    ensures var t := Step(cfg, s, Advance(pid, YES));
            && t == s.(procs := t.procs, log := t.log, pumps := t.pumps)
            && |t.procs| > pid && t.procs[pid] == Writing(msg, r, conn)
  {}

  /** A handler dials and installs the backend of the bound server. */
  lemma Connect(cfg: Config, s: State, pid: nat, msg: Msg, r: Route)
    requires pid < |s.procs| && s.procs[pid] == Dialing(msg, r) && r.server !in s.backends
    ensures var t := Exec(cfg, s, Go(pid, 3));
            && |t.procs| > pid && t.procs[pid] == Writing(msg, r, |s.dialed|)
            && t.backends == s.backends[r.server := |s.dialed|] && t.unhealthy == s.unhealthy
            && t.loop == s.loop && t.slots == s.slots && t.tally == s.tally && t.now == s.now
  {
    hide Exec, Step;
    DialStep(cfg, s, pid, msg, r);
    GoFirst(cfg, s, pid, 3);
    var s1 := Step(cfg, s, Advance(pid, YES));
    InstallStep(cfg, s1, pid, msg, r, |s.dialed|);
    GoFirst(cfg, s1, pid, 2);
    var s2 := Step(cfg, s1, Advance(pid, YES));
    PumpStep(cfg, s2, pid, msg, r, |s.dialed|);
    GoFirst(cfg, s2, pid, 1);
    GoNone(cfg, Step(cfg, s2, Advance(pid, YES)), pid);
  }

  /** From the policy check to the start of the dial, with no backend yet. */
  lemma Approach(cfg: Config, s: State, pid: nat, msg: Msg, r: Route)
    requires pid < |s.procs| && s.procs[pid] == Authorizing(msg, r) && r.server !in s.backends
    ensures var t := Exec(cfg, s, Go(pid, 2)); t == At(s, pid, Dialing(msg, r), t.log)
  {
    hide Exec, Step;
    Nudge(cfg, s, pid, Looking(msg, r));
    GoFirst(cfg, s, pid, 2);
    var s1 := Step(cfg, s, Advance(pid, YES));
    Nudge(cfg, s1, pid, Dialing(msg, r));
    GoFirst(cfg, s1, pid, 1);
    GoNone(cfg, Step(cfg, s1, Advance(pid, YES)), pid);
  }

  /** The write of a message that is not counted. */
  lemma WriteOut(cfg: Config, s: State, pid: nat, msg: Msg, r: Route, conn: nat)
    requires pid < |s.procs| && s.procs[pid] == Writing(msg, r, conn) && !IsCall(r)
    ensures var t := Exec(cfg, s, Go(pid, 2)); t == At(s, pid, Crediting(msg, r, []), t.log)
  {
    hide Exec, Step, PeriodStart;
    Nudge(cfg, s, pid, Counting(msg, r));
    GoFirst(cfg, s, pid, 2);
    var s1 := Step(cfg, s, Advance(pid, YES));
    Nudge(cfg, s1, pid, Crediting(msg, r, []));
    GoFirst(cfg, s1, pid, 1);
    GoNone(cfg, Step(cfg, s1, Advance(pid, YES)), pid);
  }

  /** A first message that is not a tool call opens the backend. */
  lemma WarmUp(cfg: Config, now: int) returns (actions: seq<Action>)
    requires Plainly(cfg)
    ensures Smooth(actions)
    ensures var t := Exec(cfg, Init(now), actions);
            Warm(cfg, t) && t.loop.Reading? && t.slots == 0 && t.now == now && t.tally == map[]
  {
    hide Step, Exec, PeriodStart, Go;
    var s := Init(now);
    var r := Bound(cfg, "ping");
    var first := Receive(Message(false, "ping"));
    Notify(cfg, s, "ping");
    ExecOne(cfg, s, first);
    var s1 := Step(cfg, s, first);
    var msg := s1.procs[1].msg;
    PassUnmetered(cfg, s1, 1, msg);
    var s2 := Exec(cfg, s1, Go(1, 3));
    Approach(cfg, s2, 1, msg, r);
    var s3 := Exec(cfg, s2, Go(1, 2));
    Connect(cfg, s3, 1, msg, r);
    var s4 := Exec(cfg, s3, Go(1, 3));
    WriteOut(cfg, s4, 1, msg, r, 0);
    var s5 := Exec(cfg, s4, Go(1, 2));
    Conclude(cfg, s5, 1);
    var end := Go(1, 1) + [Resume];
    ExecConcat(cfg, s4, Go(1, 2), end);
    ExecConcat(cfg, s3, Go(1, 3), Go(1, 2) + end);
    ExecConcat(cfg, s2, Go(1, 2), Go(1, 3) + (Go(1, 2) + end));
    ExecConcat(cfg, s1, Go(1, 3), Go(1, 2) + (Go(1, 3) + (Go(1, 2) + end)));
    ExecConcat(cfg, s, [first], Go(1, 3) + (Go(1, 2) + (Go(1, 3) + (Go(1, 2) + end))));
    actions := [first] + (Go(1, 3) + (Go(1, 2) + (Go(1, 3) + (Go(1, 2) + end))));
    GoSmooth(1, 1);
    GoSmooth(1, 2);
    GoSmooth(1, 3);
  }

  /** The bound is attained: for every configuration of this kind some run, with a reliable store and
      within one period, ends with usage ten above the limit. */
  lemma OvershootAttained(cfg: Config, now: int) returns (actions: seq<Action>)
    requires Plainly(cfg)
    ensures ReliableRun(cfg, Init(now), actions)
    ensures UsageNow(cfg, Exec(cfg, Init(now), actions)) == cfg.limit + 10
  {
    hide Step, Exec, PeriodStart, ReliableRun, Smooth;
    var s := Init(now);
    var a := WarmUp(cfg, now);
    var s1 := Exec(cfg, s, a);
    var b := FillUp(cfg, s1, cfg.limit - 1);
    var s2 := Exec(cfg, s1, b);
    var c := ParkAll(cfg, s2, 0);
    var s3 := Exec(cfg, s2, c);
    var d := ParkInline(cfg, s3, SLOTS);
    var s4 := Exec(cfg, s3, d);
    var e := Spill(cfg, s4, |s4.procs| - HANDLERS);
    actions := a + (b + (c + (d + e)));
    ExecConcat(cfg, s3, d, e);
    ExecConcat(cfg, s2, c, d + e);
    ExecConcat(cfg, s1, b, c + (d + e));
    ExecConcat(cfg, s, a, b + (c + (d + e)));
    SmoothIsReliable(cfg, s, actions);
  }
}
