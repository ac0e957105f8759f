/** What becomes of every message: each is written once, after passing every gate, or answered with
    one error; and quota counts and usage events match the tool calls written. */
module SessionAccounting {
  import opened Common
  import opened Session
  import opened SessionQuota

  /** What was seen to happen to one message, in order. */
  function OnMsg(log: seq<Event>, id: nat): seq<What> {
    if log == [] then []
    else
      var last := log[|log| - 1];
      OnMsg(log[..|log| - 1], id) + if last.msg == id then [last.what] else []
  }

  /** Gates passed before the quota check, before the policy check, and before the backend. */
  function Limits(cfg: Config): seq<What> {
    if cfg.limiter then [Passed(RouteGate), Passed(LimitGate)] else [Passed(RouteGate)]
  }

  function Admitted(cfg: Config, route: Route): seq<What> {
    if cfg.quota && IsCall(route) then Limits(cfg) + [Passed(QuotaGate)] else Limits(cfg)
  }

  function Cleared(cfg: Config, route: Route): seq<What> {
    Admitted(cfg, route) + [Passed(PolicyGate)]
  }

  /** Appending, with nothing to append left alone. */
  function Then(ws: seq<What>, more: seq<What>): seq<What> {
    if more == [] then ws else ws + more
  }

  function Delivery(cfg: Config, route: Route, settled: seq<What>): seq<What> {
    Then(Cleared(cfg, route) + [Wrote(IsCall(route))], settled)
  }

  function Credit(cfg: Config, route: Route, success: bool): seq<What> {
    if cfg.tracker && IsCall(route) then [Tracked(success)] else []
  }

  function EndTrace(cfg: Config, outcome: Outcome): seq<What> {
    match outcome
    case Unrouted => [Answered]
    case Limited(_) => [Passed(RouteGate), Answered]
    case OverQuota(_) => Limits(cfg) + [Answered]
    case Forbidden(route) => Admitted(cfg, route) + [Answered]
    case NoBackend(route) => Cleared(cfg, route) + [Answered]
    case WriteLost(route) => Then(Cleared(cfg, route) + [WriteFailed(IsCall(route))] + [Answered],
                                  Credit(cfg, route, false))
    case Delivered(route, settled) => Then(Delivery(cfg, route, settled), Credit(cfg, route, true))
  }

  /** The whole history of a message, told by the point its handler has reached. */
  function Trace(cfg: Config, p: Proc): seq<What> {
    match p
    case Routing(_) => []
    case Limiting(_, _) => [Passed(RouteGate)]
    case Checking(_, _) => Limits(cfg)
    case Measuring(_, _, _) => Limits(cfg)
    case Authorizing(_, route) => Admitted(cfg, route)
    case Apologizing(_, route) => Cleared(cfg, route) + [WriteFailed(IsCall(route))]
    case Dropping(_, cont) => if cont.AfterWrite? then Cleared(cfg, cont.route) + [WriteFailed(IsCall(cont.route))]
        else []
    case Returning(_, cont) => if cont.AfterWrite? then Cleared(cfg, cont.route) + [WriteFailed(IsCall(cont.route))]
        else []
    case Blaming(_, route) => Cleared(cfg, route) + [WriteFailed(IsCall(route))] + [Answered]
    case Counting(_, route) => Cleared(cfg, route) + [Wrote(IsCall(route))]
    case Posting(_, route, _) => Cleared(cfg, route) + [Wrote(IsCall(route))]
    case Crediting(_, route, settled) => Delivery(cfg, route, settled)
    case Releasing(_, outcome) => EndTrace(cfg, outcome)
    case Finished(_, outcome) => EndTrace(cfg, outcome)
    case Pumping(_, _) => []
    case Stopped => []
    case Reaping(_) => []
    case _ => Cleared(cfg, p.route)
  }

  // ---------------------------------------------------------------- counting what happened

  ghost function Hits(ws: seq<What>, p: What -> bool): nat {
    if ws == [] then 0 else Hits(ws[..|ws| - 1], p) + One(p(ws[|ws| - 1]))
  }

  ghost function LogHits(log: seq<Event>, p: What -> bool): nat {
    if log == [] then 0 else LogHits(log[..|log| - 1], p) + One(p(log[|log| - 1].what))
  }

  lemma HitsAppend(ws: seq<What>, w: What, p: What -> bool)
    ensures Hits(ws + [w], p) == Hits(ws, p) + One(p(w))
  {
    assert (ws + [w])[..|ws|] == ws;
  }

  lemma LogAppend(log: seq<Event>, e: Event, p: What -> bool, id: nat)
    ensures LogHits(log + [e], p) == LogHits(log, p) + One(p(e.what))
    ensures OnMsg(log + [e], id) == OnMsg(log, id) + if e.msg == id then [e.what] else []
  {
    assert (log + [e])[..|log|] == log;
  }

  predicate WroteAny(w: What) { w.Wrote? }
  predicate ErrorSent(w: What) { w.Answered? }
  predicate WroteCall(w: What) { w == Wrote(true) }
  predicate LostCall(w: What) { w == WriteFailed(true) }
  predicate CountTried(w: What) { w.Counted? || w.CountFailed? }
  predicate WasCounted(w: What) { w.Counted? }
  predicate CountRefused(w: What) { w.CountFailed? }
  predicate SuccessTracked(w: What) { w == Tracked(true) }
  predicate FailureTracked(w: What) { w == Tracked(false) }

  // ---------------------------------------------------------------- one step

  /** Counting a delivered message has one result, and only tool calls under a quota are checked and
      counted. */
  predicate Settled(cfg: Config, route: Route, settled: seq<What>) {
    if cfg.quota && IsCall(route) then |settled| == 1 && CountTried(settled[0]) else settled == []
  }

  predicate WellSettled(cfg: Config, p: Proc) {
    match p
    case Measuring(_, route, _) => cfg.quota && IsCall(route)
    case Posting(_, route, _) => cfg.quota && IsCall(route)
    case Crediting(_, route, settled) => Settled(cfg, route, settled)
    case Releasing(_, outcome) => outcome.Delivered? ==> Settled(cfg, outcome.route, outcome.settled)
    case Finished(_, outcome) => outcome.Delivered? ==> Settled(cfg, outcome.route, outcome.settled)
    case _ => true
  }

  /** The words of an optional event. */
  function Words(said: Option<Event>): seq<What> {
    if said.Some? then [said.value.what] else []
  }

  predicate AtGate(p: Proc) {
    p.Routing? || p.Limiting? || p.Checking? || p.Measuring? || p.Authorizing?
  }

  lemma GateTrace(cfg: Config, s: State, p: Proc, input: Input)
    requires AtGate(p) && WellSettled(cfg, p)
    ensures var e := React(cfg, s, p, input); Trace(cfg, e.next) == Then(Trace(cfg, p), Words(e.said))
  {
    hide RouteMessage, PeriodStart, TallyAt, QuotaAllows, Delivery, Credit;
  }

  predicate AtEnd(p: Proc) {
    p.Counting? || p.Posting? || p.Crediting? || p.Blaming? || p.Releasing? || p.Finished?
  }

  lemma MiddleTrace(cfg: Config, s: State, p: Proc, input: Input)
    requires !AtGate(p) && !AtEnd(p)
    ensures var e := React(cfg, s, p, input); Trace(cfg, e.next) == Then(Trace(cfg, p), Words(e.said))
  {
    hide RouteMessage, PeriodStart, TallyAt, QuotaAllows, IsCall, Cleared, Admitted, Limits, Delivery, EndTrace, Credit;
    if p.Unreachable? {
      hide React;
      RefusedTrace(cfg, s, p, input);
    }
  }

  lemma RefusedTrace(cfg: Config, s: State, p: Proc, input: Input)
    requires p.Unreachable?
    ensures var e := React(cfg, s, p, input); Trace(cfg, e.next) == Then(Trace(cfg, p), Words(e.said))
  {
    hide Cleared;
  }

  lemma CountingTrace(cfg: Config, s: State, p: Proc, input: Input)
    requires p.Counting? || p.Posting?
    ensures var e := React(cfg, s, p, input); Trace(cfg, e.next) == Then(Trace(cfg, p), Words(e.said))
  {
    hide RouteMessage, PeriodStart, TallyAt, QuotaAllows, Cleared, EndTrace, IsCall;
  }

  lemma CreditingTrace(cfg: Config, s: State, p: Proc, input: Input)
    requires p.Crediting? || p.Blaming?
    ensures var e := React(cfg, s, p, input); Trace(cfg, e.next) == Then(Trace(cfg, p), Words(e.said))
  {
    hide RouteMessage, PeriodStart, TallyAt, QuotaAllows, Cleared, Delivery, IsCall;
  }

  lemma EndingTrace(cfg: Config, s: State, p: Proc, input: Input)
    requires AtEnd(p)
    ensures var e := React(cfg, s, p, input); Trace(cfg, e.next) == Then(Trace(cfg, p), Words(e.said))
  {
    if p.Counting? || p.Posting? {
      hide React, Trace;
      CountingTrace(cfg, s, p, input);
    } else if p.Crediting? || p.Blaming? {
      hide React, Trace;
      CreditingTrace(cfg, s, p, input);
    } else {
      hide EndTrace;
    }
  }

  /** Every gate is decided by the outside, and by it alone: the route exists and is deployable, the
      limiter and the policy allow, the measured usage is below a hard limit (or is not enforced, or could
      not be looked up), the write succeeds. What is not passed is answered with an error. */
  lemma GatesAreDecided(cfg: Config, s: State, p: Proc, input: Input)
    ensures var said := React(cfg, s, p, input).said;
            && (p.Routing? ==> said == Some(Verdict(p.msg, RouteGate,
                  input.ok && !Unroutable(cfg.boundServer, p.msg.env, input.resolution))))
            && (p.Limiting? && cfg.limiter ==> said == Some(Verdict(p.msg, LimitGate, input.ok)))
            && (p.Measuring? ==> said == Some(Verdict(p.msg, QuotaGate,
                  !input.ok || !cfg.enforceHard || TallyAt(s.tally, p.start) < cfg.limit)))
            && (p.Authorizing? ==> said == Some(Verdict(p.msg, PolicyGate, input.ok)))
            && (p.Writing? ==>
                  said == Some(Event(p.msg.id, if input.ok then Wrote(IsCall(p.route))
                                     else WriteFailed(IsCall(p.route)))))
  {
    hide Unroutable, Rightly, PeriodStart, TallyAt;
  }

  /** Only the gates let anything pass, and only the write writes. */
  lemma OnlyGatesPass(cfg: Config, s: State, p: Proc, input: Input)
    requires !p.Routing? && !p.Limiting? && !p.Measuring? && !p.Authorizing? && !p.Writing?
    ensures var said := React(cfg, s, p, input).said;
            said.Some? ==> !said.value.what.Passed? && !said.value.what.Wrote? && !said.value.what.WriteFailed?
  {
    hide RouteMessage, PeriodStart, TallyAt, QuotaAllows, IsCall;
  }

  function Verdict(msg: Msg, gate: Gate, yes: bool): Event {
    Event(msg.id, if yes then Passed(gate) else Answered)
  }

  /** The tally moves only with a `Counted` event, by that event's period. */
  lemma ReactCounts(cfg: Config, s: State, p: Proc, input: Input)
    ensures var e := React(cfg, s, p, input);
            && (e.change.CountIn? <==> e.said.Some? && e.said.value.what.Counted?)
            && (e.change.CountIn? ==> e.said.value.what == Counted(e.change.start))
  {
    hide RouteMessage, PeriodStart, TallyAt, QuotaAllows;
  }

  lemma ReactSettled(cfg: Config, s: State, p: Proc, input: Input)
    requires WellSettled(cfg, p)
    ensures WellSettled(cfg, React(cfg, s, p, input).next)
  {
    hide RouteMessage, PeriodStart, TallyAt, QuotaAllows;
  }

  /** The history of a process grows by exactly what its step logs. */
  lemma ReactTrace(cfg: Config, s: State, p: Proc, input: Input)
    requires WellSettled(cfg, p)
    ensures var e := React(cfg, s, p, input);
            Trace(cfg, e.next) == Then(Trace(cfg, p), Words(e.said)) && WellSettled(cfg, e.next)
  {
    hide React, Trace, Then;
    ReactSettled(cfg, s, p, input);
    if AtGate(p) {
      GateTrace(cfg, s, p, input);
    } else if AtEnd(p) {
      EndingTrace(cfg, s, p, input);
    } else {
      MiddleTrace(cfg, s, p, input);
    }
  }

  // ---------------------------------------------------------------- whole runs

  /** The message the read loop is still holding back. */
  function LoopMsg(s: State): Option<Msg> {
    if s.loop.Waiting? || s.loop.Granted? then Some(s.loop.msg) else None
  }

  /** Messages are numbered as received; every process tells the whole history of its message, no two
      share one, and messages without a process have been answered as malformed or wait in the loop. */
  ghost predicate TraceOk(cfg: Config, s: State) {
    && (forall i :: 0 <= i < |s.procs| && MsgOf(s.procs[i]).Some? ==>
          var id := MsgOf(s.procs[i]).value.id;
          id < s.received && id !in s.malformed && OnMsg(s.log, id) == Trace(cfg, s.procs[i]))
    && (forall i, j :: 0 <= i < j < |s.procs| && MsgOf(s.procs[i]).Some? && MsgOf(s.procs[j]).Some? ==>
          MsgOf(s.procs[i]).value.id != MsgOf(s.procs[j]).value.id)
    && (LoopMsg(s).Some? ==>
          var id := LoopMsg(s).value.id;
          && id < s.received && id !in s.malformed && OnMsg(s.log, id) == []
          && forall i :: 0 <= i < |s.procs| && MsgOf(s.procs[i]).Some? ==> MsgOf(s.procs[i]).value.id != id)
    && (forall id :: id in s.malformed ==> id < s.received && OnMsg(s.log, id) == [Answered])
    && (forall id: nat :: id >= s.received ==> OnMsg(s.log, id) == [])
    && (forall i :: 0 <= i < |s.procs| ==> WellSettled(cfg, s.procs[i]))
  }

  lemma OnMsgLogged(log: seq<Event>, said: Option<Event>, id: nat)
    ensures OnMsg(Logged(log, said), id) == if said.Some?
        && said.value.msg == id then OnMsg(log, id) + [said.value.what] else OnMsg(log, id)
  {
    if said.Some? {
      LogAppend(log, said.value, WroteAny, id);
    }
  }

  lemma TraceOkAdvance(cfg: Config, s: State, pid: nat, input: Input)
    requires pid < |s.procs| && TraceOk(cfg, s)
    ensures TraceOk(cfg, AdvanceStep(cfg, s, pid, input))
  {
    hide React, AdvanceStep, Trace, WellSettled, OnMsg;
    var t := AdvanceStep(cfg, s, pid, input);
    var p := s.procs[pid];
    var e := React(cfg, s, p, input);
    AdvanceFrame(cfg, s, pid, input);
    ReactTrace(cfg, s, p, input);
    ReactKeepsMessage(cfg, s, p, input);
    forall id: nat
      ensures OnMsg(t.log, id) == if e.said.Some? && e.said.value.msg
          == id then OnMsg(s.log, id) + [e.said.value.what] else OnMsg(s.log, id)
    {
      OnMsgLogged(s.log, e.said, id);
    }
    forall i | 0 <= i < |t.procs|
      ensures i < |s.procs| ==> MsgOf(t.procs[i]) == MsgOf(s.procs[i])
      ensures i >= |s.procs| ==> MsgOf(t.procs[i]) == None
      ensures i < |s.procs| && i != pid ==> t.procs[i] == s.procs[i]
      ensures WellSettled(cfg, t.procs[i])
    {
      if i >= |s.procs| {
        PumpSettled(cfg, t.procs[i]);
      }
    }
  }

  lemma PumpSettled(cfg: Config, p: Proc)
    requires p.Pumping? || p.Routing?
    ensures WellSettled(cfg, p)
  {}

  /** A malformed message is answered on the spot. */
  lemma TraceOkMalformed(cfg: Config, s: State)
    requires TraceOk(cfg, s)
    ensures TraceOk(cfg, s.(log := s.log + [Event(s.received, Answered)], malformed := s.malformed + {s.received},
                            received := s.received + 1))
  {
    hide OnMsg, Trace, WellSettled;
    var log := s.log + [Event(s.received, Answered)];
    forall id: nat
      ensures OnMsg(log, id) == if id == s.received then OnMsg(s.log, id) + [Answered] else OnMsg(s.log, id)
    {
      LogAppend(s.log, Event(s.received, Answered), WroteAny, id);
    }
  }

  lemma NothingYet(cfg: Config, msg: Msg)
    ensures Trace(cfg, Routing(msg)) == []
  {}

  /** A handler starts on a message nothing has happened to. */
  lemma TraceOkJoin(cfg: Config, s: State, t: State, msg: Msg)
    requires TraceOk(cfg, s)
    requires s.received <= t.received && t.malformed == s.malformed && t.log == s.log && LoopMsg(t).None?
    requires t.procs == s.procs + [Routing(msg)]
    requires LoopMsg(s) == Some(msg) || (msg.id == s.received < t.received)
    ensures TraceOk(cfg, t)
  {
    hide OnMsg, WellSettled, Trace;
    assert Trace(cfg, Routing(msg)) == [] by { NothingYet(cfg, msg); }
    assert forall i :: 0 <= i < |s.procs| ==> t.procs[i] == s.procs[i];
    PumpSettled(cfg, Routing(msg));
    assert msg.id !in s.malformed && OnMsg(s.log, msg.id) == [];
  }

  /** The read loop takes on a new message, or moves on with the one it holds. */
  lemma TraceOkQuiet(cfg: Config, s: State, t: State)
    requires TraceOk(cfg, s)
    requires t.procs == s.procs && t.malformed == s.malformed && t.log == s.log && s.received <= t.received
    requires LoopMsg(t) == None || LoopMsg(t) == LoopMsg(s) || (LoopMsg(t).value.id == s.received < t.received)
    ensures TraceOk(cfg, t)
  {
    hide OnMsg, Trace, WellSettled, MsgOf;
  }

  lemma TraceOkLoop(cfg: Config, s: State, a: Action)
    requires TraceOk(cfg, s)
    ensures TraceOk(cfg, LoopStep(s, a))
  {
    hide OnMsg, Trace, WellSettled;
    var t := LoopStep(s, a);
    hide TraceOk;
    if t.log != s.log {
      TraceOkMalformed(cfg, s);
    } else if t.procs != s.procs {
      TraceOkJoin(cfg, s, t, t.procs[|s.procs|].msg);
    } else {
      TraceOkQuiet(cfg, s, t);
    }
  }

  lemma TraceOkStep(cfg: Config, s: State, a: Action)
    requires TraceOk(cfg, s)
    ensures TraceOk(cfg, Step(cfg, s, a))
  {
    hide AdvanceStep, LoopStep, Trace, OnMsg, WellSettled;
    if a.Advance? && a.pid < |s.procs| {
      TraceOkAdvance(cfg, s, a.pid, a.input);
    } else if !a.Advance? && !a.Tick? && !a.Flag? {
      TraceOkLoop(cfg, s, a);
    }
  }

  lemma {:induction false} TraceInvariant(cfg: Config, s: State, actions: seq<Action>)
    requires TraceOk(cfg, s)
    ensures TraceOk(cfg, Exec(cfg, s, actions))
    decreases |actions|
  {
    hide TraceOk, Step;
    if actions != [] {
      TraceOkStep(cfg, s, actions[0]);
      TraceInvariant(cfg, Step(cfg, s, actions[0]), actions[1..]);
    }
  }

  /** Some process handles the message. */
  ghost predicate HandlerOf(s: State, id: nat, i: int) {
    0 <= i < |s.procs| && MsgOf(s.procs[i]).Some? && MsgOf(s.procs[i]).value.id == id
  }

  ghost predicate Handled(s: State, id: nat) {
    exists i :: HandlerOf(s, id, i)
  }

  /** No received message is forgotten. */
  ghost predicate Placed(s: State) {
    forall id: nat :: id < s.received ==>
      id in s.malformed || (LoopMsg(s).Some? && LoopMsg(s).value.id == id) || Handled(s, id)
  }

  lemma HandledGrows(s: State, t: State, id: nat)
    requires Handled(s, id) && |s.procs| <= |t.procs|
    requires forall i :: 0 <= i < |s.procs| ==> MsgOf(t.procs[i]) == MsgOf(s.procs[i])
    ensures Handled(t, id)
  {
    var i :| HandlerOf(s, id, i);
    assert HandlerOf(t, id, i);
  }

  lemma PlacedAdvance(cfg: Config, s: State, pid: nat, input: Input)
    requires pid < |s.procs| && Placed(s)
    ensures Placed(AdvanceStep(cfg, s, pid, input))
  {
    hide React, AdvanceStep, MsgOf, Handled;
    var t := AdvanceStep(cfg, s, pid, input);
    AdvanceFrame(cfg, s, pid, input);
    ReactKeepsMessage(cfg, s, s.procs[pid], input);
    forall id: nat | Handled(s, id) ensures Handled(t, id) {
      HandledGrows(s, t, id);
    }
  }

  lemma PlacedOther(cfg: Config, s: State, a: Action)
    requires Placed(s) && (a.Advance? ==> a.pid >= |s.procs|)
    ensures Placed(Step(cfg, s, a))
  {
    hide MsgOf, Handled;
    var t := Step(cfg, s, a);
    OtherFrame(cfg, s, a);
    forall id: nat | Handled(s, id) ensures Handled(t, id) {
      HandledGrows(s, t, id);
    }
    if t.procs != s.procs {
      NewHandler(t, |s.procs|);
    }
  }

  lemma NewHandler(t: State, i: nat)
    requires i < |t.procs| && t.procs[i].Routing?
    ensures Handled(t, t.procs[i].msg.id)
  {
    assert HandlerOf(t, t.procs[i].msg.id, i);
  }

  lemma {:induction false} PlacedInvariant(cfg: Config, s: State, actions: seq<Action>)
    requires Placed(s)
    ensures Placed(Exec(cfg, s, actions))
    decreases |actions|
  {
    if actions != [] {
      var t := Step(cfg, s, actions[0]);
      if actions[0].Advance? && actions[0].pid < |s.procs| {
        hide AdvanceStep, Placed;
        PlacedAdvance(cfg, s, actions[0].pid, actions[0].input);
        PlacedInvariant(cfg, t, actions[1..]);
      } else {
        hide Step, Placed;
        PlacedOther(cfg, s, actions[0]);
        PlacedInvariant(cfg, t, actions[1..]);
      }
    }
  }

  // ---------------------------------------------------------------- what a history adds up to

  ghost predicate GateBlind(p: What -> bool) {
    forall g :: !p(Passed(g))
  }

  lemma ClearedHits(cfg: Config, route: Route, p: What -> bool)
    requires GateBlind(p)
    ensures Hits(Limits(cfg), p) == 0 && Hits(Admitted(cfg, route), p) == 0 && Hits(Cleared(cfg, route), p) == 0
  {
    HitsAppend([], Passed(RouteGate), p);
    assert [] + [Passed(RouteGate)] == [Passed(RouteGate)];
    HitsAppend([Passed(RouteGate)], Passed(LimitGate), p);
    assert [Passed(RouteGate)] + [Passed(LimitGate)] == [Passed(RouteGate), Passed(LimitGate)];
    HitsAppend(Limits(cfg), Passed(QuotaGate), p);
    HitsAppend(Admitted(cfg, route), Passed(PolicyGate), p);
  }

  lemma ThenHits(ws: seq<What>, more: seq<What>, p: What -> bool)
    requires |more| <= 1
    ensures Hits(Then(ws, more), p) == Hits(ws, p) + if more == [] then 0 else One(p(more[0]))
  {
    if more != [] {
      assert more == [more[0]];
      HitsAppend(ws, more[0], p);
    }
  }

  /** Hits of a predicate in the history of an ended message, gates aside. */
  ghost function OutcomeHits(cfg: Config, outcome: Outcome, p: What -> bool): nat {
    match outcome
    case WriteLost(route) =>
      One(p(WriteFailed(IsCall(route)))) + One(p(Answered)) + One(Credit(cfg, route, false) != [] && p(Tracked(false)))
    case Delivered(route, settled) =>
      One(p(Wrote(IsCall(route)))) + One(settled != [] && p(settled[0]))
      + One(Credit(cfg, route, true) != [] && p(Tracked(true)))
    case _ => One(p(Answered))
  }

  /** The histories that end in one refusal. */
  lemma RefusedHits(cfg: Config, outcome: Outcome, p: What -> bool)
    requires GateBlind(p) && !outcome.WriteLost? && !outcome.Delivered?
    ensures Hits(EndTrace(cfg, outcome), p) == One(p(Answered))
  {
    hide Cleared, Admitted, Limits, Hits;
    match outcome
    case Unrouted =>
      OneHit(Answered, p);
    case Limited(_) =>
      OneHit(Passed(RouteGate), p);
      HitsAppend([Passed(RouteGate)], Answered, p);
      assert [Passed(RouteGate)] + [Answered] == [Passed(RouteGate), Answered];
    case OverQuota(route) =>
      ClearedHits(cfg, route, p);
      HitsAppend(Limits(cfg), Answered, p);
    case Forbidden(route) =>
      ClearedHits(cfg, route, p);
      HitsAppend(Admitted(cfg, route), Answered, p);
    case NoBackend(route) =>
      ClearedHits(cfg, route, p);
      HitsAppend(Cleared(cfg, route), Answered, p);
  }

  lemma OneHit(w: What, p: What -> bool)
    ensures Hits([w], p) == One(p(w))
  {
    assert [w][..0] == [];
  }

  lemma LostHits(cfg: Config, route: Route, p: What -> bool)
    requires GateBlind(p)
    ensures Hits(EndTrace(cfg, WriteLost(route)), p) == OutcomeHits(cfg, WriteLost(route), p)
  {
    hide Cleared, Hits, IsCall, Then;
    var w, gates, credit := WriteFailed(IsCall(route)), Cleared(cfg, route), Credit(cfg, route, false);
    ClearedHits(cfg, route, p);
    HitsAppend(gates, w, p);
    HitsAppend(gates + [w], Answered, p);
    ThenHits(gates + [w] + [Answered], credit, p);
  }

  lemma DeliveredHits(cfg: Config, route: Route, settled: seq<What>, p: What -> bool)
    requires GateBlind(p) && Settled(cfg, route, settled)
    ensures Hits(EndTrace(cfg, Delivered(route, settled)), p) == OutcomeHits(cfg, Delivered(route, settled), p)
  {
    hide Delivery, Hits, IsCall, Then, Settled;
    DeliveryHits(cfg, route, settled, p);
    ThenHits(Delivery(cfg, route, settled), Credit(cfg, route, true), p);
  }

  lemma EndTraceHits(cfg: Config, outcome: Outcome, p: What -> bool)
    requires GateBlind(p) && (outcome.Delivered? ==> Settled(cfg, outcome.route, outcome.settled))
    ensures Hits(EndTrace(cfg, outcome), p) == OutcomeHits(cfg, outcome, p)
  {
    hide EndTrace, Hits, Settled, GateBlind;
    if outcome.WriteLost? {
      LostHits(cfg, outcome.route, p);
    } else if outcome.Delivered? {
      DeliveredHits(cfg, outcome.route, outcome.settled, p);
    } else {
      RefusedHits(cfg, outcome, p);
    }
  }

  lemma DeliveryHits(cfg: Config, route: Route, settled: seq<What>, p: What -> bool)
    requires GateBlind(p) && Settled(cfg, route, settled)
    ensures Hits(Delivery(cfg, route, settled), p) == One(p(Wrote(IsCall(route)))) + One(settled != [] && p(settled[0]))
  {
    hide Cleared;
    ClearedHits(cfg, route, p);
    HitsAppend(Cleared(cfg, route), Wrote(IsCall(route)), p);
    ThenHits(Cleared(cfg, route) + [Wrote(IsCall(route))], settled, p);
  }

  ghost function PointHits(cfg: Config, x: Proc, p: What -> bool): nat {
    match x
    case Apologizing(_, route) => One(p(WriteFailed(IsCall(route))))
    case Dropping(_, cont) => One(cont.AfterWrite? && p(WriteFailed(IsCall(cont.route))))
    case Returning(_, cont) => One(cont.AfterWrite? && p(WriteFailed(IsCall(cont.route))))
    case Blaming(_, route) => One(p(WriteFailed(IsCall(route)))) + One(p(Answered))
    case Counting(_, route) => One(p(Wrote(IsCall(route))))
    case Posting(_, route, _) => One(p(Wrote(IsCall(route))))
    case Crediting(_, route, settled) => One(p(Wrote(IsCall(route)))) + One(settled != [] && p(settled[0]))
    case Releasing(_, outcome) => OutcomeHits(cfg, outcome, p)
    case Finished(_, outcome) => OutcomeHits(cfg, outcome, p)
    case _ => 0
  }

  lemma TraceHits(cfg: Config, x: Proc, p: What -> bool)
    requires GateBlind(p) && WellSettled(cfg, x)
    ensures Hits(Trace(cfg, x), p) == PointHits(cfg, x, p)
  {
    hide Cleared, Admitted, Limits, EndTrace, Delivery;
    match x
    case Routing(_) =>
    case Limiting(_, _) =>
      HitsAppend([], Passed(RouteGate), p);
      assert [] + [Passed(RouteGate)] == [Passed(RouteGate)];
    case Apologizing(_, route) =>
      ClearedHits(cfg, route, p);
      HitsAppend(Cleared(cfg, route), WriteFailed(IsCall(route)), p);
    case Dropping(_, cont) =>
      if cont.AfterWrite? {
        ClearedHits(cfg, cont.route, p);
        HitsAppend(Cleared(cfg, cont.route), WriteFailed(IsCall(cont.route)), p);
      }
    case Returning(_, cont) =>
      if cont.AfterWrite? {
        ClearedHits(cfg, cont.route, p);
        HitsAppend(Cleared(cfg, cont.route), WriteFailed(IsCall(cont.route)), p);
      }
    case Blaming(_, route) =>
      ClearedHits(cfg, route, p);
      HitsAppend(Cleared(cfg, route), WriteFailed(IsCall(route)), p);
      HitsAppend(Cleared(cfg, route) + [WriteFailed(IsCall(route))], Answered, p);
    case Counting(_, route) =>
      ClearedHits(cfg, route, p);
      HitsAppend(Cleared(cfg, route), Wrote(IsCall(route)), p);
    case Posting(_, route, _) =>
      ClearedHits(cfg, route, p);
      HitsAppend(Cleared(cfg, route), Wrote(IsCall(route)), p);
    case Crediting(_, route, settled) => DeliveryHits(cfg, route, settled, p);
    case Releasing(_, outcome) => EndTraceHits(cfg, outcome, p);
    case Finished(_, outcome) => EndTraceHits(cfg, outcome, p);
    case Pumping(_, _) =>
    case Stopped =>
    case Reaping(_) =>
    case _ => ClearedHits(cfg, x.route, p);
  }

  /** Every message whose handling has ended was either written to a backend once and never answered
      with an error, having passed the route, limiter, quota and policy gates before, or was answered
      with exactly one error and never written. */
  lemma MessageVerdict(cfg: Config, now: int, actions: seq<Action>, i: nat)
    requires var s := Exec(cfg, Init(now), actions); i < |s.procs| && s.procs[i].Finished?
    ensures var s := Exec(cfg, Init(now), actions);
            var Finished(msg, outcome) := s.procs[i];
            var history := OnMsg(s.log, msg.id);
            && Hits(history, WroteAny) + Hits(history, ErrorSent) == 1
            && (Hits(history, WroteAny) == 1 <==> outcome.Delivered?)
            && (outcome.Delivered? ==> Cleared(cfg, outcome.route) <= history)
  {
    hide Exec, Hits, OnMsg, Trace, WellSettled, Cleared;
    var s := Exec(cfg, Init(now), actions);
    HistoryIsTrace(cfg, now, actions, i);
    FinishedVerdict(cfg, s.procs[i]);
  }

  /** The log of a message is the history told by the point its handler has reached. */
  lemma HistoryIsTrace(cfg: Config, now: int, actions: seq<Action>, i: nat)
    requires i < |Exec(cfg, Init(now), actions).procs|
    ensures var s := Exec(cfg, Init(now), actions);
            && WellSettled(cfg, s.procs[i])
            && (MsgOf(s.procs[i]).Some? ==> OnMsg(s.log, MsgOf(s.procs[i]).value.id) == Trace(cfg, s.procs[i]))
  {
    hide Exec, OnMsg, Trace, WellSettled;
    InitTraceOk(cfg, now);
    TraceInvariant(cfg, Init(now), actions);
  }

  lemma FinishedVerdict(cfg: Config, x: Proc)
    requires x.Finished? && WellSettled(cfg, x)
    ensures var history := Trace(cfg, x);
            && Hits(history, WroteAny) + Hits(history, ErrorSent) == 1
            && (Hits(history, WroteAny) == 1 <==> x.outcome.Delivered?)
            && (x.outcome.Delivered? ==> Cleared(cfg, x.outcome.route) <= history)
  {
    hide Cleared, Hits;
    TraceHits(cfg, x, WroteAny);
    TraceHits(cfg, x, ErrorSent);
  }

  /** No message escapes: in every run each received message was malformed and answered exactly once,
      or waits untouched in the read loop, or has exactly one handler, whose point tells its history. */
  lemma EveryMessage(cfg: Config, now: int, actions: seq<Action>, id: nat)
    requires id < Exec(cfg, Init(now), actions).received
    ensures var s := Exec(cfg, Init(now), actions);
            || (id in s.malformed && OnMsg(s.log, id) == [Answered] && !Handled(s, id))
            || (LoopMsg(s).Some? && LoopMsg(s).value.id == id && OnMsg(s.log, id) == [] && !Handled(s, id))
            || exists i :: HandlerOf(s, id, i) && OnMsg(s.log, id) == Trace(cfg, s.procs[i]) &&
                           forall j :: HandlerOf(s, id, j) ==> j == i
  {
    hide Exec, OnMsg, Trace, WellSettled;
    InitTraceOk(cfg, now);
    TraceInvariant(cfg, Init(now), actions);
    assert Placed(Init(now));
    PlacedInvariant(cfg, Init(now), actions);
    var s := Exec(cfg, Init(now), actions);
    if Handled(s, id) {
      var i :| HandlerOf(s, id, i);
      assert forall j :: HandlerOf(s, id, j) ==> j == i;
    }
  }

  lemma InitTraceOk(cfg: Config, now: int)
    ensures TraceOk(cfg, Init(now))
  {}

  // ---------------------------------------------------------------- totals

  /** Written tool calls whose counting is still to come, whose success event is, and lost writes
      whose failure event is. */
  predicate CountDue(p: Proc) { (p.Counting? || p.Posting?) && IsCall(p.route) }
  predicate CreditDue(p: Proc) { (p.Counting? || p.Posting? || p.Crediting?) && IsCall(p.route) }

  predicate BlameDue(p: Proc) {
    match p
    case Dropping(_, cont) => cont.AfterWrite? && IsCall(cont.route)
    case Returning(_, cont) => cont.AfterWrite? && IsCall(cont.route)
    case Apologizing(_, route) => IsCall(route)
    case Blaming(_, route) => IsCall(route)
    case _ => false
  }

  ghost function SumHits(cfg: Config, procs: seq<Proc>, p: What -> bool): nat {
    if procs == [] then 0
    else SumHits(cfg, procs[..|procs| - 1], p) + Hits(Trace(cfg, procs[|procs| - 1]), p)
  }

  lemma {:induction false} SumUpdate(cfg: Config, procs: seq<Proc>, i: nat, x: Proc, p: What -> bool)
    requires i < |procs|
    ensures SumHits(cfg, procs[i := x], p) + Hits(Trace(cfg, procs[i]), p)
            == SumHits(cfg, procs, p) + Hits(Trace(cfg, x), p)
  {
    hide Trace;
    var init := procs[..|procs| - 1];
    if i == |procs| - 1 {
      assert procs[i := x][..i] == init;
    } else {
      SumUpdate(cfg, init, i, x, p);
      assert procs[i := x][..|procs| - 1] == init[i := x];
    }
  }

  /** The log is the union of the processes' histories (malformed messages only add answers). */
  lemma SumAdvance(cfg: Config, s: State, pid: nat, input: Input, p: What -> bool)
    requires pid < |s.procs| && LogHits(s.log, p) == SumHits(cfg, s.procs, p) && WellSettled(cfg, s.procs[pid])
    ensures var t := AdvanceStep(cfg, s, pid, input); LogHits(t.log, p) == SumHits(cfg, t.procs, p)
  {
    hide React, AdvanceStep, Trace;
    var t := AdvanceStep(cfg, s, pid, input);
    var e := React(cfg, s, s.procs[pid], input);
    AdvanceFrame(cfg, s, pid, input);
    ReactTrace(cfg, s, s.procs[pid], input);
    var moved := s.procs[pid := e.next];
    SumUpdate(cfg, s.procs, pid, e.next, p);
    ThenHits(Trace(cfg, s.procs[pid]), Words(e.said), p);
    if e.said.Some? {
      LogAppend(s.log, e.said.value, p, 0);
    }
    if e.change.StartPump? {
      SumJoin(cfg, moved, Pumping(e.change.server, e.change.conn), p);
    } else {
      assert moved + [] == moved;
    }
  }

  lemma SumJoin(cfg: Config, procs: seq<Proc>, x: Proc, p: What -> bool)
    requires x.Pumping? || x.Routing?
    ensures SumHits(cfg, procs + [x], p) == SumHits(cfg, procs, p)
  {
    assert (procs + [x])[..|procs|] == procs;
    assert Trace(cfg, x) == [];
  }

  lemma SumStep(cfg: Config, s: State, a: Action, p: What -> bool)
    requires !p(Answered) && LogHits(s.log, p) == SumHits(cfg, s.procs, p) && TraceOk(cfg, s)
    ensures var t := Step(cfg, s, a); LogHits(t.log, p) == SumHits(cfg, t.procs, p)
  {
    hide AdvanceStep, LoopStep, Trace, LogHits, SumHits;
    var t := Step(cfg, s, a);
    if a.Advance? && a.pid < |s.procs| {
      SumAdvance(cfg, s, a.pid, a.input, p);
    } else {
      hide Step;
      OtherFrame(cfg, s, a);
      if t.log != s.log {
        LogAppend(s.log, Event(s.received, Answered), p, 0);
      } else if t.procs != s.procs {
        SumJoin(cfg, s.procs, t.procs[|s.procs|], p);
      }
    }
  }

  lemma {:induction false} SumInvariant(cfg: Config, s: State, actions: seq<Action>, p: What -> bool)
    requires !p(Answered) && LogHits(s.log, p) == SumHits(cfg, s.procs, p) && TraceOk(cfg, s)
    ensures var t := Exec(cfg, s, actions); LogHits(t.log, p) == SumHits(cfg, t.procs, p)
    decreases |actions|
  {
    hide Step, LogHits, SumHits, TraceOk;
    if actions != [] {
      TraceOkStep(cfg, s, actions[0]);
      SumStep(cfg, s, actions[0], p);
      SumInvariant(cfg, Step(cfg, s, actions[0]), actions[1..], p);
    }
  }

  /** In one history, a written call is counted (or its counting failed) and credited, and a lost one
      is blamed, unless that is still to come. */
  lemma HistoryBalances(cfg: Config, x: Proc)
    requires WellSettled(cfg, x)
    ensures var t := Trace(cfg, x);
            && (cfg.quota ==> Hits(t, WroteCall) == Hits(t, CountTried) + One(CountDue(x)))
            && (cfg.tracker ==> Hits(t, WroteCall) == Hits(t, SuccessTracked) + One(CreditDue(x)))
            && (cfg.tracker ==> Hits(t, LostCall) == Hits(t, FailureTracked) + One(BlameDue(x)))
  {
    hide Trace, Hits, PointHits;
    TraceHits(cfg, x, WroteCall);
    TraceHits(cfg, x, CountTried);
    TraceHits(cfg, x, SuccessTracked);
    TraceHits(cfg, x, LostCall);
    TraceHits(cfg, x, FailureTracked);
    if cfg.quota {
      CountBalances(cfg, x);
    }
    if cfg.tracker {
      CreditBalances(cfg, x);
      BlameBalances(cfg, x);
    }
  }

  lemma CountBalances(cfg: Config, x: Proc)
    requires WellSettled(cfg, x) && cfg.quota
    ensures PointHits(cfg, x, WroteCall) == PointHits(cfg, x, CountTried) + One(CountDue(x))
  {}

  lemma CreditBalances(cfg: Config, x: Proc)
    requires WellSettled(cfg, x) && cfg.tracker
    ensures PointHits(cfg, x, WroteCall) == PointHits(cfg, x, SuccessTracked) + One(CreditDue(x))
  {}

  lemma BlameBalances(cfg: Config, x: Proc)
    requires WellSettled(cfg, x) && cfg.tracker
    ensures PointHits(cfg, x, LostCall) == PointHits(cfg, x, FailureTracked) + One(BlameDue(x))
  {}

  lemma {:induction false} SumsBalance(cfg: Config, procs: seq<Proc>)
    requires forall i :: 0 <= i < |procs| ==> WellSettled(cfg, procs[i])
    ensures cfg.quota ==> SumHits(cfg, procs, WroteCall) == SumHits(cfg, procs, CountTried) + Count(procs, CountDue)
    ensures cfg.tracker ==>
              SumHits(cfg, procs, WroteCall) == SumHits(cfg, procs, SuccessTracked) + Count(procs, CreditDue)
    ensures cfg.tracker ==>
              SumHits(cfg, procs, LostCall) == SumHits(cfg, procs, FailureTracked) + Count(procs, BlameDue)
  {
    hide Trace, WellSettled, CountDue, CreditDue, BlameDue;
    if procs != [] {
      SumsBalance(cfg, procs[..|procs| - 1]);
      HistoryBalances(cfg, procs[|procs| - 1]);
    }
  }

  lemma {:induction false} TriedIsCountedOrRefused(log: seq<Event>)
    ensures LogHits(log, CountTried) == LogHits(log, WasCounted) + LogHits(log, CountRefused)
  {
    if log != [] {
      TriedIsCountedOrRefused(log[..|log| - 1]);
    }
  }

  /** Accounting over every run: counting attempts and success events each equal the tool calls
      written, failure events equal the tool calls whose write failed, up to what handlers still
      running have yet to do. */
  lemma AccountsBalance(cfg: Config, now: int, actions: seq<Action>)
    ensures var s := Exec(cfg, Init(now), actions);
            && (cfg.quota ==> LogHits(s.log, CountTried) + Count(s.procs, CountDue) == LogHits(s.log, WroteCall))
            && (cfg.quota && LogHits(s.log, CountRefused) == 0 ==>
                  LogHits(s.log, WasCounted) + Count(s.procs, CountDue) == LogHits(s.log, WroteCall))
            && (cfg.tracker ==> LogHits(s.log, SuccessTracked) + Count(s.procs, CreditDue) == LogHits(s.log, WroteCall))
            && (cfg.tracker ==> LogHits(s.log, FailureTracked) + Count(s.procs, BlameDue) == LogHits(s.log, LostCall))
            && (Count(s.procs, Live) == 0 ==>
                  Count(s.procs, CountDue) == 0 && Count(s.procs, CreditDue) == 0 && Count(s.procs, BlameDue) == 0)
  {
    hide Exec, LogHits, SumHits, Count, WellSettled;
    RunSums(cfg, now, actions, WroteCall);
    RunSums(cfg, now, actions, CountTried);
    RunSums(cfg, now, actions, SuccessTracked);
    RunSums(cfg, now, actions, LostCall);
    RunSums(cfg, now, actions, FailureTracked);
    var s := Exec(cfg, Init(now), actions);
    forall i | 0 <= i < |s.procs|
      ensures WellSettled(cfg, s.procs[i])
    {
      HistoryIsTrace(cfg, now, actions, i);
    }
    SumsBalance(cfg, s.procs);
    TriedIsCountedOrRefused(s.log);
    CountMonotone(s.procs, CountDue, Live);
    CountMonotone(s.procs, CreditDue, Live);
    CountMonotone(s.procs, BlameDue, Live);
  }

  lemma RunSums(cfg: Config, now: int, actions: seq<Action>, p: What -> bool)
    requires !p(Answered)
    ensures var s := Exec(cfg, Init(now), actions); LogHits(s.log, p) == SumHits(cfg, s.procs, p)
  {
    hide Exec;
    var init := Init(now);
    assert init.procs[..0] == [];
    assert Trace(cfg, init.procs[0]) == [];
    InitTraceOk(cfg, now);
    SumInvariant(cfg, init, actions, p);
  }

  // ---------------------------------------------------------------- the tally is what was counted

  ghost function CountedAt(start: int): What -> bool {
    (w: What) => w == Counted(start)
  }

  ghost predicate TallyOk(s: State) {
    forall start :: TallyAt(s.tally, start) == LogHits(s.log, CountedAt(start))
  }

  lemma TallyOkAdvance(cfg: Config, s: State, pid: nat, input: Input)
    requires TallyOk(s) && pid < |s.procs|
    ensures TallyOk(AdvanceStep(cfg, s, pid, input))
  {
    hide AdvanceStep, React, LogHits, Trace, WellSettled;
    var t := AdvanceStep(cfg, s, pid, input);
    var e := React(cfg, s, s.procs[pid], input);
    AdvanceFrame(cfg, s, pid, input);
    ReactCounts(cfg, s, s.procs[pid], input);
    forall start
      ensures TallyAt(t.tally, start) == LogHits(t.log, CountedAt(start))
    {
      assert TallyAt(s.tally, start) == LogHits(s.log, CountedAt(start));
      if e.said.Some? {
        LogAppend(s.log, e.said.value, CountedAt(start), 0);
      }
    }
  }

  lemma TallyOkStep(cfg: Config, s: State, a: Action)
    requires TallyOk(s)
    ensures TallyOk(Step(cfg, s, a))
  {
    hide AdvanceStep, LoopStep, LogHits;
    var t := Step(cfg, s, a);
    if a.Advance? && a.pid < |s.procs| {
      TallyOkAdvance(cfg, s, a.pid, a.input);
    } else {
      hide Step;
      OtherFrame(cfg, s, a);
      forall start
        ensures TallyAt(t.tally, start) == LogHits(t.log, CountedAt(start))
      {
        assert TallyAt(s.tally, start) == LogHits(s.log, CountedAt(start));
        LogAppend(s.log, Event(s.received, Answered), CountedAt(start), 0);
      }
    }
  }

  /** The usage of a period is the number of calls counted into it, over every run. */
  lemma {:induction false} TallyInvariant(cfg: Config, s: State, actions: seq<Action>)
    requires TallyOk(s)
    ensures TallyOk(Exec(cfg, s, actions))
    decreases |actions|
  {
    hide TallyOk, Step;
    if actions != [] {
      TallyOkStep(cfg, s, actions[0]);
      TallyInvariant(cfg, Step(cfg, s, actions[0]), actions[1..]);
    }
  }
}
