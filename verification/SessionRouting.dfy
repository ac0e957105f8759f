/** Where messages go and that they get there: every handler carries the route its message was given,
    writes it to a connection dialed for that server, throws out connections it finds unhealthy, and
    ends after a bounded number of its own steps. */
module SessionRouting {
  import opened Common
  import opened Session
  import opened SessionOwnership

  // ---------------------------------------------------------------- the route is kept

  /** The route a handler carries, or ended with. */
  function RouteOf(p: Proc): Option<Route> {
    match p
    case Routing(_) => None
    case Releasing(_, outcome) => if outcome.Unrouted? then None else Some(outcome.route)
    case Finished(_, outcome) => if outcome.Unrouted? then None else Some(outcome.route)
    case Dropping(_, cont) => if cont.AfterWrite? then Some(cont.route) else None
    case Returning(_, cont) => if cont.AfterWrite? then Some(cont.route) else None
    case Pumping(_, _) => None
    case Stopped => None
    case Reaping(_) => None
    case _ => Some(p.route)
  }

  ghost predicate WellRouted(bound: string, p: Proc) {
    RouteOf(p).Some? ==> MsgOf(p).Some? && Rightly(bound, MsgOf(p).value.env, RouteOf(p).value)
  }

  /** The answer the router gives is the one a handler goes by. */
  lemma ReactRoutes(cfg: Config, s: State, p: Proc, input: Input)
    requires WellRouted(cfg.boundServer, p)
    ensures var e := React(cfg, s, p, input);
            && WellRouted(cfg.boundServer, e.next)
            && (p.Routing? && RouteOf(e.next).Some? ==> RouteOf(e.next).value.answer == input.resolution)
            && (p.Routing? && Unroutable(cfg.boundServer, p.msg.env, input.resolution) ==>
                e.said == Some(Event(p.msg.id, Answered)))
            && (RouteOf(p).Some? ==> RouteOf(e.next).Some? && RouteOf(e.next).value.answer == RouteOf(p).value.answer)
  {
    if p.Routing? {
      hide RouteMessage, NamesTool, Rightly;
      if Unroutable(cfg.boundServer, p.msg.env, input.resolution) {
        UnroutableRefused(cfg, s, p, input);
      }
    } else {
      hide React, Rightly, RouteOf, MsgOf, Unroutable;
      ReactKeepsMessage(cfg, s, p, input);
      ReactKeepsRoute(cfg, s, p, input);
      if RouteOf(p).Some? {
        PeriodIrrelevant(cfg.boundServer, MsgOf(p).value.env, RouteOf(p).value,
                         RouteOf(React(cfg, s, p, input).next).value.since);
      }
    }
  }

  lemma PeriodIrrelevant(bound: string, env: Envelope, r: Route, since: int)
    ensures Rightly(bound, env, r.(since := since)) <==> Rightly(bound, env, r)
  {}

  lemma UnroutableRefused(cfg: Config, s: State, p: Proc, input: Input)
    requires p.Routing? && Unroutable(cfg.boundServer, p.msg.env, input.resolution)
    ensures React(cfg, s, p, input).said == Some(Event(p.msg.id, Answered))
  {
    hide Unroutable, Rightly, NamesTool;
  }

  /** Past the routing step a handler changes nothing of its route but the period checked. */
  lemma ReactKeepsRoute(cfg: Config, s: State, p: Proc, input: Input)
    requires !p.Routing?
    ensures var before, after := RouteOf(p), RouteOf(React(cfg, s, p, input).next);
            && (after.Some? <==> before.Some?)
            && (before.Some? ==> after.value == before.value.(since := after.value.since))
  {
    hide RouteMessage, PeriodStart, TallyAt, QuotaAllows, IsCall;
  }

  ghost predicate AllRouted(cfg: Config, s: State) {
    forall i :: 0 <= i < |s.procs| ==> WellRouted(cfg.boundServer, s.procs[i])
  }

  lemma AllRoutedStep(cfg: Config, s: State, a: Action)
    requires AllRouted(cfg, s)
    ensures AllRouted(cfg, Step(cfg, s, a))
  {
    hide React, AdvanceStep, LoopStep, WellRouted;
    var t := Step(cfg, s, a);
    if a.Advance? && a.pid < |s.procs| {
      AdvanceFrame(cfg, s, a.pid, a.input);
      ReactRoutes(cfg, s, s.procs[a.pid], a.input);
      forall p: Proc | p.Pumping? ensures WellRouted(cfg.boundServer, p) { NoRouteYet(cfg.boundServer, p); }
    } else {
      hide Step;
      OtherFrame(cfg, s, a);
      forall p: Proc | p.Routing? ensures WellRouted(cfg.boundServer, p) { NoRouteYet(cfg.boundServer, p); }
    }
  }

  lemma NoRouteYet(bound: string, p: Proc)
    requires p.Routing? || p.Pumping?
    ensures WellRouted(bound, p)
  {}

  lemma {:induction false} AllRoutedRun(cfg: Config, s: State, actions: seq<Action>)
    requires AllRouted(cfg, s)
    ensures AllRouted(cfg, Exec(cfg, s, actions))
    decreases |actions|
  {
    hide Step, AllRouted;
    if actions != [] {
      AllRoutedStep(cfg, s, actions[0]);
      AllRoutedRun(cfg, Step(cfg, s, actions[0]), actions[1..]);
    }
  }

  // ---------------------------------------------------------------- and the message goes there

  /** Connections in a handler's hands are dialed for the server of its route. */
  ghost predicate Addressed(s: State, p: Proc) {
    && (p.Installing? || p.Spawning? || p.Yielding? || p.Writing? ==>
          p.conn < |s.dialed| && s.dialed[p.conn] == p.route.server)
    && (p.Yielding? ==> p.winner < |s.dialed| && s.dialed[p.winner] == p.route.server)
  }

  lemma MappedIsDialed(s: State, server: string)
    requires Owned(View(s)) && server in s.backends
    ensures s.backends[server] < |s.dialed| && s.dialed[s.backends[server]] == server
  {}

  lemma ReactAddresses(cfg: Config, s: State, p: Proc, input: Input)
    requires Addressed(s, p)
    requires forall server :: server in s.backends ==>
               s.backends[server] < |s.dialed| && s.dialed[s.backends[server]] == server
    ensures var e := React(cfg, s, p, input);
            var dialed := s.dialed + (if e.change.DialTo? then [e.change.server] else []);
            Addressed(s.(dialed := dialed), e.next)
  {
    hide RouteMessage, PeriodStart, TallyAt, QuotaAllows, IsCall;
  }

  ghost predicate AllAddressed(s: State) {
    forall i :: 0 <= i < |s.procs| ==> Addressed(s, s.procs[i])
  }

  lemma AllAddressedAdvance(cfg: Config, s: State, pid: nat, input: Input)
    requires AllAddressed(s) && Owned(View(s)) && pid < |s.procs|
    ensures AllAddressed(AdvanceStep(cfg, s, pid, input))
  {
    hide React, Owned;
    var e := React(cfg, s, s.procs[pid], input);
    var t := AdvanceStep(cfg, s, pid, input);
    forall server | server in s.backends
      ensures s.backends[server] < |s.dialed| && s.dialed[s.backends[server]] == server
    {
      MappedIsDialed(s, server);
    }
    ReactAddresses(cfg, s, s.procs[pid], input);
    AdvanceFrame(cfg, s, pid, input);
    assert t.dialed == s.dialed + (if e.change.DialTo? then [e.change.server] else []);
  }

  lemma AllAddressedOther(cfg: Config, s: State, a: Action)
    requires AllAddressed(s) && (a.Advance? ==> a.pid >= |s.procs|)
    ensures AllAddressed(Step(cfg, s, a))
  {
    var t := Step(cfg, s, a);
    assert t.dialed == s.dialed;
  }

  lemma {:induction false} AllAddressedRun(cfg: Config, s: State, actions: seq<Action>)
    requires AllAddressed(s) && Owned(View(s)) && Aimed(s)
    ensures AllAddressed(Exec(cfg, s, actions))
    decreases |actions|
  {
    hide AllAddressed, Owned, Aimed, View;
    if actions != [] {
      var a := actions[0];
      if a.Advance? && a.pid < |s.procs| {
        AllAddressedAdvance(cfg, s, a.pid, a.input);
      } else {
        AllAddressedOther(cfg, s, a);
      }
      hide Step;
      StepIsMove(cfg, s, a);
      MoveOwned(View(s), MoveOf(cfg, s, a));
      AimedStep(cfg, s, a);
      AllAddressedRun(cfg, Step(cfg, s, a), actions[1..]);
    }
  }

  /** In every reachable state, a handler about to write carries the route its message was given, and the
      connection it writes to was dialed for that route's server. */
  lemma WrittenWhereRouted(cfg: Config, now: int, actions: seq<Action>, i: nat)
    requires i < |Exec(cfg, Init(now), actions).procs|
    ensures var s := Exec(cfg, Init(now), actions);
            var p := s.procs[i];
            && (RouteOf(p).Some? ==>
                  MsgOf(p).Some? && Rightly(cfg.boundServer, MsgOf(p).value.env, RouteOf(p).value))
            && (p.Writing? ==> p.conn < |s.dialed| && s.dialed[p.conn] == p.route.server)
  {
    hide Exec, Rightly;
    InitOwned(now);
    AllRoutedRun(cfg, Init(now), actions);
    AllAddressedRun(cfg, Init(now), actions);
    var s := Exec(cfg, Init(now), actions);
    assert WellRouted(cfg.boundServer, s.procs[i]) && Addressed(s, s.procs[i]);
  }

  // ---------------------------------------------------------------- handlers end

  /** A handler's own steps until it has finished, at most. */
  function StepsLeft(p: Proc): nat {
    match p
    case Routing(_) => 16
    case Limiting(_, _) => 15
    case Checking(_, _) => 14
    case Measuring(_, _, _) => 13
    case Authorizing(_, _) => 12
    case Looking(_, _) => 11
    case Evicting(_, _, _) => 10
    case Dialing(_, _) => 9
    case Installing(_, _, _) => 8
    case Spawning(_, _, _) => 7
    case Yielding(_, _, _, _) => 7
    case Writing(_, _, _) => 6
    case Dropping(_, _) => 5
    case Returning(_, _) => 4
    case Counting(_, _) => 4
    case Apologizing(_, _) => 3
    case Posting(_, _, _) => 3
    case Rejecting(_, _, _) => 3
    case Unreachable(_, _) => 2
    case Blaming(_, _) => 2
    case Crediting(_, _, _) => 2
    case Releasing(_, _) => 1
    case _ => 0
  }

  /** Whatever the outside answers, every step of a handler brings it nearer to its end. */
  lemma ReactProgress(cfg: Config, s: State, p: Proc, input: Input)
    requires MsgOf(p).Some?
    ensures var e := React(cfg, s, p, input);
            MsgOf(e.next).Some? && (if p.Finished? then e.next == p else StepsLeft(e.next) < StepsLeft(p))
    ensures StepsLeft(p) == 0 <==> p.Finished?
  {
    hide RouteMessage, PeriodStart, TallyAt, QuotaAllows, IsCall;
  }

  /** How often one process moves. */
  function Turns(actions: seq<Action>, pid: nat): nat {
    if actions == [] then 0
    else (if actions[0].Advance? && actions[0].pid == pid then 1 else 0) + Turns(actions[1..], pid)
  }

  lemma {:induction false} HandlerRun(cfg: Config, s: State, pid: nat, actions: seq<Action>)
    requires pid < |s.procs| && MsgOf(s.procs[pid]).Some?
    ensures var t := Exec(cfg, s, actions);
            && pid < |t.procs| && MsgOf(t.procs[pid]) == MsgOf(s.procs[pid])
            && (Turns(actions, pid) >= StepsLeft(s.procs[pid]) ==> t.procs[pid].Finished?)
            && (Turns(actions, pid) == 0 ==> t.procs[pid] == s.procs[pid])
    decreases |actions|
  {
    hide React, AdvanceStep, LoopStep, MsgOf, StepsLeft;
    ReactProgress(cfg, s, s.procs[pid], Input(true, true, Unresolvable, []));
    if actions != [] {
      var a := actions[0];
      var t := Step(cfg, s, a);
      if a.Advance? && a.pid < |s.procs| {
        AdvanceFrame(cfg, s, a.pid, a.input);
        ReactProgress(cfg, s, s.procs[pid], a.input);
        ReactKeepsMessage(cfg, s, s.procs[pid], a.input);
      } else {
        OtherFrame(cfg, s, a);
      }
      hide Step;
      HandlerRun(cfg, t, pid, actions[1..]);
    }
  }

  /** Every handler finishes within sixteen of its own steps, whatever the outside answers and whoever
      else moves in between. */
  lemma HandlerFinishes(cfg: Config, now: int, before: seq<Action>, pid: nat, actions: seq<Action>)
    requires pid < |Exec(cfg, Init(now), before).procs|
    requires MsgOf(Exec(cfg, Init(now), before).procs[pid]).Some?
    requires Turns(actions, pid) >= 16
    ensures var t := Exec(cfg, Exec(cfg, Init(now), before), actions);
            pid < |t.procs| && t.procs[pid].Finished?
  {
    hide Exec, MsgOf;
    HandlerRun(cfg, Exec(cfg, Init(now), before), pid, actions);
  }

  // ---------------------------------------------------------------- unhealthy connections go

  /** Looking up a backend: a healthy one is used, an unhealthy one is taken out of the map into the
      handler's hands, a missing one is dialed. */
  lemma LookupDecides(cfg: Config, s: State, pid: nat, input: Input)
    requires pid < |s.procs| && s.procs[pid].Looking?
    ensures var Looking(msg, route) := s.procs[pid];
            var t := AdvanceStep(cfg, s, pid, input);
            if route.server !in s.backends then t.procs[pid] == Dialing(msg, route) && t.backends == s.backends
            else if s.backends[route.server] in s.unhealthy
            then t.procs[pid] == Evicting(msg, route, s.backends[route.server]) && route.server !in t.backends
            else t.procs[pid] == Writing(msg, route, s.backends[route.server]) && t.backends == s.backends
  {}

  lemma {:induction false} ReturnedStays(cfg: Config, s: State, actions: seq<Action>)
    ensures s.returned <= Exec(cfg, s, actions).returned
    decreases |actions|
  {
    hide React;
    if actions != [] {
      var t := Step(cfg, s, actions[0]);
      assert s.returned <= t.returned;
      ReturnedStays(cfg, t, actions[1..]);
    }
  }

  lemma GivesBack(cfg: Config, s: State, pid: nat, input: Input)
    requires pid < |s.procs| && s.procs[pid].Evicting?
    ensures s.procs[pid].conn in AdvanceStep(cfg, s, pid, input).returned
  {
    var t := AdvanceStep(cfg, s, pid, input);
    assert t.returned[|s.returned|] == s.procs[pid].conn;
  }

  /** A connection found unhealthy is gone for good: whatever others do, once the handler that found it
      has moved again it is back in the pool, and it is never mapped again. */
  lemma UnhealthyIsEvicted(cfg: Config, now: int, before: seq<Action>, pid: nat, input: Input,
                           between: seq<Action>, input': Input, after: seq<Action>)
    requires var s := Exec(cfg, Init(now), before);
             && pid < |s.procs| && s.procs[pid].Looking?
             && s.procs[pid].route.server in s.backends && s.backends[s.procs[pid].route.server] in s.unhealthy
    requires Turns(between, pid) == 0
    ensures var s := Exec(cfg, Init(now), before);
            var conn := s.backends[s.procs[pid].route.server];
            var t := Exec(cfg, s, [Advance(pid, input)] + between + [Advance(pid, input')] + after);
            conn in t.returned && !Mapped(View(t), conn)
  {
    var s := Exec(cfg, Init(now), before);
    var conn := s.backends[s.procs[pid].route.server];
    var a, b := Advance(pid, input), Advance(pid, input');
    LookupDecides(cfg, s, pid, input);
    var s1 := Step(cfg, s, a);
    hide Exec, Step, MsgOf;
    assert MsgOf(s1.procs[pid]).Some? by { EvictingHasMessage(s1.procs[pid]); }
    HandlerRun(cfg, s1, pid, between);
    var s2 := Exec(cfg, s1, between);
    assert conn in Step(cfg, s2, b).returned by { GiveBackStep(cfg, s2, pid, input'); }
    var s3 := Step(cfg, s2, b);
    ReturnedStays(cfg, s3, after);
    ExecParts(cfg, s, a, between, b, after);
    var t := Exec(cfg, s3, after);
    ExecJoin(cfg, Init(now), before, [a] + between + [b] + after);
    ReturnedUnmapped(cfg, now, before + ([a] + between + [b] + after), conn);
  }

  lemma EvictingHasMessage(p: Proc)
    requires p.Evicting?
    ensures MsgOf(p).Some?
  {}

  lemma GiveBackStep(cfg: Config, s: State, pid: nat, input: Input)
    requires pid < |s.procs| && s.procs[pid].Evicting?
    ensures s.procs[pid].conn in Step(cfg, s, Advance(pid, input)).returned
  {
    hide AdvanceStep;
    GivesBack(cfg, s, pid, input);
  }

  lemma ReturnedUnmapped(cfg: Config, now: int, actions: seq<Action>, conn: nat)
    requires conn in Exec(cfg, Init(now), actions).returned
    ensures !Mapped(View(Exec(cfg, Init(now), actions)), conn)
  {
    hide Exec;
    InitOwned(now);
    OwnershipInvariant(cfg, Init(now), actions);
  }

  lemma ExecParts(cfg: Config, s: State, a: Action, between: seq<Action>, b: Action, after: seq<Action>)
    ensures Exec(cfg, s, [a] + between + [b] + after)
         == Exec(cfg, Step(cfg, Exec(cfg, Step(cfg, s, a), between), b), after)
  {
    hide Step;
    ExecJoin(cfg, s, [a] + between + [b], after);
    ExecJoin(cfg, s, [a] + between, [b]);
    ExecJoin(cfg, s, [a], between);
    assert [a][1..] == [] && [b][1..] == [];
  }

  // ---------------------------------------------------------------- who drops a backend

  /** Dropping by name is set off by a failed write, for the server written to; by a failed read of a pump,
      for the pump's server; and by the reaper, for each name on its list in turn. */
  lemma DropsAreMade(cfg: Config, s: State, p: Proc, input: Input)
    ensures var next := React(cfg, s, p, input).next;
            && (p.Writing? && !input.ok ==> next == Dropping(p.route.server, AfterWrite(p.msg, p.route)))
            && (p.Pumping? ==> next == if input.ok then p else if input.alt then Dropping(p.server, PumpExit)
                else Stopped)
            && (p.Reaping? && p.names != [] ==> next == Dropping(p.names[0], ReapRest(p.names[1..])))
            && (p.Reaping? && p.names == [] ==> next == Reaping(input.names))
  {}

  /** A drop takes out whatever is mapped under the name, and gives it back on the next step; then the
      dropper goes on: with the error answer, with its end, or with the rest of the list. */
  lemma DropTakesOut(cfg: Config, s: State, pid: nat, input: Input)
    requires pid < |s.procs|
    ensures var p := s.procs[pid];
            var t := AdvanceStep(cfg, s, pid, input);
            && (p.Dropping? ==> p.server !in t.backends && t.backends == s.backends - {p.server})
            && (p.Dropping? && p.server in s.backends ==> t.procs[pid] == Returning(s.backends[p.server], p.cont))
            && (p.Dropping? && p.server !in s.backends ==> Resumed(t.procs[pid], p.cont))
            && (p.Returning? ==> t.returned == s.returned + [p.conn] && Resumed(t.procs[pid], p.cont))
  {
    if s.procs[pid].Dropping? && s.procs[pid].server !in s.backends {
      assert s.backends - {s.procs[pid].server} == s.backends;
    }
  }

  predicate Resumed(p: Proc, cont: Cont) {
    match cont
    case AfterWrite(msg, route) => p == Apologizing(msg, route)
    case PumpExit => p == Stopped
    case ReapRest(names) => p == Reaping(names)
  }
}
