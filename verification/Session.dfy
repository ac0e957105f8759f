/** A WebSocket session as a concurrent step system: the read loop, up to ten concurrent request
    handlers plus one inline notification handler, one pump per backend connection, and the idle
    reaper. Every lock region and every external call is one step; what the outside world answers
    (routing, limiter, policy, pool, network, clock) is an input of the step. */
module Session {
  import opened Common
  import Calendar
  import Quota

  const CALL: string := "tools/call"
  const SLOTS: nat := 10

  /** A parsed message; `hasId` tells requests from notifications. */
  datatype Envelope = Malformed | Envelope(hasId: bool, verb: string, name: string)

  datatype Msg = Msg(id: nat, inline: bool, env: Envelope)

  /** What the router library says about a tool name. */
  datatype Resolution = Unresolvable | Resolved(server: string)

  /** Where a message goes; `answer` is what the router said when it was routed, `since` the start of the
      period its quota check looked at. */
  datatype Route = Route(verb: string, tool: string, server: string, answer: Resolution, since: int)

  /** What is fixed for a session: its bound server, which collaborators are configured, and the
      quota in force for its user. */
  datatype Config = Config(boundServer: string, limiter: bool, quota: bool, tracker: bool,
                           enforceHard: bool, limit: int, period: string)

  predicate Space(c: char) {
    c in {' ', '\t', '\n', '\r', '\U{0B}', '\U{0C}', '\U{85}', '\U{A0}', '\U{1680}', '\U{2028}', '\U{2029}',
          '\U{202F}', '\U{205F}', '\U{3000}'} || '\U{2000}' <= c <= '\U{200A}'
  }

  /** The white space of Unicode, by code point. */
  lemma SpacesAreUnicode(c: char)
    ensures var n := c as int;
            Space(c) <==> 9 <= n <= 13 || n == 32 || n == 133 || n == 160 || n == 5_760 || 8_192 <= n <= 8_202
                          || n == 8_232 || n == 8_233 || n == 8_239 || n == 8_287 || n == 12_288
  {}

  predicate Blank(s: string) {
    forall i :: 0 <= i < |s| ==> Space(s[i])
  }

  /** Where a message goes. */
  function RouteMessage(bound: string, env: Envelope, resolution: Resolution): (r: Option<Route>)
    ensures r.Some? ==> Rightly(bound, env, r.value) && r.value.answer == resolution && r.value.since == 0
    ensures r.None? <==> Unroutable(bound, env, resolution)
  {
    if env.Malformed? then None
    else if env.verb == CALL then
      if Blank(env.name) then (if bound != "" then Some(Route(env.verb, "", bound, resolution, 0)) else None)
      else if resolution.Unresolvable? then None
      else if resolution.server != "" then Some(Route(env.verb, env.name, resolution.server, resolution, 0))
      else if bound != "" then Some(Route(env.verb, env.name, bound, resolution, 0)) else None
    else if bound == "" then None
    else Some(Route(env.verb, "", bound, resolution, 0))
  }

  /** A tool call that names a tool. */
  predicate NamesTool(env: Envelope) {
    env.Envelope? && env.verb == "tools/call" && exists i :: 0 <= i < |env.name| && !Space(env.name[i])
  }

  /** The promise of routing: a named tool call goes, with its name, to the server the router gives, or to
      the bound server if the router gives none; everything else goes to the bound server. */
  predicate Rightly(bound: string, env: Envelope, r: Route) {
    && env.Envelope? && r.verb == env.verb && r.server != ""
    && (if NamesTool(env)
        then r.tool == env.name && r.answer.Resolved?
            && (r.server == r.answer.server || (r.answer.server == "" && r.server == bound))
        else r.tool == "" && r.server == bound)
  }

  /** What goes nowhere: a named tool call whose tool has no server and no bound one to fall back on, and
      anything else without a bound server. */
  predicate Unroutable(bound: string, env: Envelope, answer: Resolution) {
    env.Malformed? || (NamesTool(env) && answer.Unresolvable?)
    || (bound == "" && (NamesTool(env) ==> answer == Resolved("")))
  }

  /** Where a caller of `dropBackend` goes on: after a failed write, after a pump error, or with the
      rest of the reaper's list. */
  datatype Cont = AfterWrite(msg: Msg, route: Route) | PumpExit | ReapRest(names: seq<string>)

  /** How handling a message ended; `settled` is what came of counting it. */
  datatype Outcome =
    | Unrouted
    | Limited(route: Route)
    | OverQuota(route: Route)
    | Forbidden(route: Route)
    | NoBackend(route: Route)
    | WriteLost(route: Route)
    | Delivered(route: Route, settled: seq<What>)

  /** A process and the point it has reached. */
  datatype Proc =
    | Routing(msg: Msg)
    | Limiting(msg: Msg, route: Route)
    | Checking(msg: Msg, route: Route)
    | Measuring(msg: Msg, route: Route, start: int)
    | Authorizing(msg: Msg, route: Route)
    | Looking(msg: Msg, route: Route)
    | Evicting(msg: Msg, route: Route, conn: nat)
    | Dialing(msg: Msg, route: Route)
    | Rejecting(msg: Msg, route: Route, conn: nat)
    | Unreachable(msg: Msg, route: Route)
    | Installing(msg: Msg, route: Route, conn: nat)
    | Spawning(msg: Msg, route: Route, conn: nat)
    | Yielding(msg: Msg, route: Route, conn: nat, winner: nat)
    | Writing(msg: Msg, route: Route, conn: nat)
    | Apologizing(msg: Msg, route: Route)
    | Blaming(msg: Msg, route: Route)
    | Counting(msg: Msg, route: Route)
    | Posting(msg: Msg, route: Route, start: int)
    | Crediting(msg: Msg, route: Route, settled: seq<What>)
    | Releasing(msg: Msg, outcome: Outcome)
    | Finished(msg: Msg, outcome: Outcome)
    | Dropping(server: string, cont: Cont)
    | Returning(conn: nat, cont: Cont)
    | Pumping(server: string, conn: nat)
    | Stopped
    | Reaping(names: seq<string>)

  datatype Loop = Reading | Waiting(msg: Msg) | Granted(msg: Msg) | Inline(pid: nat)

  datatype Gate = RouteGate | LimitGate | QuotaGate | PolicyGate

  /** What the outside world sees happen to a message. */
  datatype What =
    | Passed(gate: Gate)
    | Wrote(call: bool)
    | WriteFailed(call: bool)
    | Answered
    | Counted(start: int)
    | CountFailed
    | Tracked(success: bool)

  datatype Event = Event(msg: nat, what: What)

  /** Connections are numbered in the order they were dialed; a backend is known by its connection. */
  datatype State = State(
    loop: Loop, slots: nat, received: nat, malformed: set<nat>, procs: seq<Proc>,
    dialed: seq<string>, unhealthy: set<nat>, backends: map<string, nat>, returned: seq<nat>,
    installed: set<nat>, pumps: seq<nat>,
    tally: map<int, nat>, now: int, log: seq<Event>)

  function Init(now: int): State {
    State(Reading, 0, 0, {}, [Reaping([])], [], {}, map[], [], {}, [], map[], now, [])
  }

  /** An outside answer: `ok` for success, `alt` to tell two failures (or two successes) apart. */
  datatype Input = Input(ok: bool, alt: bool, resolution: Resolution, names: seq<string>)

  datatype Action =
    | Receive(env: Envelope)
    | Acquire
    | Spawn
    | Resume
    | Advance(pid: nat, input: Input)
    | Tick(now: int)
    | Flag(conn: nat)

  function TallyAt(tally: map<int, nat>, start: int): int {
    if start in tally then tally[start] else 0
  }

  function PeriodStart(cfg: Config, now: int): int {
    Calendar.PeriodBounds(cfg.period, now).0
  }

  predicate IsCall(route: Route) {
    route.verb == CALL
  }

  // ---------------------------------------------------------------- steps

  /** What a step of a process changes besides the process itself. */
  datatype Change =
    | Nothing
    | FreeSlot
    | CountIn(start: int)
    | DialTo(server: string)
    | TakeOut(server: string)
    | PutIn(server: string, conn: nat)
    | HandBack(conn: nat)
    | StartPump(server: string, conn: nat)

  /** The next point of the process, what is logged, and what changes. */
  datatype Effect = Effect(next: Proc, said: Option<Event>, change: Change)

  function Quietly(next: Proc): Effect { Effect(next, None, Nothing) }

  function Saying(next: Proc, msg: Msg, what: What): Effect { Effect(next, Some(Event(msg.id, what)), Nothing) }

  /** A concurrent handler still has to give its slot back; an inline one is done. */
  function End(msg: Msg, outcome: Outcome): Proc {
    if msg.inline then Finished(msg, outcome) else Releasing(msg, outcome)
  }

  function Refuse(msg: Msg, outcome: Outcome): Effect { Saying(End(msg, outcome), msg, Answered) }

  function Continue(cont: Cont): Proc {
    match cont
    case AfterWrite(msg, route) => Apologizing(msg, route)
    case PumpExit => Stopped
    case ReapRest(names) => Reaping(names)
  }

  /** Whether the quota check lets a tool call through; a failing usage lookup does. */
  predicate QuotaAllows(cfg: Config, usage: int, lookupOk: bool) {
    !(lookupOk && cfg.enforceHard && !Quota.Fits(usage, 1, cfg.limit))
  }

  /** The steps of `handleMessage`, `getBackend`, `dropBackend`, the pumps and the reaper. */
  function React(cfg: Config, s: State, p: Proc, input: Input): Effect {
    match p
    // handleMessage: the gates
    case Routing(msg) =>
      var r := RouteMessage(cfg.boundServer, msg.env, input.resolution);
      // `ok`: the server exists and is deployable
      if r.Some? && input.ok then Saying(Limiting(msg, r.value), msg, Passed(RouteGate)) else Refuse(msg, Unrouted)
    case Limiting(msg, route) =>
      if !cfg.limiter then Quietly(Checking(msg, route))
      else if input.ok then Saying(Checking(msg, route), msg, Passed(LimitGate))
      else Refuse(msg, Limited(route))
    case Checking(msg, route) =>
      if !(cfg.quota && IsCall(route)) then Quietly(Authorizing(msg, route))
      // the check reads the clock, then the store
      else Quietly(Measuring(msg, route, PeriodStart(cfg, s.now)))
    case Measuring(msg, route, start) =>
      if QuotaAllows(cfg, TallyAt(s.tally, start), input.ok)
      then Saying(Authorizing(msg, route.(since := start)), msg, Passed(QuotaGate))
      else Refuse(msg, OverQuota(route))
    case Authorizing(msg, route) =>
      if input.ok then Saying(Looking(msg, route), msg, Passed(PolicyGate)) else Refuse(msg, Forbidden(route))
    // getBackend
    case Looking(msg, route) =>
      if route.server !in s.backends then Quietly(Dialing(msg, route))
      else if s.backends[route.server] !in s.unhealthy then Quietly(Writing(msg, route, s.backends[route.server]))
      else Effect(Evicting(msg, route, s.backends[route.server]), None, TakeOut(route.server))
    case Evicting(msg, route, conn) => Effect(Dialing(msg, route), None, HandBack(conn))
    case Dialing(msg, route) =>
      if !input.ok then Quietly(Unreachable(msg, route))
      // `alt`: the pool handed out a transport of an unexpected type
      else if input.alt then Effect(Rejecting(msg, route, |s.dialed|), None, DialTo(route.server))
      else Effect(Installing(msg, route, |s.dialed|), None, DialTo(route.server))
    case Rejecting(msg, route, conn) => Effect(Unreachable(msg, route), None, HandBack(conn))
    case Unreachable(msg, route) => Refuse(msg, NoBackend(route))
    case Installing(msg, route, conn) =>
      if route.server in s.backends then Quietly(Yielding(msg, route, conn, s.backends[route.server]))
      else Effect(Spawning(msg, route, conn), None, PutIn(route.server, conn))
    case Spawning(msg, route, conn) => Effect(Writing(msg, route, conn), None, StartPump(route.server, conn))
    case Yielding(msg, route, conn, winner) => Effect(Writing(msg, route, winner), None, HandBack(conn))
    // handleMessage: the write and what follows
    case Writing(msg, route, _) =>
      if input.ok then Saying(Counting(msg, route), msg, Wrote(IsCall(route)))
      else Saying(Dropping(route.server, AfterWrite(msg, route)), msg, WriteFailed(IsCall(route)))
    case Apologizing(msg, route) => Saying(Blaming(msg, route), msg, Answered)
    case Blaming(msg, route) =>
      var next := End(msg, WriteLost(route));
      if cfg.tracker && IsCall(route) then Saying(next, msg, Tracked(false)) else Quietly(next)
    case Counting(msg, route) =>
      if !(cfg.quota && IsCall(route)) then Quietly(Crediting(msg, route, []))
      // so does the increment
      else Quietly(Posting(msg, route, PeriodStart(cfg, s.now)))
    case Posting(msg, route, start) =>
      if !input.ok then Saying(Crediting(msg, route, [CountFailed]), msg, CountFailed)
      else Effect(Crediting(msg, route, [Counted(start)]), Some(Event(msg.id, Counted(start))), CountIn(start))
    case Crediting(msg, route, settled) =>
      var next := End(msg, Delivered(route, settled));
      if cfg.tracker && IsCall(route) then Saying(next, msg, Tracked(true)) else Quietly(next)
    case Releasing(msg, outcome) => Effect(Finished(msg, outcome), None, FreeSlot)
    case Finished(_, _) => Quietly(p)
    // dropBackend
    case Dropping(server, cont) =>
      if server in s.backends then Effect(Returning(s.backends[server], cont), None, TakeOut(server))
      else Quietly(Continue(cont))
    case Returning(conn, cont) => Effect(Continue(cont), None, HandBack(conn))
    // the pumps and the reaper
    case Pumping(server, _) =>
      Quietly(if input.ok then p else if input.alt then Dropping(server, PumpExit) else Stopped)
    case Stopped => Quietly(p)
    case Reaping(names) =>
      Quietly(if names != [] then Dropping(names[0], ReapRest(names[1..])) else Reaping(input.names))
  }

  function Changed(s: State, c: Change): State {
    match c
    case Nothing => s
    case FreeSlot => s.(slots := if s.slots > 0 then s.slots - 1 else 0)
    case CountIn(start) => s.(tally := s.tally[start := TallyAt(s.tally, start) + 1])
    case DialTo(server) => s.(dialed := s.dialed + [server])
    case TakeOut(server) => s.(backends := s.backends - {server})
    case PutIn(server, conn) => s.(backends := s.backends[server := conn], installed := s.installed + {conn})
    // `conn.Healthy = false`, close, and `pool.Put`
    case HandBack(conn) => s.(unhealthy := s.unhealthy + {conn}, returned := s.returned + [conn])
    case StartPump(server, conn) => s.(procs := s.procs + [Pumping(server, conn)], pumps := s.pumps + [conn])
  }

  function Logged(log: seq<Event>, said: Option<Event>): seq<Event> {
    if said.Some? then log + [said.value] else log
  }

  function AdvanceStep(cfg: Config, s: State, pid: nat, input: Input): State
    requires pid < |s.procs|
  {
    var e := React(cfg, s, s.procs[pid], input);
    var t := Changed(s, e.change);
    t.(procs := t.procs[pid := e.next], log := Logged(s.log, e.said))
  }

  /** The read loop of `Run`: malformed messages are answered at once, notifications are handled
      inline, requests wait for one of the ten slots. */
  function LoopStep(s: State, a: Action): State {
    match a
    case Receive(env) =>
      if !s.loop.Reading? then s
      else if env.Malformed? then
        s.(log := s.log + [Event(s.received, Answered)], malformed := s.malformed + {s.received},
           received := s.received + 1)
      else if env.hasId then s.(loop := Waiting(Msg(s.received, false, env)), received := s.received + 1)
      else s.(loop := Inline(|s.procs|), procs := s.procs + [Routing(Msg(s.received, true, env))],
              received := s.received + 1)
    case Acquire =>
      if s.loop.Waiting? && s.slots < SLOTS then s.(loop := Granted(s.loop.msg), slots := s.slots + 1) else s
    case Spawn =>
      if s.loop.Granted? then s.(loop := Reading, procs := s.procs + [Routing(s.loop.msg)]) else s
    case Resume =>
      if s.loop.Inline? && s.loop.pid < |s.procs| && s.procs[s.loop.pid].Finished? then s.(loop := Reading) else s
    case _ => s
  }

  /** One step; an action that is not enabled changes nothing. */
  function Step(cfg: Config, s: State, a: Action): State {
    match a
    case Advance(pid, input) => if pid < |s.procs| then AdvanceStep(cfg, s, pid, input) else s
    case Tick(now) => if now >= s.now then s.(now := now) else s
    case Flag(conn) => s.(unhealthy := s.unhealthy + {conn})
    case _ => LoopStep(s, a)
  }

  /** Every interleaving is a sequence of actions. */
  function Exec(cfg: Config, s: State, actions: seq<Action>): State
    decreases |actions|
  {
    if actions == [] then s else Exec(cfg, Step(cfg, s, actions[0]), actions[1..])
  }

  lemma {:induction false} ExecJoin(cfg: Config, s: State, a: seq<Action>, b: seq<Action>)
    ensures Exec(cfg, s, a + b) == Exec(cfg, Exec(cfg, s, a), b)
    decreases |a|
  {
    hide Step;
    if a == [] {
      assert a + b == b;
    } else {
      assert (a + b)[1..] == a[1..] + b && (a + b)[0] == a[0];
      ExecJoin(cfg, Step(cfg, s, a[0]), a[1..], b);
    }
  }

  // ---------------------------------------------------------------- what a step leaves alone

  /** The message a process is handling. */
  function MsgOf(p: Proc): Option<Msg> {
    match p
    case Dropping(_, cont) => if cont.AfterWrite? then Some(cont.msg) else None
    case Returning(_, cont) => if cont.AfterWrite? then Some(cont.msg) else None
    case Pumping(_, _) => None
    case Stopped => None
    case Reaping(_) => None
    case _ => Some(p.msg)
  }

  /** A process keeps its message and speaks only of it. */
  lemma ReactKeepsMessage(cfg: Config, s: State, p: Proc, input: Input)
    ensures var e := React(cfg, s, p, input);
            && MsgOf(e.next) == MsgOf(p)
            && (e.said.Some? ==> MsgOf(p).Some? && e.said.value.msg == MsgOf(p).value.id)
  {
    hide RouteMessage, PeriodStart, TallyAt, QuotaAllows;
  }

  /** Other processes stay where they are; at most a pump joins them. */
  lemma AdvanceFrame(cfg: Config, s: State, pid: nat, input: Input)
    requires pid < |s.procs|
    ensures var e := React(cfg, s, s.procs[pid], input);
            var t := AdvanceStep(cfg, s, pid, input);
            && t.procs == s.procs[pid := e.next] +
                          (if e.change.StartPump? then [Pumping(e.change.server, e.change.conn)] else [])
            && t.loop == s.loop && t.received == s.received && t.malformed == s.malformed && t.now == s.now
            && t.log == Logged(s.log, e.said)
            && t.slots == (if e.change.FreeSlot? && s.slots > 0 then s.slots - 1 else s.slots)
            && t.tally == (if e.change.CountIn? then s.tally[e.change.start := TallyAt(s.tally, e.change.start) + 1]
                           else s.tally)
  {
    hide React;
  }

  /** Anything but a process's step: at most one handler starts on a new or waiting message, or one
      malformed message is answered; usage stays. */
  lemma OtherFrame(cfg: Config, s: State, a: Action)
    requires a.Advance? ==> a.pid >= |s.procs|
    ensures var t := Step(cfg, s, a);
            && t.tally == s.tally && t.received >= s.received
            && (t.log == s.log || (t.log == s.log + [Event(s.received, Answered)] && t.procs == s.procs))
            && (t.procs == s.procs || (|t.procs| == |s.procs| + 1 && t.procs[|s.procs|].Routing?
                                       && t.procs == s.procs + [t.procs[|s.procs|]]))
  {}

  /** The outside moves too: time passes, never backwards, and a connection can turn unhealthy. */
  lemma OutsideMoves(cfg: Config, s: State, now: int, conn: nat)
    ensures Step(cfg, s, Tick(now)) == s.(now := if now < s.now then s.now else now)
    ensures Step(cfg, s, Flag(conn)) == s.(unhealthy := s.unhealthy + {conn})
  {}
}
